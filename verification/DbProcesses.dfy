/** Many processes on one database at once: each has a handle of its own, every system call is one
    atomic step, and `fcntl` byte-range locks are all that keeps them apart. Index records are known
    by their file offset; the data of a record stands in the record that names it. */
module DbProcesses {
  import opened Options
  import opened Sequences
  import opened Decimal
  import opened DbFormat
  import opened DbImage
  import opened DbLists
  import opened Database
  import opened DbRuns

  // ---------- locks ----------

  /** Locks 0 to NHASH are the first bytes of the free list and of the chains; two more cover the
      ends of the files, where records are appended. */
  const IDX_END: nat := NHASH + 1
  const DAT_END: nat := NHASH + 2
  const LOCKS: nat := NHASH + 3

  datatype Lock = Shared(readers: set<nat>) | Exclusive(owner: nat)

  const Unlocked: Lock := Shared({})

  predicate CanTake(k: Lock, write: bool) {
    k.Shared? && (write ==> k.readers == {})
  }

  function Taken(k: Lock, p: nat, write: bool): Lock
    requires CanTake(k, write)
  {
    if write then Exclusive(p) else Shared(k.readers + {p})
  }

  function Released(k: Lock, p: nat): Lock {
    match k
    case Shared(readers) => Shared(readers - {p})
    case Exclusive(_) => Unlocked
  }

  // ---------- one process ----------

  /** The next system call (or decision) of a process. */
  datatype Pc =
    | Locking | ReadHead | Walking | Found | NotFound | Overwriting
    | DelLock | DelData | DelRead | DelIdx | DelFree | DelLink | DelUnlock
    | InsHead | FreeLock | FreeHead | FreeWalk | FreeTake | FreeUnlock | FillDat | FillIdx
    | DatLock | DatWrite | DatUnlock | IdxLock | IdxWrite | IdxUnlock | LinkHead
    | Unlocking | Ending

  /** A call in progress. `cur`, `prev`, `val`, `head`, `free` and `len` are what the code keeps in
      the handle and its locals: the record's offset, the record whose pointer leads to it (0 for
      the list head), saved pointers and the data length. `k`, `gone`, `since` and `at` are history:
      the position in the list, whether the record's contents are being torn down, and where in the
      log the call began and took effect. */
  datatype Local = Local(op: Call, pc: Pc, cur: nat, prev: nat, val: nat, free: nat, head: nat, len: nat,
                         k: nat, gone: bool, since: nat, at: nat, ans: Answer)

  function Key(x: Local): string {
    x.op.key
  }

  function Chain(x: Local): nat {
    ChainOf(x.op.key)
  }

  predicate HoldsFreeList(pc: Pc) {
    pc == DelData || pc == DelRead || pc == DelIdx || pc == DelFree || pc == DelLink || pc == DelUnlock
    || pc == FreeHead || pc == FreeWalk || pc == FreeTake || pc == FreeUnlock
  }

  predicate Writes(x: Local, l: nat) {
    || (l == Chain(x) && x.pc != Locking && !x.op.FetchCall?)
    || (l == FREE && HoldsFreeList(x.pc))
    || (l == DAT_END && (x.pc == DatWrite || x.pc == DatUnlock))
    || (l == IDX_END && (x.pc == IdxWrite || x.pc == IdxUnlock))
  }

  predicate Reads(x: Local, l: nat) {
    l == Chain(x) && x.pc != Locking && x.op.FetchCall?
  }

  // ---------- the system ----------

  /** A record is on a list, in the hands of a process, or was left behind by one that ended. */
  datatype Place = On(l: nat) | Hand(p: nat) | Lost

  /** A call took effect, with this answer. */
  datatype Event = Event(p: nat, op: Call, ans: Answer)

  /** `heads`, `recs`, `locks` and `procs` are the files, the kernel and the processes. The rest is
      history: the list each record is on, the record of each live key, and the calls that took
      effect so far with the table they lead to. */
  datatype Sys = Sys(heads: seq<nat>, recs: map<nat, Rec>, locks: seq<Lock>, procs: map<nat, Local>,
                     lists: seq<seq<nat>>, place: map<nat, Place>, loc: map<string, nat>,
                     log: seq<Event>, abs: map<string, string>)

  predicate Shaped(s: Sys) {
    |s.heads| == |s.lists| == NHASH + 1 && |s.locks| == LOCKS
  }

  function Calls(log: seq<Event>): (c: seq<Call>)
    ensures |c| == |log|
  {
    seq(|log|, i requires 0 <= i < |log| => log[i].op)
  }

  function Answers(log: seq<Event>): (a: seq<Answer>)
    ensures |a| == |log|
  {
    seq(|log|, i requires 0 <= i < |log| => log[i].ans)
  }

  // ---------- steps ----------

  function Put(s: Sys, p: nat, x: Local): Sys {
    s.(procs := s.procs[p := x])
  }

  function TakeLock(s: Sys, p: nat, l: nat, write: bool, x: Local): Option<Sys>
    requires l < |s.locks|
  {
    if CanTake(s.locks[l], write)
    then Some(Put(s, p, x).(locks := s.locks[l := Taken(s.locks[l], p, write)]))
    else None
  }

  function DropLock(s: Sys, p: nat, l: nat, x: Local): Sys
    requires l < |s.locks|
  {
    Put(s, p, x).(locks := s.locks[l := Released(s.locks[l], p)])
  }

  /** The call takes effect. */
  function Log(s: Sys, p: nat, x: Local, pc: Pc, ans: Answer): Sys {
    Put(s, p, x.(pc := pc, gone := false, ans := ans, at := |s.log|))
      .(log := s.log + [Event(p, x.op, ans)], abs := After(s.abs, x.op))
  }

  /** Write the pointer of record `prev`, or of the head of list `l` when `prev` is 0. */
  function WriteLink(s: Sys, l: nat, prev: nat, v: nat): Sys
    requires l < |s.heads| && (prev != 0 ==> prev in s.recs)
  {
    if prev == 0 then s.(heads := s.heads[l := v]) else s.(recs := s.recs[prev := s.recs[prev].(next := v)])
  }

  function CutList(s: Sys, l: nat, k: nat): seq<seq<nat>>
    requires l < |s.lists|
  {
    if k < |s.lists[l]| then s.lists[l := Without(s.lists[l], k)] else s.lists
  }

  /** The registers after a record of the chain was read. A key with a separator cannot be read: it ends
      the process. */
  function AfterRecord(x: Local, r: Rec): Local {
    if SEP in r.key then x.(pc := Ending)
    else if r.key == Key(x) then x.(val := r.next, len := |r.data|, pc := Found)
    else x.(prev := x.cur, cur := r.next, k := x.k + 1, pc := if r.next == 0 then NotFound else Walking)
  }

  /** Steps that look for a record on a chain or on the free list. */
  function WalkStep(s: Sys, p: nat): Option<Sys>
    requires Shaped(s) && p in s.procs
  {
    var x := s.procs[p];
    match x.pc
    case ReadHead =>
      var cur := s.heads[Chain(x)];
      Some(Put(s, p, x.(cur := cur, prev := 0, k := 0, pc := if cur == 0 then NotFound else Walking)))
    case Walking =>
      if x.cur !in s.recs then None else Some(Put(s, p, AfterRecord(x, s.recs[x.cur])))
    case FreeHead =>
      var cur := s.heads[FREE];
      Some(Put(s, p, x.(cur := cur, prev := 0, k := 0, pc := if cur == 0 then FreeUnlock else FreeWalk)))
    case FreeWalk =>
      if x.cur !in s.recs || !x.op.StoreCall? then None else
      var r := s.recs[x.cur];
      if |r.key| == |Key(x)| && |r.data| == |x.op.data| then Some(Put(s, p, x.(val := r.next, pc := FreeTake)))
      else Some(Put(s, p, x.(prev := x.cur, cur := r.next, k := x.k + 1,
                             pc := if r.next == 0 then FreeUnlock else FreeWalk)))
    case _ => None
  }

  /** Steps that decide what to do with the outcome of the walk; some end the call's work. */
  function DecideStep(s: Sys, p: nat): Option<Sys>
    requires Shaped(s) && p in s.procs
  {
    var x := s.procs[p];
    match x.pc
    case Found =>
      (match x.op
       case FetchCall(_) =>
         if x.cur !in s.recs then None
         else Some(Log(s, p, x, Unlocking, Data(Option.Some(s.recs[x.cur].data))))
       case DeleteCall(_) => Some(Put(s, p, x.(pc := DelLock)))
       case StoreCall(_, data, flag) =>
         if flag == DB_INSERT then Some(Log(s, p, x, Unlocking, Code(1)))
         else if |data| != x.len then Some(Put(s, p, x.(pc := DelLock)))
         else Some(Put(s, p, x.(pc := Overwriting))))
    case NotFound =>
      (match x.op
       case FetchCall(_) => Some(Log(s, p, x, Unlocking, Data(Option.None)))
       case DeleteCall(_) => Some(Log(s, p, x, Unlocking, Code(-1)))
       case StoreCall(_, _, flag) =>
         if flag == DB_REPLACE then Some(Log(s, p, x, Unlocking, Code(-1)))
         else Some(Put(s, p, x.(pc := InsHead))))
    case Overwriting =>
      if x.cur !in s.recs || !x.op.StoreCall? then None
      else Some(Log(s, p, x, Unlocking, Code(0)).(recs := s.recs[x.cur := s.recs[x.cur].(data := x.op.data)]))
    case _ => None
  }

  /** The steps of `_db_dodelete` between its lock and its unlock. */
  function DeleteStep(s: Sys, p: nat): Option<Sys>
    requires Shaped(s) && p in s.procs
  {
    var x := s.procs[p];
    var c := Chain(x);
    if x.cur !in s.recs then None else
    match x.pc
    case DelData =>
      Some(Put(s, p, x.(gone := true, pc := DelRead))
             .(recs := s.recs[x.cur := s.recs[x.cur].(data := Spaces(x.len))]))
    case DelRead => Some(Put(s, p, x.(free := s.heads[FREE], pc := DelIdx)))
    case DelIdx =>
      Some(Put(s, p, x.(pc := DelFree))
             .(recs := s.recs[x.cur := s.recs[x.cur].(next := x.free, key := Spaces(|Key(x)|))],
               lists := CutList(s, c, x.k), place := s.place[x.cur := Hand(p)], loc := s.loc - {Key(x)}))
    case DelFree =>
      Some(Put(s, p, x.(pc := DelLink))
             .(heads := s.heads[FREE := x.cur],
               lists := s.lists[FREE := [x.cur] + s.lists[FREE]], place := s.place[x.cur := On(FREE)]))
    case DelLink =>
      if x.prev != 0 && x.prev !in s.recs then None else
      var s1 := WriteLink(s, c, x.prev, x.val);
      if x.op.DeleteCall? then Some(Log(s1, p, x, DelUnlock, Code(0))) else Some(Put(s1, p, x.(pc := DelUnlock)))
    case _ => None
  }

  /** The steps of a store that reuse a free record or append one, and link it. */
  function InsertStep(s: Sys, p: nat, end: nat): Option<Sys>
    requires Shaped(s) && p in s.procs
  {
    var x := s.procs[p];
    var c := Chain(x);
    if !x.op.StoreCall? then None else
    match x.pc
    case InsHead => Some(Put(s, p, x.(head := s.heads[c], pc := if x.gone then DatLock else FreeLock)))
    case FreeTake =>
      if x.cur !in s.recs || (x.prev != 0 && x.prev !in s.recs) then None else
      Some(Put(WriteLink(s, FREE, x.prev, x.val), p, x.(pc := FreeUnlock))
             .(lists := CutList(s, FREE, x.k), place := s.place[x.cur := Hand(p)]))
    case FillDat =>
      if x.cur !in s.recs then None else
      Some(Put(s, p, x.(pc := FillIdx)).(recs := s.recs[x.cur := s.recs[x.cur].(data := x.op.data)]))
    case FillIdx =>
      if x.cur !in s.recs then None else
      Some(Put(s, p, x.(pc := LinkHead))
             .(recs := s.recs[x.cur := s.recs[x.cur].(next := x.head, key := Key(x))]))
    case DatWrite => Some(Put(s, p, x.(pc := DatUnlock)))
    case IdxWrite =>
      if end == 0 || end in s.recs then None else
      Some(Put(s, p, x.(cur := end, pc := IdxUnlock))
             .(recs := s.recs[end := Rec(x.head, Key(x), x.op.data)], place := s.place[end := Hand(p)]))
    case LinkHead =>
      Some(Log(s, p, x, Unlocking, Code(0))
             .(heads := s.heads[c := x.cur], lists := s.lists[c := [x.cur] + s.lists[c]],
               place := s.place[x.cur := On(c)], loc := s.loc[Key(x) := x.cur]))
    case _ => None
  }

  /** Lock and unlock calls; a lock call waits until the lock is free. */
  function LockStep(s: Sys, p: nat): Option<Sys>
    requires Shaped(s) && p in s.procs
  {
    var x := s.procs[p];
    var c := Chain(x);
    match x.pc
    case Locking => TakeLock(s, p, c, !x.op.FetchCall?, x.(pc := ReadHead))
    case DelLock => TakeLock(s, p, FREE, true, x.(pc := DelData))
    case DelUnlock =>
      Some(DropLock(s, p, FREE, x.(pc := if x.op.DeleteCall? then Unlocking else InsHead)))
    case FreeLock => TakeLock(s, p, FREE, true, x.(pc := FreeHead))
    case FreeUnlock => Some(DropLock(s, p, FREE, x.(pc := if x.cur == 0 then DatLock else FillDat)))
    case DatLock => TakeLock(s, p, DAT_END, true, x.(pc := DatWrite))
    case DatUnlock => Some(DropLock(s, p, DAT_END, x.(pc := IdxLock)))
    case IdxLock => TakeLock(s, p, IDX_END, true, x.(pc := IdxWrite))
    case IdxUnlock => Some(DropLock(s, p, IDX_END, x.(pc := LinkHead)))
    case Unlocking => Some(Gone(s, p, c))
    case Ending => Some(Gone(s, p, c))
    case _ => None
  }

  /** The call returns, or the process ends and the kernel gives up its lock. */
  function Gone(s: Sys, p: nat, c: nat): Sys
    requires c < |s.locks|
  {
    s.(locks := s.locks[c := Released(s.locks[c], p)], procs := s.procs - {p})
  }

  /** An append fails a check: its record is too long or too short before it is written, or lies too far
      for a pointer after. The process ends; a store whose old record is deleted already is a deletion. */
  function Failed(s: Sys, p: nat): Option<Sys>
    requires p in s.procs
  {
    var x := s.procs[p];
    match x.pc
    case IdxLock => Some(Ended(s, p, s.place))
    case LinkHead => Some(Ended(s, p, s.place[x.cur := Lost]))
    case _ => None
  }

  function Ended(s: Sys, p: nat, place: map<nat, Place>): Sys
    requires p in s.procs
  {
    var x := s.procs[p];
    var y := x.(pc := Ending, gone := false, at := if x.gone then |s.log| else x.at);
    Put(s, p, y).(place := place,
                  log := if x.gone then s.log + [Event(p, DeleteCall(Key(x)), Code(0))] else s.log,
                  abs := if x.gone then s.abs - {Key(x)} else s.abs)
  }

  predicate Waits(pc: Pc) {
    pc == Locking || pc == DelLock || pc == FreeLock || pc == DatLock || pc == IdxLock
  }

  predicate LockPc(pc: Pc) {
    Waits(pc) || pc == DelUnlock || pc == FreeUnlock || pc == DatUnlock || pc == IdxUnlock || Leaves(pc)
  }

  /** The call, or its process, is about to be gone. */
  predicate Leaves(pc: Pc) {
    pc == Unlocking || pc == Ending
  }

  predicate WalkPc(pc: Pc) {
    pc == ReadHead || pc == Walking || pc == FreeHead || pc == FreeWalk
  }

  predicate DecidePc(pc: Pc) {
    pc == Found || pc == NotFound || pc == Overwriting
  }

  predicate DeletePc(pc: Pc) {
    pc == DelData || pc == DelRead || pc == DelIdx || pc == DelFree || pc == DelLink
  }

  predicate InsertPc(pc: Pc) {
    pc == InsHead || pc == FreeLock || pc == FreeHead || pc == FreeWalk || pc == FreeTake || pc == FreeUnlock
    || pc == FillDat || pc == FillIdx || pc == DatLock || pc == DatWrite || pc == DatUnlock
    || pc == IdxLock || pc == IdxWrite || pc == IdxUnlock || pc == LinkHead
  }

  /** The next step of process `p`; `end` is the offset an appended record gets. */
  function Next(s: Sys, p: nat, end: nat): Option<Sys>
    requires Shaped(s) && p in s.procs
  {
    var pc := s.procs[p].pc;
    if LockPc(pc) then LockStep(s, p)
    else if WalkPc(pc) then WalkStep(s, p)
    else if DecidePc(pc) then DecideStep(s, p)
    else if DeletePc(pc) then DeleteStep(s, p)
    else InsertStep(s, p, end)
  }

  /** A process that is in no call starts one. */
  function Begin(s: Sys, p: nat, op: Call): Sys {
    Put(s, p, Local(op, Locking, 0, 0, 0, 0, 0, 0, 0, false, |s.log|, 0, Code(0)))
  }

  /** What `db_store` accepts before it takes a lock, and what every caller must respect. */
  predicate Startable(op: Call) {
    GoodCall(op) && (op.StoreCall? ==> StoreFlag(op.flag) && DataText(op.data))
  }

  function Initial(): Sys {
    Sys(seq(NHASH + 1, _ => 0), map[], seq(LOCKS, _ => Unlocked), map[],
        seq(NHASH + 1, _ => []), map[], map[], [], map[])
  }
}
