/** Process-counted semaphores: many processes create, open, close and use the System V set of one key,
    and may be killed between any two system calls. Each `semop` is one atomic step. */
module Semaph {
  import opened Options

  const BIGCOUNT: int := 10000

  /** How a process came to have the set open. */
  datatype Via = ByCreate | ByOpen
  datatype Share = Share(p: nat, via: Via)

  /** The set of the key: the semaphore value, the process counter and the lock. `ready` (history)
      says that its initialisation is complete. */
  datatype Set = Set(id: nat, value: int, count: int, lock: int, ready: bool)

  datatype Call = Create(initval: nat) | Open | Close(id: nat, via: Via) | Op(id: nat, amount: int)

  /** The next system call of a process. */
  datatype Pc =
    | Idle | GetCreate | Lock | ReadCount | SetValue | SetCount | EndCreate
    | GetOpen | Join | CloseLock | CloseRead | Remove | Unlock | Change

  /** A process: `id` is the set it works on, `undo0` to `undo2` what the kernel adds to the members of
      the live set when it exits. */
  datatype Process = Process(call: Call, pc: Pc, id: nat, undo0: int, undo1: int, undo2: int)

  /** `set` is the live set, if there is one, and `shares` (history) who has it open, how and how
      often. Identifiers are not used again. */
  datatype Sys = Sys(live: Option<Set>, nextId: nat, procs: map<nat, Process>, shares: multiset<Share>)

  /** A call can succeed, block, find its set removed in the middle of a critical section, or meet the
      counter above its maximum. */
  datatype Outcome = Next(s: Sys) | Wait | Lost | Dump

  // ---------- the kernel ----------

  function Put(s: Sys, p: nat, x: Process): Sys {
    s.(procs := s.procs[p := x])
  }

  predicate IsLive(s: Sys, id: nat) {
    s.live.Some? && s.live.value.id == id
  }

  /** SETVAL clears the adjustments of that member in all processes. */
  function ClearUndo0(procs: map<nat, Process>): map<nat, Process> {
    map p | p in procs :: procs[p].(undo0 := 0)
  }

  function ClearUndo1(procs: map<nat, Process>): map<nat, Process> {
    map p | p in procs :: procs[p].(undo1 := 0)
  }

  function ClearUndo(procs: map<nat, Process>): map<nat, Process> {
    map p | p in procs :: procs[p].(undo0 := 0, undo1 := 0, undo2 := 0)
  }

  /** No member is adjusted below zero. */
  function Adjusted(v: int, undo: int): int {
    if v + undo < 0 then 0 else v + undo
  }

  /** The process exits or is killed: the kernel applies its adjustments. */
  function Die(s: Sys, p: nat): Sys
    requires p in s.procs
  {
    var x := s.procs[p];
    s.(procs := s.procs - {p}, shares := s.shares[Share(p, ByCreate) := 0][Share(p, ByOpen) := 0],
       live := if s.live.None? then None else
               var k := s.live.value;
               Some(k.(value := Adjusted(k.value, x.undo0), count := Adjusted(k.count, x.undo1),
                       lock := Adjusted(k.lock, x.undo2))))
  }

  // ---------- sem_create ----------

  function CreateStep(s: Sys, p: nat, x: Process): Outcome
    requires p in s.procs
  {
    if !x.call.Create? then Lost else
    match x.pc
    case GetCreate =>
      if s.live.Some? then Next(Put(s, p, x.(id := s.live.value.id, pc := Lock)))
      else Next(Put(s, p, x.(id := s.nextId, pc := Lock))
                  .(live := Some(Set(s.nextId, 0, 0, 0, false)), nextId := s.nextId + 1))
    case Lock =>
      if !IsLive(s, x.id) then Next(Put(s, p, x.(pc := GetCreate)))
      else if s.live.value.lock != 0 then Wait
      else Next(Put(s, p, x.(pc := ReadCount, undo2 := x.undo2 - 1)).(live := Some(s.live.value.(lock := 1))))
    case ReadCount =>
      if !IsLive(s, x.id) then Lost
      else Next(Put(s, p, x.(pc := if s.live.value.count == 0 then SetValue else EndCreate)))
    case SetValue =>
      if !IsLive(s, x.id) then Lost
      else Next(s.(procs := ClearUndo0(s.procs)[p := x.(pc := SetCount, undo0 := 0)],
                   live := Some(s.live.value.(value := x.call.initval))))
    case SetCount =>
      if !IsLive(s, x.id) then Lost
      else Next(s.(procs := ClearUndo1(s.procs)[p := x.(pc := EndCreate, undo1 := 0)],
                   live := Some(s.live.value.(count := BIGCOUNT, ready := true))))
    case EndCreate =>
      if !IsLive(s, x.id) then Lost
      else if s.live.value.count < 1 || s.live.value.lock < 1 then Wait
      else Next(Put(s, p, x.(pc := Idle, undo1 := x.undo1 + 1, undo2 := x.undo2 + 1))
                  .(live := Some(s.live.value.(count := s.live.value.count - 1, lock := s.live.value.lock - 1)),
                    shares := s.shares + multiset{Share(p, ByCreate)}))
    case _ => Lost
  }

  // ---------- sem_open ----------

  function OpenStep(s: Sys, p: nat, x: Process): Outcome
    requires p in s.procs
  {
    match x.pc
    case GetOpen =>
      if s.live.None? then Next(Put(s, p, x.(pc := Idle)))
      else Next(Put(s, p, x.(id := s.live.value.id, pc := Join)))
    case Join =>
      if !IsLive(s, x.id) then Next(Die(s, p))
      else if s.live.value.count < 1 then Wait
      else Next(Put(s, p, x.(pc := Idle, undo1 := x.undo1 + 1))
                  .(live := Some(s.live.value.(count := s.live.value.count - 1)),
                    shares := s.shares + multiset{Share(p, ByOpen)}))
    case _ => Lost
  }

  // ---------- sem_close ----------

  function CloseStep(s: Sys, p: nat, x: Process): Outcome
    requires p in s.procs
  {
    if !x.call.Close? then Lost else
    match x.pc
    case CloseLock =>
      if !IsLive(s, x.id) then Next(Die(s, p))
      else if s.live.value.lock != 0 then Wait
      else Next(Put(s, p, x.(pc := CloseRead, undo1 := x.undo1 - 1, undo2 := x.undo2 - 1))
                  .(live := Some(s.live.value.(lock := 1, count := s.live.value.count + 1)),
                    shares := s.shares - multiset{Share(p, x.call.via)}))
    case CloseRead =>
      if !IsLive(s, x.id) then Lost
      else if s.live.value.count > BIGCOUNT then Dump
      else Next(Put(s, p, x.(pc := if s.live.value.count == BIGCOUNT then Remove else Unlock)))
    case Remove =>
      if !IsLive(s, x.id) then Lost
      else Next(s.(live := None, shares := multiset{},
                   procs := ClearUndo(s.procs)[p := x.(pc := Idle, undo0 := 0, undo1 := 0, undo2 := 0)]))
    case Unlock =>
      if !IsLive(s, x.id) then Lost
      else if s.live.value.lock < 1 then Wait
      else Next(Put(s, p, x.(pc := Idle, undo2 := x.undo2 + 1))
                  .(live := Some(s.live.value.(lock := s.live.value.lock - 1))))
    case _ => Lost
  }

  // ---------- sem_op, sem_wait and sem_signal ----------

  function OpStep(s: Sys, p: nat, x: Process): Outcome
    requires p in s.procs
  {
    if !x.call.Op? then Lost
    else if x.call.amount == 0 || !IsLive(s, x.id) then Next(Die(s, p))
    else if s.live.value.value + x.call.amount < 0 then Wait
    else Next(Put(s, p, x.(pc := Idle, undo0 := x.undo0 - x.call.amount))
                .(live := Some(s.live.value.(value := s.live.value.value + x.call.amount))))
  }

  // ---------- processes ----------

  predicate CreatePc(pc: Pc) {
    pc == GetCreate || pc == Lock || pc == ReadCount || pc == SetValue || pc == SetCount || pc == EndCreate
  }

  predicate ClosePc(pc: Pc) {
    pc == CloseLock || pc == CloseRead || pc == Remove || pc == Unlock
  }

  /** The next system call of a process in a call. */
  function Step(s: Sys, p: nat): Outcome
    requires p in s.procs && s.procs[p].pc != Idle
  {
    var x := s.procs[p];
    if CreatePc(x.pc) then CreateStep(s, p, x)
    else if ClosePc(x.pc) then CloseStep(s, p, x)
    else if x.pc == Change then OpStep(s, p, x)
    else OpenStep(s, p, x)
  }

  function Entry(call: Call): Pc {
    match call
    case Create(_) => GetCreate
    case Open => GetOpen
    case Close(_, _) => CloseLock
    case Op(_, _) => Change
  }

  /** An idle process may start any call; of the live set it closes only what it has open, and it names
      only sets that exist or existed. */
  predicate MayCall(s: Sys, p: nat, call: Call) {
    && p in s.procs && s.procs[p].pc == Idle
    && (call.Close? || call.Op? ==> call.id < s.nextId)
    && (call.Close? && IsLive(s, call.id) ==> Share(p, call.via) in s.shares)
  }

  function Begin(s: Sys, p: nat, call: Call): Sys
    requires p in s.procs
  {
    var id := if call.Close? || call.Op? then call.id else 0;
    Put(s, p, s.procs[p].(call := call, pc := Entry(call), id := id))
  }

  function Spawn(s: Sys, p: nat): Sys {
    Put(s, p, Process(Open, Idle, 0, 0, 0, 0))
  }

  function Initial(): Sys {
    Sys(None, 0, map[], multiset{})
  }

  // ---------- what every step keeps ----------

  /** Between taking the lock and giving it up. */
  predicate Critical(pc: Pc) {
    pc == ReadCount || pc == SetValue || pc == SetCount || pc == EndCreate
    || pc == CloseRead || pc == Remove || pc == Unlock
  }

  predicate InSection(s: Sys, p: nat) {
    p in s.procs && Critical(s.procs[p].pc)
  }

  /** The lock is 1 exactly when one live process is in its critical section. */
  ghost predicate LockHolds(s: Sys) {
    var holds :=
      if s.live.None? then forall p :: p in s.procs ==> !Critical(s.procs[p].pc)
      else
        && (s.live.value.lock == 0 || s.live.value.lock == 1)
        && (s.live.value.lock == 1 ==> exists p :: InSection(s, p))
        && (forall p :: InSection(s, p) ==> s.live.value.lock == 1 && s.procs[p].id == s.live.value.id)
        && (forall p, q :: InSection(s, p) && InSection(s, q) ==> p == q);
    holds
  }

  /** The counter and the opens add up. */
  predicate CountHolds(s: Sys) {
    var holds :=
      if s.live.None? then s.shares == multiset{}
      else if s.live.value.ready then s.live.value.count + |s.shares| == BIGCOUNT && s.live.value.count >= 0
      else s.live.value.count == 0 && s.shares == multiset{};
    holds
  }

  /** What the kernel will undo for a process is what the process did and has not undone itself. */
  predicate UndoHolds(s: Sys, p: nat)
    requires p in s.procs
  {
    var holds :=
      var x := s.procs[p];
      && x.undo1 == s.shares[Share(p, ByCreate)] + s.shares[Share(p, ByOpen)]
      && x.undo2 == (if Critical(x.pc) then -1 else 0)
      && (s.live.None? ==> x.undo0 == 0);
    holds
  }

  /** No process that joined through sem_create has the set open. */
  ghost predicate NoCreators(s: Sys) {
    forall p :: s.shares[Share(p, ByCreate)] == 0
  }

  ghost predicate Ready(s: Sys, p: nat)
    requires p in s.procs
  {
    var ready :=
      var x := s.procs[p];
      match x.pc
      case Idle => true
      case GetCreate => x.call.Create?
      case Lock => x.call.Create? && x.id < s.nextId
      case ReadCount => x.call.Create?
      case SetValue => x.call.Create? && s.live.Some? && !s.live.value.ready
      case SetCount => x.call.Create? && s.live.Some? && !s.live.value.ready
      case EndCreate => x.call.Create? && s.live.Some? && s.live.value.ready
      case CloseLock =>
        && x.call.Close? && x.id == x.call.id && x.id < s.nextId
        && (IsLive(s, x.id) ==> Share(p, x.call.via) in s.shares)
      case CloseRead => x.call.Close? && s.live.Some? && s.live.value.ready
      case Remove => x.call.Close? && s.live.Some? && s.live.value.ready && NoCreators(s)
      case Unlock => x.call.Close? && s.live.Some? && s.live.value.ready
      case GetOpen => true
      case Join => x.id < s.nextId
      case Change => x.call.Op?;
    ready
  }

  ghost predicate Inv(s: Sys) {
    var holds :=
      && LockHolds(s) && CountHolds(s)
      && (forall p :: p in s.procs ==> UndoHolds(s, p) && Ready(s, p))
      && (forall h :: h in s.shares ==> h.p in s.procs)
      && (s.live.Some? ==> s.live.value.id < s.nextId);
    holds
  }

  /** A process in its critical section has its set, locked. */
  lemma SectionHasSet(s: Sys, p: nat)
    requires Inv(s) && p in s.procs && Critical(s.procs[p].pc)
    ensures IsLive(s, s.procs[p].id) && s.live.value.lock == 1
    ensures forall q :: InSection(s, q) ==> q == p
  {
    assert InSection(s, p);
  }

  /** The creator of a call that reads the counter of an initialised set with every open taken sees
      zero, and takes the set for a new one. */
  predicate SeesFull(s: Sys, p: nat)
    requires p in s.procs
  {
    s.procs[p].pc == ReadCount && s.live.Some? && s.live.value.ready && |s.shares| == BIGCOUNT
  }

  // ---------- the steps ----------

  /** A change that leaves everybody in or out of the critical section. */
  lemma LockKept(s: Sys, s': Sys)
    requires LockHolds(s) && s'.live.Some? && s.live.Some?
    requires s'.live.value.lock == s.live.value.lock && s'.live.value.id == s.live.value.id
    requires s'.procs.Keys == s.procs.Keys
    requires forall p :: p in s.procs && Critical(s.procs[p].pc) ==> s'.procs[p].id == s.procs[p].id
    requires forall p :: p in s.procs ==> Critical(s'.procs[p].pc) == Critical(s.procs[p].pc)
    ensures LockHolds(s')
  {
    forall p ensures InSection(s', p) == InSection(s, p) {
    }
    if s.live.value.lock == 1 {
      var p :| InSection(s, p);
      assert InSection(s', p);
    }
  }

  /** A step of `p` that changes only its own registers. */
  lemma MoveKeeps(s: Sys, p: nat, x: Process)
    requires Inv(s) && p in s.procs && Critical(x.pc) == Critical(s.procs[p].pc)
    requires Critical(x.pc) ==> x.id == s.procs[p].id
    requires x.undo0 == s.procs[p].undo0 && x.undo1 == s.procs[p].undo1 && x.undo2 == s.procs[p].undo2
    requires Ready(Put(s, p, x), p)
    ensures Inv(Put(s, p, x))
  {
    var s' := Put(s, p, x);
    if s.live.Some? { LockKept(s, s'); }
    forall q | q in s'.procs ensures UndoHolds(s', q) && Ready(s', q) {
      assert UndoHolds(s, q) && Ready(s, q);
    }
  }

  lemma GetCreateKeeps(s: Sys, p: nat)
    requires Inv(s) && p in s.procs && s.procs[p].pc == GetCreate
    ensures Step(s, p).Next? && Inv(Step(s, p).s)
  {
    hide LockHolds;
    var x := s.procs[p];
    assert Ready(s, p);
    if s.live.Some? {
      MoveKeeps(s, p, x.(id := s.live.value.id, pc := Lock));
    } else {
      MadeKeeps(s, p, x.(id := s.nextId, pc := Lock));
    }
  }

  lemma MadeKeeps(s: Sys, p: nat, y: Process)
    requires Inv(s) && s.live.None? && p in s.procs && s.procs[p].pc == GetCreate
    requires y == s.procs[p].(id := s.nextId, pc := Lock)
    ensures Inv(Put(s, p, y).(live := Some(Set(s.nextId, 0, 0, 0, false)), nextId := s.nextId + 1))
  {
    var s' := Put(s, p, y).(live := Some(Set(s.nextId, 0, 0, 0, false)), nextId := s.nextId + 1);
    forall q ensures !InSection(s', q) {
    }
    forall q | q in s'.procs ensures UndoHolds(s', q) && Ready(s', q) {
      assert UndoHolds(s, q) && Ready(s, q);
    }
  }

  /** A step of `p` that leaves the identity of the live set, and every other process's shares. */
  lemma OneKeeps(s: Sys, s': Sys, p: nat)
    requires Inv(s) && p in s.procs && p in s'.procs && s'.procs == s.procs[p := s'.procs[p]] && s'.nextId == s.nextId
    requires s.live.Some? && s'.live.Some? && s'.live.value.id == s.live.value.id && s'.live.value.ready == s.live.value.ready
    requires LockHolds(s') && CountHolds(s') && UndoHolds(s', p) && Ready(s', p)
    requires forall h: Share :: h.p != p ==> s'.shares[h] == s.shares[h]
    requires NoCreators(s) ==> NoCreators(s') || Critical(s.procs[p].pc)
    ensures Inv(s')
  {
    hide LockHolds, CountHolds, Ready;
    forall q | q in s'.procs ensures UndoHolds(s', q) && Ready(s', q) {
      assert UndoHolds(s, q) && Ready(s, q);
      if Critical(s.procs[p].pc) { OnlyOne(s, p); }
      if q != p { OtherStaysReady(s, s', p, q); }
    }
  }

  lemma OtherStaysReady(s: Sys, s': Sys, p: nat, q: nat)
    requires q != p && q in s.procs && q in s'.procs && s'.procs[q] == s.procs[q] && s'.nextId == s.nextId
    requires s.live.Some? && s'.live.Some? && s'.live.value.id == s.live.value.id && s'.live.value.ready == s.live.value.ready
    requires forall h: Share :: h.p != p ==> s'.shares[h] == s.shares[h]
    requires NoCreators(s) ==> NoCreators(s') || !Critical(s.procs[q].pc)
    requires Ready(s, q)
    ensures Ready(s', q)
  {
  }

  lemma TakesLock(s: Sys, s': Sys, p: nat)
    requires LockHolds(s) && s.live.Some? && s.live.value.lock == 0 && s'.live.Some? && s'.live.value.lock == 1
    requires p in s.procs && p in s'.procs && s'.procs == s.procs[p := s'.procs[p]] && Critical(s'.procs[p].pc)
    requires s'.live.value.id == s.live.value.id == s'.procs[p].id
    ensures LockHolds(s')
  {
    assert InSection(s', p);
    forall q | q != p ensures InSection(s', q) == InSection(s, q) {
    }
  }

  lemma DropsLock(s: Sys, s': Sys, p: nat)
    requires LockHolds(s) && s.live.Some? && InSection(s, p) && s'.live.Some? && s'.live.value.lock == 0
    requires s'.procs == s.procs - {p} || (p in s'.procs && s'.procs == s.procs[p := s'.procs[p]] && !Critical(s'.procs[p].pc))
    ensures LockHolds(s')
  {
    forall q ensures !InSection(s', q) {
      assert q != p ==> InSection(s', q) == InSection(s, q);
    }
  }

  function Taken(s: Sys, p: nat): Sys
    requires p in s.procs && s.live.Some?
  {
    var x := s.procs[p];
    Put(s, p, x.(pc := ReadCount, undo2 := x.undo2 - 1)).(live := Some(s.live.value.(lock := 1)))
  }

  lemma LockShape(s: Sys, p: nat)
    requires p in s.procs && s.procs[p].pc == Lock && s.procs[p].call.Create?
    ensures Step(s, p) == if !IsLive(s, s.procs[p].id) then Next(Put(s, p, s.procs[p].(pc := GetCreate)))
                          else if s.live.value.lock != 0 then Wait else Next(Taken(s, p))
  {
  }

  lemma LockKeeps(s: Sys, p: nat)
    requires Inv(s) && p in s.procs && s.procs[p].pc == Lock
    ensures Step(s, p) != Lost && Step(s, p) != Dump
    ensures Step(s, p).Next? ==> Inv(Step(s, p).s)
  {
    hide LockHolds, Step;
    assert Ready(s, p) && UndoHolds(s, p);
    LockShape(s, p);
    if !IsLive(s, s.procs[p].id) {
      MoveKeeps(s, p, s.procs[p].(pc := GetCreate));
    } else if s.live.value.lock == 0 {
      TakesLock(s, Taken(s, p), p);
      OneKeeps(s, Taken(s, p), p);
    }
  }

  lemma ReadCountKeeps(s: Sys, p: nat)
    requires Inv(s) && p in s.procs && s.procs[p].pc == ReadCount && !SeesFull(s, p)
    ensures Step(s, p).Next? && Inv(Step(s, p).s)
  {
    hide LockHolds;
    assert Ready(s, p);
    SectionHasSet(s, p);
    MoveKeeps(s, p, s.procs[p].(pc := if s.live.value.count == 0 then SetValue else EndCreate));
  }

  function Valued(s: Sys, p: nat): Sys
    requires p in s.procs && s.live.Some? && s.procs[p].call.Create?
  {
    var x := s.procs[p];
    s.(procs := ClearUndo0(s.procs)[p := x.(pc := SetCount, undo0 := 0)],
       live := Some(s.live.value.(value := x.call.initval)))
  }

  lemma SetValueShape(s: Sys, p: nat)
    requires p in s.procs && s.procs[p].pc == SetValue && s.procs[p].call.Create? && IsLive(s, s.procs[p].id)
    ensures Step(s, p) == Next(Valued(s, p))
  {
  }

  /** A step of `p` that also clears adjustments of others, when nobody has the set open. */
  lemma ClearKeeps(s: Sys, s': Sys, p: nat)
    requires Inv(s) && p in s.procs && s.live.Some? && s'.live.Some? && s'.nextId == s.nextId
    requires s.shares == s'.shares == multiset{} && s'.procs.Keys == s.procs.Keys
    requires Critical(s.procs[p].pc) && Critical(s'.procs[p].pc) && s'.procs[p].id == s.procs[p].id
    requires s'.live.value.lock == s.live.value.lock && s'.live.value.id == s.live.value.id
    requires forall q :: q in s.procs ==> s'.procs[q].undo1 == s.procs[q].undo1 && s'.procs[q].undo2 == s.procs[q].undo2
    requires forall q :: q in s.procs && q != p ==> s'.procs[q] == s.procs[q].(undo0 := s'.procs[q].undo0)
    requires CountHolds(s') && Ready(s', p)
    ensures Inv(s')
  {
    hide LockHolds, CountHolds;
    OnlyOne(s, p);
    LockKept(s, s');
    forall q | q in s'.procs ensures UndoHolds(s', q) && Ready(s', q) {
      assert UndoHolds(s, q) && Ready(s, q);
    }
  }

  lemma SetValueKeeps(s: Sys, p: nat)
    requires Inv(s) && p in s.procs && s.procs[p].pc == SetValue
    ensures Step(s, p).Next? && Inv(Step(s, p).s)
  {
    hide LockHolds, Step;
    assert Ready(s, p);
    SectionHasSet(s, p);
    SetValueShape(s, p);
    ClearKeeps(s, Valued(s, p), p);
  }

  lemma NobodyOpen(s: Sys)
    requires Inv(s) && s.shares == multiset{}
    ensures forall q :: q in s.procs ==> s.procs[q].undo1 == 0
  {
    hide LockHolds;
    forall q | q in s.procs ensures s.procs[q].undo1 == 0 {
      assert UndoHolds(s, q);
    }
  }

  function Initialised(s: Sys, p: nat): Sys
    requires p in s.procs && s.live.Some?
  {
    s.(procs := ClearUndo1(s.procs)[p := s.procs[p].(pc := EndCreate, undo1 := 0)],
       live := Some(s.live.value.(count := BIGCOUNT, ready := true)))
  }

  lemma SetCountShape(s: Sys, p: nat)
    requires p in s.procs && s.procs[p].pc == SetCount && s.procs[p].call.Create? && IsLive(s, s.procs[p].id)
    ensures Step(s, p) == Next(Initialised(s, p))
  {
  }

  /** The counter of a new set is initialised while nobody has it open, so clearing the adjustments of
      that member forgets nothing. */
  lemma SetCountKeeps(s: Sys, p: nat)
    requires Inv(s) && p in s.procs && s.procs[p].pc == SetCount
    ensures Step(s, p).Next? && Inv(Step(s, p).s)
  {
    hide LockHolds, Step;
    assert Ready(s, p);
    SectionHasSet(s, p);
    SetCountShape(s, p);
    NobodyOpen(s);
    ClearKeeps(s, Initialised(s, p), p);
  }

  lemma EndCreateKeeps(s: Sys, p: nat)
    requires Inv(s) && p in s.procs && s.procs[p].pc == EndCreate
    ensures Step(s, p) != Lost && Step(s, p) != Dump
    ensures Step(s, p).Next? ==> Inv(Step(s, p).s)
  {
    hide LockHolds;
    assert Ready(s, p) && UndoHolds(s, p);
    SectionHasSet(s, p);
    if s.live.value.count >= 1 {
      DropsLock(s, Step(s, p).s, p);
      OneKeeps(s, Step(s, p).s, p);
    }
  }

  /** Nobody else is where only the holder of the lock can be. */
  lemma OnlyOne(s: Sys, p: nat)
    requires Inv(s) && p in s.procs && Critical(s.procs[p].pc)
    ensures forall q :: q in s.procs && q != p ==> !Critical(s.procs[q].pc)
  {
    SectionHasSet(s, p);
    forall q | q in s.procs ensures Critical(s.procs[q].pc) == InSection(s, q) {
    }
  }

  lemma OpenKeeps(s: Sys, p: nat)
    requires Inv(s) && p in s.procs && s.procs[p].pc == GetOpen
    ensures Step(s, p).Next? && Inv(Step(s, p).s)
  {
    hide LockHolds;
    var x := s.procs[p];
    MoveKeeps(s, p, if s.live.None? then x.(pc := Idle) else x.(id := s.live.value.id, pc := Join));
  }

  function Joined(s: Sys, p: nat): Sys
    requires p in s.procs && s.live.Some?
  {
    Put(s, p, s.procs[p].(pc := Idle, undo1 := s.procs[p].undo1 + 1))
      .(live := Some(s.live.value.(count := s.live.value.count - 1)), shares := s.shares + multiset{Share(p, ByOpen)})
  }

  lemma JoinShape(s: Sys, p: nat)
    requires p in s.procs && s.procs[p].pc == Join
    ensures Step(s, p) == if !IsLive(s, s.procs[p].id) then Next(Die(s, p))
                          else if s.live.value.count < 1 then Wait else Next(Joined(s, p))
  {
  }

  lemma JoinKeeps(s: Sys, p: nat)
    requires Inv(s) && p in s.procs && s.procs[p].pc == Join
    ensures Step(s, p) != Lost && Step(s, p) != Dump
    ensures Step(s, p).Next? ==> Inv(Step(s, p).s)
  {
    hide LockHolds, Step;
    assert Ready(s, p) && UndoHolds(s, p);
    JoinShape(s, p);
    if !IsLive(s, s.procs[p].id) {
      DieKeeps(s, p);
    } else if s.live.value.count >= 1 {
      LockKept(s, Joined(s, p));
      OneKeeps(s, Joined(s, p), p);
    }
  }

  function Locked(s: Sys, p: nat): Sys
    requires p in s.procs && s.procs[p].call.Close? && s.live.Some?
  {
    var x := s.procs[p];
    Put(s, p, x.(pc := CloseRead, undo1 := x.undo1 - 1, undo2 := x.undo2 - 1))
      .(live := Some(s.live.value.(lock := 1, count := s.live.value.count + 1)),
        shares := s.shares - multiset{Share(p, x.call.via)})
  }

  lemma LockedShares(s: Sys, p: nat)
    requires Inv(s) && p in s.procs && s.procs[p].pc == CloseLock && s.live.Some? && IsLive(s, s.procs[p].id)
    ensures s.procs[p].call.Close? && CountHolds(Locked(s, p)) && UndoHolds(Locked(s, p), p) && Ready(Locked(s, p), p)
  {
    hide LockHolds;
    assert Ready(s, p) && UndoHolds(s, p);
    match s.procs[p].call.via {
      case ByCreate =>
      case ByOpen =>
    }
  }

  lemma CloseLockShape(s: Sys, p: nat)
    requires p in s.procs && s.procs[p].pc == CloseLock && s.procs[p].call.Close?
    ensures Step(s, p) == if !IsLive(s, s.procs[p].id) then Next(Die(s, p))
                          else if s.live.value.lock != 0 then Wait else Next(Locked(s, p))
  {
  }

  lemma CloseLockKeeps(s: Sys, p: nat)
    requires Inv(s) && p in s.procs && s.procs[p].pc == CloseLock
    ensures Step(s, p) != Lost && Step(s, p) != Dump
    ensures Step(s, p).Next? ==> Inv(Step(s, p).s)
  {
    hide LockHolds, CountHolds, UndoHolds, Step;
    assert Ready(s, p);
    CloseLockShape(s, p);
    if !IsLive(s, s.procs[p].id) {
      DieKeeps(s, p);
    } else if s.live.value.lock == 0 {
      LockedShares(s, p);
      TakesLock(s, Locked(s, p), p);
      OneKeeps(s, Locked(s, p), p);
    }
  }

  lemma CloseReadKeeps(s: Sys, p: nat)
    requires Inv(s) && p in s.procs && s.procs[p].pc == CloseRead
    ensures Step(s, p).Next? && Inv(Step(s, p).s)
  {
    hide LockHolds;
    assert Ready(s, p);
    SectionHasSet(s, p);
    MoveKeeps(s, p, s.procs[p].(pc := if s.live.value.count == BIGCOUNT then Remove else Unlock));
  }

  lemma RemoveKeeps(s: Sys, p: nat)
    requires Inv(s) && p in s.procs && s.procs[p].pc == Remove
    ensures Step(s, p).Next? && Inv(Step(s, p).s)
  {
    var s' := Step(s, p).s;
    SectionHasSet(s, p);
    OnlyOne(s, p);
    forall q | q in s'.procs ensures UndoHolds(s', q) && Ready(s', q) {
      assert UndoHolds(s, q) && Ready(s, q);
    }
  }

  lemma UnlockKeeps(s: Sys, p: nat)
    requires Inv(s) && p in s.procs && s.procs[p].pc == Unlock
    ensures Step(s, p).Next? && Inv(Step(s, p).s)
  {
    hide LockHolds;
    assert Ready(s, p) && UndoHolds(s, p);
    SectionHasSet(s, p);
    DropsLock(s, Step(s, p).s, p);
    OneKeeps(s, Step(s, p).s, p);
  }

  lemma ChangeKeeps(s: Sys, p: nat)
    requires Inv(s) && p in s.procs && s.procs[p].pc == Change
    ensures Step(s, p) != Lost && Step(s, p) != Dump
    ensures Step(s, p).Next? ==> Inv(Step(s, p).s)
  {
    hide LockHolds;
    var x := s.procs[p];
    assert Ready(s, p) && UndoHolds(s, p);
    if x.call.amount == 0 || !IsLive(s, x.id) {
      DieKeeps(s, p);
    } else if s.live.value.value + x.call.amount >= 0 {
      LockKept(s, Step(s, p).s);
      OneKeeps(s, Step(s, p).s, p);
    }
  }

  // ---------- crashes ----------

  lemma SharesLeft(shares: multiset<Share>, p: nat)
    ensures var left := shares[Share(p, ByCreate) := 0][Share(p, ByOpen) := 0];
      && |left| == |shares| - shares[Share(p, ByCreate)] - shares[Share(p, ByOpen)]
      && (forall h: Share :: left[h] == if h.p == p then 0 else shares[h])
  {
    var a, b := Share(p, ByCreate), Share(p, ByOpen);
    assert |shares[a := 0]| == |shares| - shares[a];
    assert shares[a := 0][b] == shares[b];
    forall h: Share ensures shares[a := 0][b := 0][h] == if h.p == p then 0 else shares[h] {
      match h.via {
        case ByCreate =>
        case ByOpen =>
      }
    }
  }

  lemma DieLock(s: Sys, p: nat)
    requires Inv(s) && p in s.procs
    ensures LockHolds(Die(s, p))
  {
    var s' := Die(s, p);
    assert UndoHolds(s, p);
    if s.live.Some? {
      if Critical(s.procs[p].pc) {
        SectionHasSet(s, p);
        DropsLock(s, s', p);
      } else {
        forall q ensures InSection(s', q) == InSection(s, q) {
        }
        if s.live.value.lock == 1 {
          var q :| InSection(s, q);
          assert InSection(s', q);
        }
      }
    }
  }

  /** A process may be killed anywhere: the kernel gives up its lock and its opens. */
  lemma DieKeeps(s: Sys, p: nat)
    requires Inv(s) && p in s.procs
    ensures Inv(Die(s, p))
  {
    hide LockHolds;
    var s' := Die(s, p);
    DieLock(s, p);
    assert UndoHolds(s, p) && Ready(s, p);
    SharesLeft(s.shares, p);
    forall q | q in s'.procs ensures UndoHolds(s', q) && Ready(s', q) {
      assert UndoHolds(s, q) && Ready(s, q);
      DieOthers(s, p, q);
    }
  }

  lemma DieOthers(s: Sys, p: nat, q: nat)
    requires p in s.procs && q in s.procs && q != p && UndoHolds(s, q) && Ready(s, q)
    ensures UndoHolds(Die(s, p), q) && Ready(Die(s, p), q)
  {
    SharesLeft(s.shares, p);
  }

  // ---------- one move ----------

  /** What happens next: a process appears, starts a call, takes its next step, or is killed. */
  datatype Move = Appear(p: nat) | Start(p: nat, call: Call) | Run(p: nat) | Crash(p: nat)

  predicate Moves(s: Sys, m: Move, s': Sys) {
    match m
    case Appear(p) => p !in s.procs && s' == Spawn(s, p)
    case Start(p, call) => MayCall(s, p, call) && s' == Begin(s, p, call)
    case Run(p) => p in s.procs && s.procs[p].pc != Idle && Step(s, p) == Next(s')
    case Crash(p) => p in s.procs && s' == Die(s, p)
  }

  lemma BeginKeeps(s: Sys, p: nat, call: Call)
    requires Inv(s) && MayCall(s, p, call)
    ensures Inv(Begin(s, p, call))
  {
    hide LockHolds;
    assert UndoHolds(s, p);
    MoveKeeps(s, p, Begin(s, p, call).procs[p]);
  }

  lemma SpawnKeeps(s: Sys, p: nat)
    requires Inv(s) && p !in s.procs
    ensures Inv(Spawn(s, p))
  {
    var s' := Spawn(s, p);
    forall q ensures InSection(s', q) == InSection(s, q) {
    }
    if s.live.Some? && s.live.value.lock == 1 {
      var q :| InSection(s, q);
      assert InSection(s', q);
    }
    assert Share(p, ByCreate) !in s.shares && Share(p, ByOpen) !in s.shares;
    forall q | q in s'.procs ensures UndoHolds(s', q) && Ready(s', q) {
      if q != p { assert UndoHolds(s, q) && Ready(s, q); }
    }
  }

  /** No system call of a process in its critical section finds the set gone, and no closer finds the
      counter above its maximum. */
  lemma StepKeeps(s: Sys, p: nat)
    requires Inv(s) && p in s.procs && s.procs[p].pc != Idle && !SeesFull(s, p)
    ensures Step(s, p) != Lost && Step(s, p) != Dump
    ensures Step(s, p).Next? ==> Inv(Step(s, p).s)
  {
    hide Inv, Step;
    match s.procs[p].pc {
      case GetCreate => GetCreateKeeps(s, p);
      case Lock => LockKeeps(s, p);
      case ReadCount => ReadCountKeeps(s, p);
      case SetValue => SetValueKeeps(s, p);
      case SetCount => SetCountKeeps(s, p);
      case EndCreate => EndCreateKeeps(s, p);
      case CloseLock => CloseLockKeeps(s, p);
      case CloseRead => CloseReadKeeps(s, p);
      case Remove => RemoveKeeps(s, p);
      case Unlock => UnlockKeeps(s, p);
      case Change => ChangeKeeps(s, p);
      case GetOpen => OpenKeeps(s, p);
      case Join => JoinKeeps(s, p);
    }
  }

  lemma MovesKeep(s: Sys, m: Move, s': Sys)
    requires Inv(s) && Moves(s, m, s') && (m.Run? ==> !SeesFull(s, m.p))
    ensures Inv(s')
  {
    hide Inv, Step, SeesFull;
    match m
    case Appear(p) => SpawnKeeps(s, p);
    case Start(p, call) => BeginKeeps(s, p, call);
    case Run(p) => StepKeeps(s, p);
    case Crash(p) => DieKeeps(s, p);
  }

  ghost predicate IsRun(states: seq<Sys>, moves: seq<Move>) {
    && |states| == |moves| + 1 && states[0] == Initial()
    && forall i :: 0 <= i < |moves| ==> Moves(states[i], moves[i], states[i + 1])
  }

  /** No creator of the run reads the counter while every open is taken. */
  ghost predicate NeverFull(states: seq<Sys>, moves: seq<Move>)
    requires |states| == |moves| + 1
  {
    forall i :: 0 <= i < |moves| && moves[i].Run? && moves[i].p in states[i].procs ==> !SeesFull(states[i], moves[i].p)
  }

  lemma {:induction false} RunKeeps(states: seq<Sys>, moves: seq<Move>, i: nat)
    requires IsRun(states, moves) && NeverFull(states, moves) && i < |states|
    ensures Inv(states[i])
  {
    hide Inv, Moves, SeesFull;
    if i == 0 {
      InitialInv();
    } else {
      RunKeeps(states, moves, i - 1);
      assert Moves(states[i - 1], moves[i - 1], states[i]);
      RunsIn(states[i - 1], moves[i - 1], states[i]);
      MovesKeep(states[i - 1], moves[i - 1], states[i]);
    }
  }

  lemma RunsIn(s: Sys, m: Move, s': Sys)
    requires Moves(s, m, s')
    ensures m.Run? ==> m.p in s.procs
  {
  }

  lemma InitialInv()
    ensures Inv(Initial())
  {
  }

  // ---------- what the counter and the lock promise ----------

  /** Mutual exclusion: the lock of the live set is 1 exactly when some live process is in its critical
      section, that process works on this set, and there is only one. */
  lemma LockMeansOne(s: Sys)
    requires Inv(s) && s.live.Some?
    ensures s.live.value.lock == 1 <==> exists p :: InSection(s, p)
    ensures s.live.value.lock == 0 || s.live.value.lock == 1
    ensures forall p, q :: InSection(s, p) && InSection(s, q) ==> p == q
    ensures forall p :: InSection(s, p) ==> s.procs[p].id == s.live.value.id
  {
  }

  /** In an initialised set the counter and the opens add up to BIGCOUNT; a set that is not initialised
      has counter 0 and nobody has it open. */
  lemma CounterAddsUp(s: Sys)
    requires Inv(s) && s.live.Some?
    ensures s.live.value.ready ==> s.live.value.count + |s.shares| == BIGCOUNT && s.live.value.count <= BIGCOUNT
    ensures !s.live.value.ready ==> s.live.value.count == 0 && s.shares == multiset{}
  {
    hide LockHolds;
  }

  /** A close never removes a set that a process joined through sem_create still has open. */
  lemma RemovalIsSafe(s: Sys, p: nat)
    requires Inv(s) && p in s.procs && s.procs[p].pc == Remove
    ensures Step(s, p).Next? && s.live.Some? && Step(s, p).s.live.None?
    ensures forall q :: Share(q, ByCreate) !in s.shares
  {
    hide LockHolds;
    SectionHasSet(s, p);
    assert Ready(s, p);
  }

  /** The creator that reads the counter initialises the set exactly when that is still to be done:
      [0] of an initialised set is never set again, and what a killed creator left half done is done
      again. */
  lemma InitialisesOnce(s: Sys, p: nat)
    requires Inv(s) && p in s.procs && s.procs[p].pc == ReadCount && !SeesFull(s, p)
    ensures Step(s, p).Next? && s.live.Some?
    ensures Step(s, p).s.procs[p].pc == SetValue <==> !s.live.value.ready
  {
    hide LockHolds;
    SectionHasSet(s, p);
    assert Ready(s, p);
  }

  /** A creator killed in the middle of initialising leaves the lock free and the set as good as new. */
  lemma CrashUndoes(s: Sys, p: nat)
    requires Inv(s) && p in s.procs && Critical(s.procs[p].pc)
    ensures Die(s, p).live.Some? && Die(s, p).live.value.lock == 0
    ensures Die(s, p).live.value.ready == s.live.value.ready
    ensures !s.live.value.ready ==> Die(s, p).live.value.count == 0
    ensures forall q :: !InSection(Die(s, p), q)
  {
    SectionHasSet(s, p);
    OnlyOne(s, p);
    DieKeeps(s, p);
    assert UndoHolds(s, p);
  }

  // ---------- the limit ----------

  /** The step that reads the counter keeps the invariant if and only if it does not meet an
      initialised set with all BIGCOUNT opens taken. */
  lemma ReadKeepsUnlessFull(s: Sys, p: nat)
    requires Inv(s) && p in s.procs && s.procs[p].pc == ReadCount
    ensures Step(s, p).Next? && (Inv(Step(s, p).s) <==> !SeesFull(s, p))
  {
    hide LockHolds;
    SectionHasSet(s, p);
    assert Ready(s, p);
    if SeesFull(s, p) {
      assert !Ready(Step(s, p).s, p);
    } else {
      ReadCountKeeps(s, p);
    }
  }

  /** From there the creator gives the set a counter that no longer matches its opens. */
  lemma FullGoesWrong(s: Sys, p: nat)
    requires Inv(s) && p in s.procs && SeesFull(s, p)
    ensures Step(s, p).Next?
    ensures var s1 := Step(s, p).s;
      && p in s1.procs && s1.procs[p].pc != Idle && Step(s1, p).Next?
      && var s2 := Step(s1, p).s;
         && p in s2.procs && s2.procs[p].pc != Idle && Step(s2, p).Next?
         && var s3 := Step(s2, p).s;
            && s3.live.Some? && s3.live.value.ready && s3.live.value.count + |s3.shares| == 2 * BIGCOUNT
  {
    hide LockHolds;
    SectionHasSet(s, p);
    assert Ready(s, p);
  }

  /** The state after process 0 created the set and opened it `n` times more. */
  function Opened(n: nat): Sys {
    Sys(Some(Set(0, 1, BIGCOUNT - 1 - n, 0, true)), 1,
        map[0 := Process(if n == 0 then Create(1) else Open, Idle, 0, 0, n + 1, 0)],
        multiset{Share(0, ByCreate)}[Share(0, ByOpen) := n])
  }

  lemma Extend(states: seq<Sys>, moves: seq<Move>, m: Move, s: Sys) returns (states': seq<Sys>, moves': seq<Move>)
    requires IsRun(states, moves) && Moves(states[|moves|], m, s)
    ensures IsRun(states', moves') && states'[|moves'|] == s && |moves'| == |moves| + 1
  {
    hide Moves;
    states', moves' := states + [s], moves + [m];
    forall i | 0 <= i < |moves'| ensures Moves(states'[i], moves'[i], states'[i + 1]) {
      assert i < |moves| ==> states'[i] == states[i] && states'[i + 1] == states[i + 1] && moves'[i] == moves[i];
    }
  }

  lemma FirstRun() returns (states: seq<Sys>, moves: seq<Move>)
    ensures IsRun(states, moves) && states[|moves|] == Opened(0)
  {
    var x := Process(Create(1), GetCreate, 0, 0, 0, 0);
    states, moves := [Initial()], [];
    states, moves := Extend(states, moves, Appear(0), Spawn(Initial(), 0));
    states, moves := Extend(states, moves, Start(0, Create(1)), Sys(None, 0, map[0 := x], multiset{}));
    states, moves := Extend(states, moves, Run(0),
      Sys(Some(Set(0, 0, 0, 0, false)), 1, map[0 := x.(pc := Lock)], multiset{}));
    states, moves := Extend(states, moves, Run(0),
      Sys(Some(Set(0, 0, 0, 1, false)), 1, map[0 := x.(pc := ReadCount, undo2 := -1)], multiset{}));
    states, moves := Extend(states, moves, Run(0),
      Sys(Some(Set(0, 0, 0, 1, false)), 1, map[0 := x.(pc := SetValue, undo2 := -1)], multiset{}));
    states, moves := Extend(states, moves, Run(0),
      Sys(Some(Set(0, 1, 0, 1, false)), 1, map[0 := x.(pc := SetCount, undo2 := -1)], multiset{}));
    states, moves := Extend(states, moves, Run(0),
      Sys(Some(Set(0, 1, BIGCOUNT, 1, true)), 1, map[0 := x.(pc := EndCreate, undo2 := -1)], multiset{}));
    states, moves := Extend(states, moves, Run(0), Opened(0));
  }

  lemma {:induction false} OpenedRun(n: nat) returns (states: seq<Sys>, moves: seq<Move>)
    requires n < BIGCOUNT
    ensures IsRun(states, moves) && states[|moves|] == Opened(n)
  {
    if n == 0 {
      states, moves := FirstRun();
    } else {
      states, moves := OpenedRun(n - 1);
      states, moves := OpenOnce(states, moves, n);
    }
  }

  /** The same state in the middle of one more sem_open. */
  function Opening(n: nat, pc: Pc): Sys {
    var s := Opened(n);
    Put(s, 0, s.procs[0].(call := Open, pc := pc))
  }

  lemma OpenBegins(n: nat)
    ensures Moves(Opened(n), Start(0, Open), Opening(n, GetOpen))
    ensures Moves(Opening(n, GetOpen), Run(0), Opening(n, Join))
  {
  }

  lemma OpenEnds(n: nat)
    requires n + 1 < BIGCOUNT
    ensures Moves(Opening(n, Join), Run(0), Opened(n + 1))
  {
    hide Step, Joined, Die;
    JoinShape(Opening(n, Join), 0);
    OneMoreOpened(n);
  }

  lemma OneMoreOpened(n: nat)
    requires n + 1 < BIGCOUNT
    ensures Joined(Opening(n, Join), 0) == Opened(n + 1)
  {
    var s := Opening(n, Join);
    assert s.shares + multiset{Share(0, ByOpen)} == Opened(n + 1).shares;
    assert Joined(s, 0).procs == Opened(n + 1).procs;
  }

  lemma OpenOnce(states: seq<Sys>, moves: seq<Move>, n: nat) returns (states': seq<Sys>, moves': seq<Move>)
    requires 0 < n < BIGCOUNT && IsRun(states, moves) && states[|moves|] == Opened(n - 1)
    ensures IsRun(states', moves') && states'[|moves'|] == Opened(n)
  {
    hide IsRun, Moves, Opened, Opening;
    OpenBegins(n - 1);
    OpenEnds(n - 1);
    states', moves' := Extend(states, moves, Start(0, Open), Opening(n - 1, GetOpen));
    states', moves' := Extend(states', moves', Run(0), Opening(n - 1, Join));
    states', moves' := Extend(states', moves', Run(0), Opened(n));
  }

  /** A run on which the invariant does fail: one process opens the set as often as the counter allows,
      and another calls sem_create. */
  lemma FullIsReachable() returns (states: seq<Sys>, moves: seq<Move>)
    ensures IsRun(states, moves) && 1 in states[|moves|].procs && SeesFull(states[|moves|], 1)
  {
    hide IsRun, Opened;
    states, moves := OpenedRun(BIGCOUNT - 1);
    states, moves := CreateOnFull(states, moves);
  }

  lemma CreateOnFull(states: seq<Sys>, moves: seq<Move>) returns (states': seq<Sys>, moves': seq<Move>)
    requires IsRun(states, moves) && states[|moves|] == Opened(BIGCOUNT - 1)
    ensures IsRun(states', moves') && 1 in states'[|moves'|].procs && SeesFull(states'[|moves'|], 1)
  {
    hide IsRun;
    var s := Opened(BIGCOUNT - 1);
    var x := Process(Create(1), GetCreate, 0, 0, 0, 0);
    states', moves' := Extend(states, moves, Appear(1), Spawn(s, 1));
    states', moves' := Extend(states', moves', Start(1, Create(1)), Put(s, 1, x));
    states', moves' := Extend(states', moves', Run(1), Put(s, 1, x.(pc := Lock)));
    states', moves' := Extend(states', moves', Run(1), Taken(Put(s, 1, x.(pc := Lock)), 1));
    assert |s.shares| == BIGCOUNT;
  }
}
