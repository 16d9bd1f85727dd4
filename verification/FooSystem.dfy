/** The two versions of the reference-counted hash table as programs of many threads. Every lock,
    unlock, read and write of shared memory is one step. The versions share their allocation, their
    search and the unlinking of an object; they differ in the locks around a count. */
module FooSystem {
  import opened Options
  import opened FooTable

  /** `DropAndRecheck`: a lock in each object for its count; the last release drops that lock, takes
      the table lock and checks again. `OneLock`: the table lock protects the counts too. */
  datatype Design = DropAndRecheck | OneLock

  /** What a thread does next. */
  datatype Pc =
    | AllocNew | AllocLock | AllocLink | AllocHead | AllocLockObj | AllocUnlock | AllocUnlockObj
    | FindLock | FindHead | FindTest | FindNext | FindUnlock
    | HoldLockObj | HoldLock | HoldRead | HoldWrite | HoldUnlockObj | HoldUnlock
    | ReleLockObj | ReleRead | ReleDrop | ReleLock | ReleRelock | ReleRecheck
    | DecRead | DecWrite | DecUnlockObj | DecUnlock
    | CutHead | CutScan | CutNext | CutWrite | CutUnlock | CutUnlockObj | Destroy | Free

  /** A call in progress. `fp` is the object, `prev` the object before it on the chain (0 for the
      table entry), `val` a count and `nxt` a pointer that were read, `both` that a release came to
      hold both locks. `k` (the position on the chain), `done` and `at` (that and where in the log
      the call took effect) and `res` (the pointer it returns) are history. */
  datatype Local = Local(op: Op, pc: Pc, fp: nat, prev: nat, val: int, nxt: nat, both: bool,
                         k: nat, done: bool, at: nat, res: nat)

  /** An object; `ready` says that its mutex is initialised, `lock` which thread has it. */
  datatype Obj = Obj(count: int, lock: Option<nat>, ready: bool, id: int, next: nat)

  /** `tbl` and `log` are the table and its calls so far, `hand` the thread that has an object no
      other thread can reach: history. */
  datatype Sys = Sys(design: Design, heads: seq<nat>, objs: map<nat, Obj>, hashlock: Option<nat>,
                     threads: map<nat, Local>, tbl: Table, log: seq<Event>, hand: map<nat, nat>)

  /** A step may have to wait for a lock; touching freed memory, misusing a mutex or following a null
      pointer is a fault. */
  datatype Outcome = Next(s: Sys) | Wait | Fault

  // ---------- the parts of a step ----------

  function Put(s: Sys, t: nat, x: Local): Sys {
    s.(threads := s.threads[t := x])
  }

  function Return(s: Sys, t: nat): Sys {
    s.(threads := s.threads - {t})
  }

  function Go(s: Sys, t: nat, x: Local, pc: Pc): Sys {
    Put(s, t, x.(pc := pc))
  }

  function LockHash(s: Sys, t: nat, x: Local, pc: Pc): Outcome {
    if s.hashlock.Some? then Wait else Next(Go(s, t, x, pc).(hashlock := Some(t)))
  }

  function UnlockHash(s: Sys, t: nat, x: Local, pc: Pc): Outcome {
    if s.hashlock != Some(t) then Fault else Next(Go(s, t, x, pc).(hashlock := None))
  }

  function LockObj(s: Sys, t: nat, x: Local, pc: Pc): Outcome {
    if x.fp !in s.objs || !s.objs[x.fp].ready then Fault
    else if s.objs[x.fp].lock.Some? then Wait
    else Next(Go(s, t, x, pc).(objs := s.objs[x.fp := s.objs[x.fp].(lock := Some(t))]))
  }

  function UnlockObj(s: Sys, t: nat, x: Local, pc: Pc): Outcome {
    if x.fp !in s.objs || !s.objs[x.fp].ready || s.objs[x.fp].lock != Some(t) then Fault
    else Next(Go(s, t, x, pc).(objs := s.objs[x.fp := s.objs[x.fp].(lock := None)]))
  }

  /** A call takes effect, returning `res`. */
  function Effect(s: Sys, t: nat, x: Local, pc: Pc, res: nat): Sys {
    var e := Event(t, x.op, res);
    var applied := Apply(s.tbl, e);
    Put(s, t, x.(pc := pc, done := true, at := |s.log|, res := res))
      .(log := s.log + [e], tbl := if applied.Some? then applied.value else s.tbl)
  }

  /** The steps that end a call return this state instead of going on. */
  function Leave(o: Outcome, t: nat): Outcome {
    if o.Next? then Next(Return(o.s, t)) else o
  }

  // ---------- foo_alloc ----------

  /** `ptr` is what malloc returns: 0 when it, or the initialisation of the mutex, fails. */
  function AllocStep(s: Sys, t: nat, x: Local, ptr: nat): Outcome
    requires |s.heads| == NHASH
  {
    if !x.op.Alloc? then Fault else
    var h := HashOf(x.op.id);
    match x.pc
    case AllocNew =>
      if ptr == 0 then Next(Return(Effect(s, t, x, AllocNew, 0), t))
      else if ptr in s.objs then Fault
      else Next(Go(s, t, x.(fp := ptr), AllocLock)
                  .(objs := s.objs[ptr := Obj(1, None, true, x.op.id, 0)], hand := s.hand[ptr := t]))
    case AllocLock => LockHash(s, t, x, AllocLink)
    case AllocLink =>
      if x.fp !in s.objs then Fault
      else Next(Go(s, t, x, AllocHead).(objs := s.objs[x.fp := s.objs[x.fp].(next := s.heads[h])]))
    case AllocHead =>
      Next(Effect(s, t, x, AllocLockObj, x.fp).(heads := s.heads[h := x.fp], hand := s.hand - {x.fp}))
    case AllocLockObj => LockObj(s, t, x, AllocUnlock)
    case AllocUnlock => UnlockHash(s, t, x, AllocUnlockObj)
    case AllocUnlockObj => Leave(UnlockObj(s, t, x, AllocUnlockObj), t)
    case _ => Fault
  }

  // ---------- foo_find ----------

  function FindStep(s: Sys, t: nat, x: Local): Outcome
    requires |s.heads| == NHASH
  {
    if !x.op.Find? then Fault else
    match x.pc
    case FindLock => LockHash(s, t, x, FindHead)
    case FindHead => Next(Go(s, t, x.(fp := s.heads[HashOf(x.op.id)], k := 0), FindTest))
    case FindTest =>
      if x.fp == 0 then Next(Effect(s, t, x, FindUnlock, 0))
      else if x.fp !in s.objs then Fault
      else if s.objs[x.fp].id != x.op.id then Next(Go(s, t, x, FindNext))
      else Next(Go(s, t, x, if s.design.OneLock? then HoldRead else HoldLockObj))
    case FindNext =>
      if x.fp !in s.objs then Fault
      else Next(Go(s, t, x.(fp := s.objs[x.fp].next, k := x.k + 1), FindTest))
    case FindUnlock => Leave(UnlockHash(s, t, x, FindUnlock), t)
    case _ => Fault
  }

  // ---------- foo_hold, and the same inside foo_find ----------

  function HoldStep(s: Sys, t: nat, x: Local): Outcome {
    match x.pc
    case HoldLockObj => LockObj(s, t, x, HoldRead)
    case HoldLock => LockHash(s, t, x, HoldRead)
    case HoldRead =>
      if x.fp !in s.objs then Fault else Next(Go(s, t, x.(val := s.objs[x.fp].count), HoldWrite))
    case HoldWrite =>
      if x.fp !in s.objs then Fault else
      var s1 := s.(objs := s.objs[x.fp := s.objs[x.fp].(count := x.val + 1)]);
      var res := if x.op.Find? then x.fp else 0;
      Next(Effect(s1, t, x, if s.design.DropAndRecheck? then HoldUnlockObj
                            else if x.op.Find? then FindUnlock else HoldUnlock, res))
    case HoldUnlockObj =>
      if x.op.Find? then UnlockObj(s, t, x, FindUnlock) else Leave(UnlockObj(s, t, x, HoldUnlockObj), t)
    case HoldUnlock => Leave(UnlockHash(s, t, x, HoldUnlock), t)
    case _ => Fault
  }

  // ---------- foo_rele ----------

  function ReleStep(s: Sys, t: nat, x: Local): Outcome {
    match x.pc
    case ReleLockObj => LockObj(s, t, x, ReleRead)
    case ReleRead =>
      if x.fp !in s.objs then Fault
      else Next(Go(s, t, x, if s.objs[x.fp].count == 1 then ReleDrop else DecRead))
    case ReleDrop => UnlockObj(s, t, x, ReleLock)
    case ReleLock => LockHash(s, t, x, if s.design.OneLock? then DecRead else ReleRelock)
    case ReleRelock => LockObj(s, t, x.(both := true), ReleRecheck)
    case ReleRecheck =>
      if x.fp !in s.objs then Fault
      else Next(Go(s, t, x, if s.objs[x.fp].count != 1 then DecRead else CutHead))
    case DecRead =>
      if x.fp !in s.objs then Fault else Next(Go(s, t, x.(val := s.objs[x.fp].count), DecWrite))
    case DecWrite =>
      if x.fp !in s.objs then Fault else
      var s1 := s.(objs := s.objs[x.fp := s.objs[x.fp].(count := x.val - 1)]);
      if s.design.DropAndRecheck? then Next(Effect(s1, t, x, DecUnlockObj, 0))
      else if x.val - 1 == 0 then Next(Go(s1, t, x, CutHead))
      else Next(Effect(s1, t, x, DecUnlock, 0))
    case DecUnlockObj =>
      if x.both then UnlockObj(s, t, x, DecUnlock) else Leave(UnlockObj(s, t, x, DecUnlockObj), t)
    case DecUnlock => Leave(UnlockHash(s, t, x, DecUnlock), t)
    case _ => Fault
  }

  // ---------- removing an object ----------

  /** A thread is about to lock this object. */
  predicate Awaits(x: Local, o: nat) {
    x.fp == o && (x.pc == AllocLockObj || x.pc == HoldLockObj || x.pc == ReleLockObj || x.pc == ReleRelock)
  }

  /** A thread other than `t` is about to lock this object. */
  predicate Awaited(s: Sys, t: nat, o: nat) {
    exists u :: u in s.threads && u != t && Awaits(s.threads[u], o)
  }

  function CutStep(s: Sys, t: nat, x: Local): Outcome
    requires |s.heads| == NHASH
  {
    if x.fp !in s.objs then Fault else
    var h := HashOf(s.objs[x.fp].id);
    match x.pc
    case CutHead =>
      if s.heads[h] == x.fp then Next(Go(s, t, x.(prev := 0, k := 0), CutNext))
      else Next(Go(s, t, x.(prev := s.heads[h], k := 0), CutScan))
    case CutScan =>
      if x.prev !in s.objs then Fault
      else if s.objs[x.prev].next == x.fp then Next(Go(s, t, x.(k := x.k + 1), CutNext))
      else Next(Go(s, t, x.(prev := s.objs[x.prev].next, k := x.k + 1), CutScan))
    case CutNext => Next(Go(s, t, x.(nxt := s.objs[x.fp].next), CutWrite))
    case CutWrite =>
      if x.prev != 0 && x.prev !in s.objs then Fault else
      var s1 := if x.prev == 0 then s.(heads := s.heads[h := x.nxt])
                else s.(objs := s.objs[x.prev := s.objs[x.prev].(next := x.nxt)]);
      Next(Effect(s1, t, x, CutUnlock, 0).(hand := s.hand[x.fp := t]))
    case CutUnlock => UnlockHash(s, t, x, if s.design.OneLock? then Destroy else CutUnlockObj)
    case CutUnlockObj => UnlockObj(s, t, x, Destroy)
    case Destroy =>
      if !s.objs[x.fp].ready || s.objs[x.fp].lock.Some? || Awaited(s, t, x.fp) then Fault
      else Next(Go(s, t, x, Free).(objs := s.objs[x.fp := s.objs[x.fp].(ready := false)]))
    case Free => Next(Return(s, t).(objs := s.objs - {x.fp}, hand := s.hand - {x.fp}))
    case _ => Fault
  }

  // ---------- the program of a thread ----------

  predicate AllocPc(pc: Pc) {
    pc == AllocNew || pc == AllocLock || pc == AllocLink || pc == AllocHead || pc == AllocLockObj
    || pc == AllocUnlock || pc == AllocUnlockObj
  }

  predicate FindPc(pc: Pc) {
    pc == FindLock || pc == FindHead || pc == FindTest || pc == FindNext || pc == FindUnlock
  }

  predicate HoldPc(pc: Pc) {
    pc == HoldLockObj || pc == HoldLock || pc == HoldRead || pc == HoldWrite || pc == HoldUnlockObj || pc == HoldUnlock
  }

  predicate CutPc(pc: Pc) {
    pc == CutHead || pc == CutScan || pc == CutNext || pc == CutWrite || pc == CutUnlock || pc == CutUnlockObj
    || pc == Destroy || pc == Free
  }

  function Step(s: Sys, t: nat, ptr: nat): Outcome
    requires |s.heads| == NHASH && t in s.threads
  {
    var x := s.threads[t];
    if AllocPc(x.pc) then AllocStep(s, t, x, ptr)
    else if FindPc(x.pc) then FindStep(s, t, x)
    else if HoldPc(x.pc) then HoldStep(s, t, x)
    else if CutPc(x.pc) then CutStep(s, t, x)
    else ReleStep(s, t, x)
  }

  function Entry(d: Design, op: Op): Pc {
    match op
    case Alloc(_) => AllocNew
    case Find(_) => FindLock
    case Hold(_) => if d.OneLock? then HoldLock else HoldLockObj
    case Rele(_) => if d.OneLock? then ReleLock else ReleLockObj
    case Give(_, _) => AllocNew
  }

  /** A thread in no call may start one: hold and release only what it holds a reference to. */
  predicate MayStart(s: Sys, t: nat, op: Op) {
    && t !in s.threads
    && match op
       case Alloc(_) => true
       case Find(_) => true
       case Hold(o) => o in s.tbl.refs && t in s.tbl.refs[o]
       case Rele(o) => o in s.tbl.refs && t in s.tbl.refs[o]
       case Give(_, _) => false
  }

  function Begin(s: Sys, t: nat, op: Op): Sys {
    var fp := if op.Hold? || op.Rele? then op.o else 0;
    Put(s, t, Local(op, Entry(s.design, op), fp, 0, 0, 0, false, 0, false, 0, 0))
  }

  /** A thread in no call may hand a reference it holds to another thread. */
  predicate MayGive(s: Sys, t: nat, o: nat) {
    t !in s.threads && o in s.tbl.refs && t in s.tbl.refs[o]
  }

  function Given(s: Sys, t: nat, o: nat, u: nat): Sys
    requires MayGive(s, t, o)
  {
    s.(tbl := Holding(s.tbl, o, s.tbl.refs[o] - multiset{t} + multiset{u}), log := s.log + [Event(t, Give(o, u), 0)])
  }

  function Initial(d: Design): Sys {
    Sys(d, seq(NHASH, _ => 0), map[], None, map[], Empty(), [], map[])
  }
}
