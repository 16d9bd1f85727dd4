/** Taking and giving up the table lock and the locks of objects. */
module FooLockSteps {
  import opened Options
  import opened FooTable
  import opened FooSystem
  import opened FooProtocol
  import opened FooQuietSteps

  predicate HashLockPc(pc: Pc) {
    pc == AllocLock || pc == FindLock || pc == HoldLock || pc == ReleLock
  }

  predicate HashUnlockPc(pc: Pc) {
    pc == AllocUnlock || pc == FindUnlock || pc == HoldUnlock || pc == DecUnlock || pc == CutUnlock
  }

  predicate ObjLockPc(pc: Pc) {
    pc == AllocLockObj || pc == HoldLockObj || pc == ReleLockObj || pc == ReleRelock
  }

  predicate ObjUnlockPc(pc: Pc) {
    pc == AllocUnlockObj || pc == HoldUnlockObj || pc == ReleDrop || pc == DecUnlockObj || pc == CutUnlockObj
  }

  predicate LockPc(pc: Pc) {
    HashLockPc(pc) || HashUnlockPc(pc) || ObjLockPc(pc) || ObjUnlockPc(pc)
  }

  /** The version and the call that a thread's place in the program belongs to. */
  predicate Programmed(d: Design, x: Local) {
    var holds :=
      match x.pc
      case AllocLock => x.op.Alloc?
      case AllocLockObj => x.op.Alloc?
      case AllocUnlock => x.op.Alloc?
      case AllocUnlockObj => x.op.Alloc?
      case FindLock => x.op.Find?
      case FindUnlock => x.op.Find?
      case HoldLock => d.OneLock? && x.op.Hold?
      case HoldUnlock => d.OneLock? && x.op.Hold?
      case HoldLockObj => d.DropAndRecheck?
      case HoldUnlockObj => d.DropAndRecheck?
      case ReleLock => !x.both
      case ReleLockObj => d.DropAndRecheck? && !x.both
      case ReleDrop => d.DropAndRecheck? && !x.both
      case ReleRelock => d.DropAndRecheck?
      case DecUnlockObj => d.DropAndRecheck?
      case CutUnlockObj => d.DropAndRecheck?
      case _ => true;
    holds
  }

  lemma ReadyProgrammed(s: Sys, q: nat, x: Local)
    requires Shaped(s) && Ready(s, q, x)
    ensures Programmed(s.design, x)
  {
    hide Owns, Mine, Kept, Logged, Searched, CutAt, ScanAt, Reached, Releasing, LastRelease, HashOf;
    if AllocPc(x.pc) { assert ReadyAlloc(s, q, x); }
    else if FindPc(x.pc) { assert ReadyFind(s, q, x); }
    else if HoldPc(x.pc) { ProgrammedHold(s, q, x); }
    else if CutPc(x.pc) { ProgrammedCut(s, q, x); }
    else { ProgrammedRele(s, q, x); }
  }

  lemma ProgrammedHold(s: Sys, q: nat, x: Local)
    requires Shaped(s) && HoldPc(x.pc) && ReadyHold(s, q, x)
    ensures Programmed(s.design, x)
  {
    hide Kept, Logged, Reached;
  }

  lemma ProgrammedCut(s: Sys, q: nat, x: Local)
    requires Shaped(s) && CutPc(x.pc) && ReadyCut(s, q, x)
    ensures Programmed(s.design, x)
  {
    hide Mine, Logged, CutAt, ScanAt, LastRelease, HashOf;
  }

  lemma ProgrammedRele(s: Sys, q: nat, x: Local)
    requires Shaped(s) && ReadyRele(s, q, x)
    requires !AllocPc(x.pc) && !FindPc(x.pc) && !HoldPc(x.pc) && !CutPc(x.pc)
    ensures Programmed(s.design, x)
  {
    hide Owns, Kept, Logged, Releasing;
  }

  /** The registers after a lock step; None when the call returns. */
  function AfterLock(d: Design, x: Local): Option<Local> {
    match x.pc
    case AllocLock => Some(x.(pc := AllocLink))
    case FindLock => Some(x.(pc := FindHead))
    case HoldLock => Some(x.(pc := HoldRead))
    case ReleLock => Some(x.(pc := if d.OneLock? then DecRead else ReleRelock))
    case AllocUnlock => Some(x.(pc := AllocUnlockObj))
    case CutUnlock => Some(x.(pc := if d.OneLock? then Destroy else CutUnlockObj))
    case AllocLockObj => Some(x.(pc := AllocUnlock))
    case HoldLockObj => Some(x.(pc := HoldRead))
    case ReleLockObj => Some(x.(pc := ReleRead))
    case ReleRelock => Some(x.(both := true, pc := ReleRecheck))
    case HoldUnlockObj => if x.op.Find? then Some(x.(pc := FindUnlock)) else None
    case ReleDrop => Some(x.(pc := ReleLock))
    case DecUnlockObj => if x.both then Some(x.(pc := DecUnlock)) else None
    case CutUnlockObj => Some(x.(pc := Destroy))
    case _ => None
  }

  function Moved(s: Sys, q: nat, y: Option<Local>): Sys {
    if y.Some? then Put(s, q, y.value) else Return(s, q)
  }

  function SetLock(s: Sys, o: nat, lock: Option<nat>): Sys
    requires o in s.objs
  {
    s.(objs := s.objs[o := s.objs[o].(lock := lock)])
  }

  /** What a lock step does, when it does not have to wait. */
  function LockDone(s: Sys, q: nat, x: Local): Sys
    requires x.fp in s.objs || HashLockPc(x.pc) || HashUnlockPc(x.pc)
  {
    var s1 := Moved(s, q, AfterLock(s.design, x));
    if HashLockPc(x.pc) then s1.(hashlock := Some(q))
    else if HashUnlockPc(x.pc) then s1.(hashlock := None)
    else SetLock(s1, x.fp, if ObjLockPc(x.pc) then Some(q) else None)
  }

  lemma HashLockShape(s: Sys, q: nat, ptr: nat)
    requires Shaped(s) && q in s.threads && Programmed(s.design, s.threads[q]) && HashLockPc(s.threads[q].pc)
    ensures Step(s, q, ptr) == if s.hashlock.Some? then Wait else Outcome.Next(LockDone(s, q, s.threads[q]))
  {
    hide HashOf, Awaited, Apply, Effect;
    match s.threads[q].pc {
      case AllocLock => case FindLock => case HoldLock => case ReleLock => case _ =>
    }
  }

  lemma TakerUnlockShape(s: Sys, q: nat, ptr: nat)
    requires Shaped(s) && q in s.threads && Programmed(s.design, s.threads[q]) && s.hashlock == Some(q)
    requires s.threads[q].pc == AllocUnlock || s.threads[q].pc == FindUnlock || s.threads[q].pc == HoldUnlock
    ensures Step(s, q, ptr) == Outcome.Next(LockDone(s, q, s.threads[q]))
  {
    hide HashOf, Awaited, Apply, Effect;
    match s.threads[q].pc { case AllocUnlock => case FindUnlock => case HoldUnlock => case _ => }
  }

  lemma HashUnlockShape(s: Sys, q: nat, ptr: nat)
    requires Shaped(s) && q in s.threads && Programmed(s.design, s.threads[q]) && HashUnlockPc(s.threads[q].pc)
    requires s.hashlock == Some(q) && (s.threads[q].pc == CutUnlock ==> s.threads[q].fp in s.objs)
    ensures Step(s, q, ptr) == Outcome.Next(LockDone(s, q, s.threads[q]))
  {
    var pc := s.threads[q].pc;
    if pc == DecUnlock || pc == CutUnlock {
      hide HashOf, Awaited, Apply, Effect;
    } else {
      hide Step, Programmed, LockDone;
      TakerUnlockShape(s, q, ptr);
    }
  }

  lemma HashStepShape(s: Sys, q: nat, ptr: nat)
    requires Shaped(s) && q in s.threads
    requires Programmed(s.design, s.threads[q]) && (HashLockPc(s.threads[q].pc) || HashUnlockPc(s.threads[q].pc))
    requires HashUnlockPc(s.threads[q].pc) ==> s.hashlock == Some(q)
    requires s.threads[q].pc == CutUnlock ==> s.threads[q].fp in s.objs
    ensures Step(s, q, ptr)
         == if HashLockPc(s.threads[q].pc) && s.hashlock.Some? then Wait
            else Outcome.Next(LockDone(s, q, s.threads[q]))
  {
    hide Step, Programmed, LockDone;
    if HashLockPc(s.threads[q].pc) { HashLockShape(s, q, ptr); } else { HashUnlockShape(s, q, ptr); }
  }

  lemma ObjLockShape(s: Sys, q: nat, ptr: nat)
    requires Shaped(s) && q in s.threads && Programmed(s.design, s.threads[q]) && ObjLockPc(s.threads[q].pc)
    requires s.threads[q].fp in s.objs && s.objs[s.threads[q].fp].ready
    ensures Step(s, q, ptr)
         == if s.objs[s.threads[q].fp].lock.Some? then Wait else Outcome.Next(LockDone(s, q, s.threads[q]))
  {
    hide HashOf, Awaited, Apply, Effect;
    match s.threads[q].pc {
      case AllocLockObj => case HoldLockObj => case ReleLockObj => case ReleRelock => case _ =>
    }
  }

  lemma ObjUnlockShape(s: Sys, q: nat, ptr: nat)
    requires Shaped(s) && q in s.threads && Programmed(s.design, s.threads[q]) && ObjUnlockPc(s.threads[q].pc)
    requires s.threads[q].fp in s.objs && s.objs[s.threads[q].fp].ready && s.objs[s.threads[q].fp].lock == Some(q)
    ensures Step(s, q, ptr) == Outcome.Next(LockDone(s, q, s.threads[q]))
  {
    hide HashOf, Awaited, Apply, Effect;
    match s.threads[q].pc {
      case AllocUnlockObj => case HoldUnlockObj => case ReleDrop => case DecUnlockObj => case CutUnlockObj => case _ =>
    }
  }

  lemma ObjStepShape(s: Sys, q: nat, ptr: nat)
    requires Shaped(s) && q in s.threads
    requires Programmed(s.design, s.threads[q]) && (ObjLockPc(s.threads[q].pc) || ObjUnlockPc(s.threads[q].pc))
    requires s.threads[q].fp in s.objs && s.objs[s.threads[q].fp].ready
    requires ObjUnlockPc(s.threads[q].pc) ==> s.objs[s.threads[q].fp].lock == Some(q)
    ensures Step(s, q, ptr)
         == if ObjLockPc(s.threads[q].pc) && s.objs[s.threads[q].fp].lock.Some? then Wait
            else Outcome.Next(LockDone(s, q, s.threads[q]))
  {
    hide Step, Programmed, LockDone;
    if ObjLockPc(s.threads[q].pc) { ObjLockShape(s, q, ptr); } else { ObjUnlockShape(s, q, ptr); }
  }

  // ---------- which locks the thread has before and after ----------

  predicate Own(d: Design, y: Option<Local>, hash: bool) {
    if y.Some? then HoldsHash(d, y.value) == hash else !hash
  }

  predicate OwnObj(d: Design, y: Option<Local>, held: bool) {
    if y.Some? then HoldsObj(d, y.value) == held else !held
  }

  predicate HashMoves(d: Design, x: Local) {
    var holds :=
      && HoldsHash(d, x) == HashUnlockPc(x.pc) && Own(d, AfterLock(d, x), HashLockPc(x.pc))
      && OwnObj(d, AfterLock(d, x), HoldsObj(d, x));
    holds
  }

  predicate ObjMoves(d: Design, x: Local) {
    var holds :=
      && HoldsObj(d, x) == ObjUnlockPc(x.pc) && OwnObj(d, AfterLock(d, x), ObjLockPc(x.pc))
      && Own(d, AfterLock(d, x), HoldsHash(d, x));
    holds
  }

  lemma HashLockLeavesObj(d: Design, x: Local)
    requires Programmed(d, x) && HashLockPc(x.pc)
    ensures OwnObj(d, AfterLock(d, x), HoldsObj(d, x))
  {
    hide HoldsHash;
    match x.pc {
      case AllocLock => case FindLock => case HoldLock => case ReleLock => case _ =>
    }
  }

  lemma HashLockRights(d: Design, x: Local)
    requires Programmed(d, x) && HashLockPc(x.pc)
    ensures HashMoves(d, x)
  {
    hide HoldsObj, OwnObj;
    HashLockLeavesObj(d, x);
    match x.pc {
      case AllocLock => case FindLock => case HoldLock => case ReleLock => case _ =>
    }
  }

  lemma HashUnlockRights(d: Design, x: Local)
    requires Programmed(d, x) && HashUnlockPc(x.pc)
    ensures HashMoves(d, x)
  {
    match x.pc {
      case AllocUnlock => case FindUnlock => case HoldUnlock => case DecUnlock => case CutUnlock => case _ =>
    }
  }

  lemma ObjLockRights(d: Design, x: Local)
    requires Programmed(d, x) && ObjLockPc(x.pc)
    ensures ObjMoves(d, x)
  {
    match x.pc {
      case AllocLockObj => case HoldLockObj => case ReleLockObj => case ReleRelock => case _ =>
    }
  }

  lemma ObjUnlockRights(d: Design, x: Local)
    requires Programmed(d, x) && ObjUnlockPc(x.pc)
    ensures ObjMoves(d, x)
  {
    match x.pc {
      case AllocUnlockObj => case HoldUnlockObj => case ReleDrop => case DecUnlockObj => case CutUnlockObj => case _ =>
    }
  }

  /** A lock step takes or gives up the one lock it names. */
  lemma RightsMove(d: Design, x: Local)
    requires Programmed(d, x) && LockPc(x.pc)
    ensures if HashLockPc(x.pc) || HashUnlockPc(x.pc) then HashMoves(d, x) else ObjMoves(d, x)
    ensures AfterLock(d, x).Some? ==> AfterLock(d, x).value.fp == x.fp
  {
    hide Programmed, HashMoves, ObjMoves, AfterLock;
    if HashLockPc(x.pc) { HashLockRights(d, x); }
    else if HashUnlockPc(x.pc) { HashUnlockRights(d, x); }
    else if ObjLockPc(x.pc) { ObjLockRights(d, x); }
    else { ObjUnlockRights(d, x); }
    if AfterLock(d, x).Some? { AfterLockRegisters(d, x); }
  }

  lemma LockKeepsRights(s: Sys, q: nat)
    requires q in s.threads && Programmed(s.design, s.threads[q]) && LockPc(s.threads[q].pc)
    requires HashLock(s) && ObjLocks(s) && LockOpen(s, q)
    ensures OwnLocks(LockDone(s, q, s.threads[q]), q)
  {
    hide Programmed, HoldsHash, HoldsObj, HashLock, ObjLocks, AfterLock;
    var x := s.threads[q];
    LocksOf(s, q);
    RightsMove(s.design, x);
    var s' := LockDone(s, q, x);
    forall o | o in s'.objs ensures OwnLock(s', q, o) {
      assert OwnLock(s, q, o);
    }
  }

  /** The lock is free to take, or the object to unlock is there. */
  predicate LockOpen(s: Sys, q: nat)
    requires q in s.threads
  {
    var x := s.threads[q];
    && (HashLockPc(x.pc) ==> s.hashlock == None)
    && (HashUnlockPc(x.pc) ==> s.hashlock == Some(q))
    && (ObjLockPc(x.pc) ==> x.fp in s.objs && s.objs[x.fp].lock == None)
    && (ObjUnlockPc(x.pc) ==> x.fp in s.objs && s.objs[x.fp].lock == Some(q))
  }

  // ---------- what the thread relies on next ----------

  predicate SameFiles(s: Sys, s': Sys) {
    var holds :=
      && s'.design == s.design && s'.heads == s.heads && s'.tbl == s.tbl && s'.log == s.log && s'.hand == s.hand
      && s'.objs.Keys == s.objs.Keys && (forall o :: o in s.objs ==> s'.objs[o] == s.objs[o].(lock := s'.objs[o].lock));
    holds
  }

  lemma FactsIgnoreLocks(s: Sys, s': Sys, q: nat, x: Local, y: Local)
    requires Shaped(s) && SameFiles(s, s') && y == x.(pc := y.pc, both := y.both)
    ensures forall o :: Owns(s', q, o) == Owns(s, q, o) && Mine(s', q, o) == Mine(s, q, o) && Kept(s', o) == Kept(s, o)
    ensures Shaped(s') && Logged(s', q, y) == Logged(s, q, x)
    ensures x.op.Find? ==> FoundFirst(s', y) == FoundFirst(s, x)
  {
    hide HashOf;
    if x.op.Find? { assert Searched(s', x.op.id, x.k) == Searched(s, x.op.id, x.k); }
  }

  lemma AfterLockRegisters(d: Design, x: Local)
    requires LockPc(x.pc) && AfterLock(d, x).Some?
    ensures var y := AfterLock(d, x).value; y == x.(pc := y.pc, both := y.both)
  {
  }

  lemma ReadyAfterHashLock(s: Sys, s': Sys, q: nat, x: Local)
    requires Shaped(s) && Shaped(s') && SameFiles(s, s') && Ready(s, q, x)
    requires HashLockPc(x.pc) && s'.objs == s.objs
    ensures AfterLock(s.design, x).Some? ==> Ready(s', q, AfterLock(s.design, x).value)
  {
    hide HashOf, Owns, Kept, Logged, Searched, CutAt, ScanAt, FoundFirst, SameFiles, LastRelease;
    if AfterLock(s.design, x).Some? {
      AfterLockRegisters(s.design, x);
      FactsIgnoreLocks(s, s', q, x, AfterLock(s.design, x).value);
    }
    ObjsSame(s, s');
    match x.pc {
      case AllocLock => case FindLock => case HoldLock => case ReleLock => case _ =>
    }
  }

  lemma ReadyAfterHashUnlock(s: Sys, s': Sys, q: nat, x: Local, y: Local)
    requires Shaped(s) && Shaped(s') && SameFiles(s, s') && Ready(s, q, x)
    requires HashUnlockPc(x.pc) && s'.objs == s.objs && AfterLock(s.design, x) == Some(y)
    requires x.pc == CutUnlock && s.design.OneLock? ==> x.fp in s.objs && s.objs[x.fp].lock == None
    ensures Ready(s', q, y)
  {
    hide HashOf, Owns, Kept, Logged, Searched, CutAt, ScanAt, FoundFirst, SameFiles, LastRelease;
    AfterLockRegisters(s.design, x);
    FactsIgnoreLocks(s, s', q, x, y);
    ObjsSame(s, s');
    match x.pc { case AllocUnlock => case CutUnlock => case _ => }
  }

  lemma ReadyAfterObjLock(s: Sys, s': Sys, q: nat, x: Local)
    requires Shaped(s) && Shaped(s') && SameFiles(s, s') && Ready(s, q, x)
    requires ObjLockPc(x.pc)
    ensures AfterLock(s.design, x).Some? ==> Ready(s', q, AfterLock(s.design, x).value)
  {
    hide HashOf, Owns, Kept, Logged, Searched, CutAt, ScanAt, FoundFirst, SameFiles, LastRelease;
    if AfterLock(s.design, x).Some? {
      AfterLockRegisters(s.design, x);
      FactsIgnoreLocks(s, s', q, x, AfterLock(s.design, x).value);
    }
    ObjsSame(s, s');
    match x.pc {
      case AllocLockObj => case HoldLockObj => case ReleLockObj => case ReleRelock => case _ =>
    }
  }

  lemma ReadyAfterLastUnlock(s: Sys, s': Sys, q: nat, x: Local)
    requires Shaped(s) && Shaped(s') && SameFiles(s, s') && Ready(s, q, x) && x.pc == CutUnlockObj
    requires x.fp in s'.objs && s'.objs[x.fp].lock == None
    ensures AfterLock(s.design, x).Some? && Ready(s', q, AfterLock(s.design, x).value)
  {
    hide HashOf, Owns, Kept, Logged, Searched, CutAt, ScanAt, FoundFirst, SameFiles, LastRelease;
    AfterLockRegisters(s.design, x);
    FactsIgnoreLocks(s, s', q, x, AfterLock(s.design, x).value);
    ObjsSame(s, s');
  }

  lemma ReadyAfterObjUnlock(s: Sys, s': Sys, q: nat, x: Local, y: Local)
    requires Shaped(s) && Shaped(s') && SameFiles(s, s') && Ready(s, q, x)
    requires ObjUnlockPc(x.pc) && x.pc != CutUnlockObj && AfterLock(s.design, x) == Some(y)
    ensures Ready(s', q, y)
  {
    hide HashOf, Owns, Kept, Logged, Searched, CutAt, ScanAt, FoundFirst, SameFiles, LastRelease;
    AfterLockRegisters(s.design, x);
    FactsIgnoreLocks(s, s', q, x, y);
    ObjsSame(s, s');
    match x.pc { case HoldUnlockObj => case ReleDrop => case DecUnlockObj => case _ => }
  }

  lemma ReadyAfterLock(s: Sys, s': Sys, q: nat, x: Local)
    requires Shaped(s) && Shaped(s') && SameFiles(s, s') && Ready(s, q, x) && LockPc(x.pc)
    requires HashLockPc(x.pc) || HashUnlockPc(x.pc) ==> s'.objs == s.objs
    requires x.pc == CutUnlockObj || (x.pc == CutUnlock && s.design.OneLock?) ==>
      x.fp in s'.objs && s'.objs[x.fp].lock == None
    ensures AfterLock(s.design, x).Some? ==> Ready(s', q, AfterLock(s.design, x).value)
  {
    hide Ready, AfterLock, SameFiles;
    var after := AfterLock(s.design, x);
    if HashLockPc(x.pc) { ReadyAfterHashLock(s, s', q, x); }
    else if HashUnlockPc(x.pc) { if after.Some? { ReadyAfterHashUnlock(s, s', q, x, after.value); } }
    else if ObjLockPc(x.pc) { ReadyAfterObjLock(s, s', q, x); }
    else if x.pc == CutUnlockObj { ReadyAfterLastUnlock(s, s', q, x); }
    else { if after.Some? { ReadyAfterObjUnlock(s, s', q, x, after.value); } }
  }

  lemma ObjsSame(s: Sys, s': Sys)
    requires SameFiles(s, s')
    ensures s'.design == s.design && s'.hand == s.hand
    ensures forall o :: o in s.objs ==> o in s'.objs && s'.objs[o].ready == s.objs[o].ready
  {
  }

  /** An object a thread has locked, or is about to lock, is in the table or in its hands. */
  lemma LockedHold(s: Sys, t: nat, x: Local)
    requires Shaped(s) && ReadyHold(s, t, x) && HoldPc(x.pc) && (HoldsObj(s.design, x) || Awaits(x, x.fp))
    ensures x.fp in s.objs && x.fp in s.tbl.refs
  {
    hide HashOf, Searched, Logged;
  }

  lemma LockedCut(s: Sys, t: nat, x: Local)
    requires Shaped(s) && ReadyCut(s, t, x) && CutPc(x.pc) && (HoldsObj(s.design, x) || Awaits(x, x.fp))
    ensures x.fp in s.objs && (x.fp in s.tbl.refs || Mine(s, t, x.fp))
  {
    hide HashOf, Logged, CutAt, ScanAt;
  }

  lemma LockedRele(s: Sys, t: nat, x: Local)
    requires Shaped(s) && ReadyRele(s, t, x) && (HoldsObj(s.design, x) || Awaits(x, x.fp))
    requires !AllocPc(x.pc) && !FindPc(x.pc) && !HoldPc(x.pc) && !CutPc(x.pc)
    ensures x.fp in s.objs && x.fp in s.tbl.refs
  {
    hide HashOf, Logged;
  }

  lemma LockedInReach(s: Sys, t: nat, x: Local)
    requires Shaped(s) && Ready(s, t, x) && (HoldsObj(s.design, x) || Awaits(x, x.fp))
    ensures x.fp in s.objs && (x.fp in s.tbl.refs || Mine(s, t, x.fp))
  {
    hide HashOf, Searched, Logged, Mine, ReadyHold, ReadyCut, ReadyRele;
    if HoldPc(x.pc) { LockedHold(s, t, x); }
    else if CutPc(x.pc) { LockedCut(s, t, x); }
    else if !AllocPc(x.pc) && !FindPc(x.pc) { LockedRele(s, t, x); }
  }

  /** Nobody has, or waits for, the lock of an object in another thread's hands. */
  lemma NobodyElse(s: Sys, q: nat, o: nat, u: nat)
    requires Inv(s) && Mine(s, q, o) && u in s.threads && u != q
    ensures !Awaits(s.threads[u], o)
    ensures o in s.objs && s.objs[o].lock != Some(u)
  {
    hide Ready, HashLock, History, HoldsObj, Awaits;
    Parts(s);
    assert ObjHeld(s, o) && LockOf(s, o, u);
    var x := s.threads[u];
    if (HoldsObj(s.design, x) || Awaits(x, x.fp)) && x.fp == o {
      LockedInReach(s, u, x);
    }
    AwaitsOne(x, o);
  }

  lemma AwaitsOne(x: Local, o: nat)
    ensures Awaits(x, o) ==> x.fp == o && Awaits(x, x.fp)
  {
  }

  lemma NobodyLocks(s: Sys, q: nat, o: nat)
    requires Inv(s) && q in s.threads && Mine(s, q, o) && !HoldsObj(s.design, s.threads[q])
    ensures o in s.objs && s.objs[o].lock == None
  {
    hide Ready, HashLock, History, HoldsObj, Mine, Heap;
    MineIn(s, q, o);
    assert LockOf(s, o, q);
    if s.objs[o].lock.Some? && s.objs[o].lock != Some(q) {
      NobodyElse(s, q, o, s.objs[o].lock.value);
    }
  }

  lemma MineIn(s: Sys, q: nat, o: nat)
    requires Mine(s, q, o)
    ensures o in s.objs
  {
  }

  // ---------- the lock steps ----------

  lemma AfterLockSteady(d: Design, x: Local)
    requires LockPc(x.pc)
    ensures !Cutting(x.pc) && (AfterLock(d, x).Some? ==> !Cutting(AfterLock(d, x).value.pc))
    ensures InHand(x, x.fp) ==>
      AfterLock(d, x).Some? && InHand(AfterLock(d, x).value, x.fp)
  {
    match x.pc {
      case AllocLock => case FindLock => case HoldLock => case ReleLock => case AllocUnlock =>
      case FindUnlock => case HoldUnlock => case DecUnlock => case CutUnlock =>
      case AllocLockObj => case HoldLockObj => case ReleLockObj => case ReleRelock => case AllocUnlockObj =>
      case HoldUnlockObj => case ReleDrop => case DecUnlockObj => case CutUnlockObj => case _ =>
    }
  }

  lemma LockIsQuiet(s: Sys, q: nat)
    requires q in s.threads && LockPc(s.threads[q].pc) && LockOpen(s, q)
    requires s.threads[q].fp in s.hand && (ObjLockPc(s.threads[q].pc) || ObjUnlockPc(s.threads[q].pc)) ==>
      s.hand[s.threads[q].fp] == q
    ensures LocksOnly(s, LockDone(s, q, s.threads[q]), q) && Steady(s, LockDone(s, q, s.threads[q]), q)
    ensures SameFiles(s, LockDone(s, q, s.threads[q]))
  {
    hide AfterLock, InHand, Cutting;
    AfterLockSteady(s.design, s.threads[q]);
  }

  lemma LockDoneKeeps(s: Sys, q: nat)
    requires Inv(s) && q in s.threads && LockPc(s.threads[q].pc) && LockOpen(s, q)
    requires s.threads[q].fp in s.hand && (ObjLockPc(s.threads[q].pc) || ObjUnlockPc(s.threads[q].pc)) ==>
      s.hand[s.threads[q].fp] == q
    ensures GoodStep(s, LockDone(s, q, s.threads[q]), q)
  {
    hide Programmed, Inv, Ready, GoodStep, Heap, HashLock, ObjLocks, LocksOnly, Steady, SameFiles, HoldsObj, HoldsHash, OwnLocks;
    Parts(s);
    ReadyOf(s, q);
    ReadyProgrammed(s, q, s.threads[q]);
    var x := s.threads[q];
    var s' := LockDone(s, q, x);
    LockIsQuiet(s, q);
    LockKeepsRights(s, q);
    if x.pc == CutUnlock && s.design.OneLock? {
      CutMine(s, q, x);
      NobodyLocks(s, q, x.fp);
    }
    ReadyAfterLock(s, s', q, x);
    QuietKeeps(s, s', q);
  }

  lemma CutMine(s: Sys, q: nat, x: Local)
    requires Shaped(s) && Ready(s, q, x) && x.pc == CutUnlock && s.design.OneLock?
    ensures Mine(s, q, x.fp) && !HoldsObj(s.design, x)
  {
    hide HashOf;
  }

  lemma CutThere(s: Sys, q: nat, x: Local)
    requires Shaped(s) && Ready(s, q, x) && x.pc == CutUnlock
    ensures x.fp in s.objs
  {
    hide HashOf;
  }

  /** Before a lock or unlock step of an object: the object is there, with its lock as it should be. */
  lemma ObjThere(s: Sys, q: nat)
    requires Inv(s) && q in s.threads && (ObjLockPc(s.threads[q].pc) || ObjUnlockPc(s.threads[q].pc))
    ensures var x := s.threads[q];
      && x.fp in s.objs && s.objs[x.fp].ready && (x.fp in s.hand ==> s.hand[x.fp] == q)
      && (ObjUnlockPc(x.pc) ==> s.objs[x.fp].lock == Some(q))
  {
    hide Inv, Heap, ObjHeld, Programmed, Ready, HoldsObj, HashLock, ObjLocks, History, Zeroed, Mine;
    var x := s.threads[q];
    Parts(s);
    ReadyOf(s, q);
    ReadyProgrammed(s, q, s.threads[q]);
    RightsMove(s.design, x);
    ReachReady(s, q, x);
    OwnsLock(s, q, x.fp);
    InReach(s, q, x.fp);
  }

  lemma OwnsLock(s: Sys, q: nat, o: nat)
    requires ObjLocks(s) && q in s.threads && o in s.objs
    ensures HoldsObj(s.design, s.threads[q]) && s.threads[q].fp == o ==> s.objs[o].lock == Some(q)
  {
    hide HoldsObj;
    assert LockOf(s, o, q);
  }

  lemma InReach(s: Sys, q: nat, o: nat)
    requires Heap(s) && o in s.objs && (o in s.tbl.refs || Mine(s, q, o))
    ensures (o in s.tbl.refs ==> s.objs[o].ready) && (o in s.hand ==> s.hand[o] == q)
  {
    hide Zeroed, HashOf;
    assert ObjHeld(s, o);
  }

  lemma ReachReady(s: Sys, t: nat, x: Local)
    requires Shaped(s) && Ready(s, t, x) && (ObjLockPc(x.pc) || ObjUnlockPc(x.pc))
    ensures x.fp in s.objs && (x.fp in s.tbl.refs || (Mine(s, t, x.fp) && s.objs[x.fp].ready))
  {
    hide HashOf, Searched, Logged, CutAt, ScanAt;
  }

  /** A lock step never faults; it may have to wait. */
  lemma LockKeeps(s: Sys, q: nat, ptr: nat)
    requires Inv(s) && Shaped(s) && q in s.threads && LockPc(s.threads[q].pc)
    ensures !Step(s, q, ptr).Fault?
    ensures Step(s, q, ptr).Next? ==> GoodStep(s, Step(s, q, ptr).s, q)
    ensures HashUnlockPc(s.threads[q].pc) || ObjUnlockPc(s.threads[q].pc) ==> Step(s, q, ptr).Next?
    ensures HashLockPc(s.threads[q].pc) && s.hashlock == None ==> Step(s, q, ptr).Next?
    ensures ObjLockPc(s.threads[q].pc) ==> s.threads[q].fp in s.objs
    ensures ObjLockPc(s.threads[q].pc) && s.objs[s.threads[q].fp].lock == None ==> Step(s, q, ptr).Next?
  {
    hide Programmed, Inv, Ready, GoodStep, Heap, HashLock, ObjLocks, HoldsObj, HoldsHash, Step, LockDone;
    Parts(s);
    ReadyOf(s, q);
    ReadyProgrammed(s, q, s.threads[q]);
    var x := s.threads[q];
    if HashLockPc(x.pc) || HashUnlockPc(x.pc) {
      RightsMove(s.design, x);
      HashMine(s, q);
      if x.pc == CutUnlock { CutThere(s, q, x); }
      HashStepShape(s, q, ptr);
    } else {
      ObjThere(s, q);
      ObjStepShape(s, q, ptr);
    }
    if Step(s, q, ptr).Next? { LockDoneKeeps(s, q); }
  }

  lemma HashMine(s: Sys, q: nat)
    requires HashLock(s) && q in s.threads
    ensures HoldsHash(s.design, s.threads[q]) ==> s.hashlock == Some(q)
  {
  }
}
