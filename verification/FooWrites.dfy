/** The steps in which a call takes effect, and those that make and remove an object. */
module FooWrites {
  import opened Options
  import opened FooTable
  import opened FooSystem
  import opened FooProtocol
  import opened FooQuietSteps
  import opened FooLockSteps
  import opened FooHeapMoves
  import opened FooSteps

  // ---------- taking effect ----------

  lemma HistoryStep(s: Sys, s': Sys, e: Event)
    requires History(s) && s'.log == s.log + [e] && Apply(s.tbl, e) == Some(s'.tbl)
    ensures History(s')
  {
    hide Apply;
    assert s'.log[..|s.log|] == s.log;
  }

  /** The registers of a call that has just taken effect. */
  function Finished(s: Sys, x: Local, pc: Pc, res: nat): Local {
    x.(pc := pc, done := true, at := |s.log|, res := res)
  }

  lemma EffectShape(s: Sys, q: nat, x: Local, pc: Pc, res: nat, tbl: Table)
    requires Apply(s.tbl, Event(q, x.op, res)) == Some(tbl)
    ensures Effect(s, q, x, pc, res)
         == Put(s.(tbl := tbl), q, Finished(s, x, pc, res)).(log := s.log + [Event(q, x.op, res)])
  {
    hide Apply;
  }

  lemma FrameLog(s: Sys, s2: Sys, s': Sys, q: nat)
    requires Frame(s, s2, q) && s2.log <= s'.log && s' == s2.(log := s'.log)
    ensures Frame(s, s', q)
  {
    forall o | o in s.objs && o in s.hand && s.hand[o] != q ensures SameObj(s, s', o) {
      assert SameObj(s, s2, o);
    }
    forall o, p | p != q && o in s.objs && o in s.tbl.refs && Guards(s, p, o) ensures CountKept(s, s', o) {
      assert CountKept(s, s2, o);
    }
    forall o, p | p != q && Owns(s, p, o) ensures Owns(s', p, o) && s'.objs[o].id == s.objs[o].id {
      assert Owns(s2, p, o);
    }
    forall p | p != q && s.hashlock == Some(p) ensures ChainsKept(s, s') && s'.hashlock == s.hashlock {
      assert ChainsKept(s, s2);
    }
  }

  lemma LocksIgnoreLog(s: Sys, log: seq<Event>)
    requires HashLock(s) && ObjLocks(s)
    ensures HashLock(s.(log := log)) && ObjLocks(s.(log := log))
  {
    hide HoldsHash, HoldsObj;
    var s' := s.(log := log);
    forall o, t | o in s'.objs && t in s'.threads ensures LockOf(s', o, t) {
      assert LockOf(s, o, t);
    }
  }

  /** A step that only moves `q`, and an event in the log that leaves the table as it is. */
  lemma SilentKeeps(s: Sys, s2: Sys, q: nat, e: Event)
    requires Inv(s) && Frame(s, s2, q) && Heap(s2) && HashLock(s2) && ObjLocks(s2)
    requires s2.tbl == s.tbl && s2.log == s.log && Apply(s.tbl, e) == Some(s.tbl)
    requires Shaped(s2) && (q in s2.threads ==> Ready(s2.(log := s.log + [e]), q, s2.threads[q]))
    ensures GoodStep(s, s2.(log := s.log + [e]), q)
  {
    hide Inv, Ready, Heap, HashLock, ObjLocks, Frame, History, Apply;
    var s' := s2.(log := s.log + [e]);
    Parts(s);
    HeapLog(s2, s'.log);
    LocksIgnoreLog(s2, s'.log);
    FrameLog(s, s2, s', q);
    HistoryStep(s, s', e);
  }

  // ---------- counting a reference ----------

  /** Thread `q` may change the count of `o`. */
  predicate MayCount(s: Sys, q: nat, o: nat)
    requires q in s.threads
  {
    && o in s.objs && o in s.tbl.refs && Guards(s, q, o)
    && (s.design.OneLock? ==> !Cutting(s.threads[q].pc))
  }

  lemma NotZeroed(s: Sys, q: nat, o: nat)
    requires q in s.threads && MayCount(s, q, o)
    ensures !Zeroed(s, o)
  {
  }

  lemma CountedFrame(s: Sys, q: nat, o: nat, refs: multiset<nat>, y: Local)
    requires Shaped(s) && q in s.threads && MayCount(s, q, o) && o !in s.hand
    requires forall p :: p != q ==> refs[p] == s.tbl.refs[o][p]
    ensures Frame(s, Put(Counted(s, o, refs), q, y), q)
  {
    var s' := Put(Counted(s, o, refs), q, y);
    forall r | r in s.objs && r in s.hand && s.hand[r] != q && r != o ensures SameObj(s, s', r) {
    }
    forall r, p | p != q && r in s.objs && r in s.tbl.refs && Guards(s, p, r) ensures CountKept(s, s', r) {
      assert r != o || s.hashlock == Some(p);
    }
  }

  lemma CountedLocks(s: Sys, q: nat, o: nat, refs: multiset<nat>, y: Local)
    requires HashLock(s) && ObjLocks(s) && q in s.threads && o in s.objs && SameLocks(s.design, s.threads[q], y)
    ensures HashLock(Put(Counted(s, o, refs), q, y)) && ObjLocks(Put(Counted(s, o, refs), q, y))
  {
    hide SameLocks, HashLock, ObjLocks;
    SameLocksKept(s, Put(Counted(s, o, refs), q, y), q);
  }

  lemma CountedHeap(s: Sys, q: nat, o: nat, refs: multiset<nat>, y: Local)
    requires Heap(s) && HashLock(s) && q in s.threads && MayCount(s, q, o) && |refs| > 0 && o !in s.hand
    requires !InHand(s.threads[q], s.threads[q].fp)
    requires s.design.OneLock? ==> !Cutting(y.pc)
    ensures Heap(Put(Counted(s, o, refs), q, y))
  {
    hide Heap, InHand, Cutting;
    NotZeroed(s, q, o);
    HeapCounted(s, o, refs);
    HeapPut(Counted(s, o, refs), q, y);
  }

  /** The count and the references of one object change together. */
  lemma CountKeeps(s: Sys, q: nat, o: nat, refs: multiset<nat>, y: Local, e: Event)
    requires Inv(s) && q in s.threads && MayCount(s, q, o) && |refs| > 0 && SameLocks(s.design, s.threads[q], y)
    requires !InHand(s.threads[q], s.threads[q].fp) && (s.design.OneLock? ==> !Cutting(y.pc))
    requires forall p :: p != q ==> refs[p] == s.tbl.refs[o][p]
    requires Apply(s.tbl, e) == Some(Holding(s.tbl, o, refs))
    requires Shaped(s) && Ready(Put(Counted(s, o, refs), q, y).(log := s.log + [e]), q, y)
    ensures GoodStep(s, Put(Counted(s, o, refs), q, y).(log := s.log + [e]), q)
  {
    hide Inv, Ready, Heap, HashLock, ObjLocks, Frame, History, Apply, SameLocks, MayCount, InHand, Cutting;
    Parts(s);
    MayCountThere(s, q, o);
    HeapPublished(s, o);
    var s2 := Put(Counted(s, o, refs), q, y);
    CountedHeap(s, q, o, refs, y);
    CountedLocks(s, q, o, refs, y);
    CountedFrame(s, q, o, refs, y);
    HeapLog(s2, s.log + [e]);
    LocksIgnoreLog(s2, s.log + [e]);
    FrameLog(s, s2, s2.(log := s.log + [e]), q);
    HistoryStep(s, s2.(log := s.log + [e]), e);
  }

  lemma MayCountThere(s: Sys, q: nat, o: nat)
    requires q in s.threads && MayCount(s, q, o)
    ensures o in s.objs && o in s.tbl.refs
  {
  }

  // ---------- foo_hold and foo_find ----------

  function AfterHold(d: Design, op: Op): Pc {
    if d.DropAndRecheck? then HoldUnlockObj else if op.Find? then FindUnlock else HoldUnlock
  }

  function HoldResult(x: Local): nat {
    if x.op.Find? then x.fp else 0
  }

  lemma HoldApplies(s: Sys, q: nat, x: Local)
    requires Heap(s) && Shaped(s) && Reached(s, q, x) && x.fp in s.tbl.refs && (x.op.Find? || x.op.Hold?)
    ensures Apply(s.tbl, Event(q, x.op, HoldResult(x)))
         == Some(Holding(s.tbl, x.fp, s.tbl.refs[x.fp] + multiset{q}))
  {
    hide HashOf, ChainHeld;
    if x.op.Find? {
      ChainIdsInTable(s, HashOf(x.op.id));
      OnChain(s, HashOf(x.op.id), x.k);
      FirstFound(s.tbl.chains[HashOf(x.op.id)], s.tbl.ids, x.op.id, x.k);
    }
  }

  lemma ChainIdsInTable(s: Sys, h: nat)
    requires Heap(s) && h < NHASH
    ensures forall k :: 0 <= k < |s.tbl.chains[h]| ==>
      var o := s.tbl.chains[h][k]; o in s.objs && o in s.tbl.ids && s.tbl.ids[o] == s.objs[o].id
  {
    hide HashOf;
    forall k | 0 <= k < |s.tbl.chains[h]|
      ensures var o := s.tbl.chains[h][k]; o in s.objs && o in s.tbl.ids && s.tbl.ids[o] == s.objs[o].id
    {
      OnChain(s, h, k);
      HeapPublished(s, s.tbl.chains[h][k]);
    }
  }

  lemma HoldWriteShape(s: Sys, q: nat, ptr: nat, refs: multiset<nat>)
    requires Shaped(s) && q in s.threads && s.threads[q].pc == HoldWrite && s.threads[q].fp in s.objs
    requires s.threads[q].val + 1 == |refs|
    requires var x := s.threads[q];
      Apply(s.tbl, Event(q, x.op, HoldResult(x))) == Some(Holding(s.tbl, x.fp, refs))
    ensures var x := s.threads[q];
      Step(s, q, ptr) == Outcome.Next(
        Put(Counted(s, x.fp, refs), q, Finished(s, x, AfterHold(s.design, x.op), HoldResult(x)))
          .(log := s.log + [Event(q, x.op, HoldResult(x))]))
  {
    hide Apply;
  }

  lemma HoldWriteReady(s: Sys, q: nat, x: Local, refs: multiset<nat>)
    requires Shaped(s) && x.fp in s.objs && s.objs[x.fp].ready && (x.op.Find? || x.op.Hold?)
    ensures var y := Finished(s, x, AfterHold(s.design, x.op), HoldResult(x));
      Ready(Put(Counted(s, x.fp, refs), q, y).(log := s.log + [Event(q, x.op, HoldResult(x))]), q, y)
  {
    hide HashOf;
  }

  lemma CounterMay(s: Sys, q: nat)
    requires HashLock(s) && ObjLocks(s) && q in s.threads && s.threads[q].fp in s.objs && s.threads[q].fp in s.tbl.refs
    requires s.threads[q].pc == HoldWrite || s.threads[q].pc == DecWrite
    ensures MayCount(s, q, s.threads[q].fp)
  {
    assert LockOf(s, s.threads[q].fp, q);
  }

  lemma HoldRights(d: Design, x: Local, y: Local)
    requires x.pc == HoldWrite && y.pc == AfterHold(d, x.op) && y.op == x.op && y.fp == x.fp && y.both == x.both
    ensures SameLocks(d, x, y) && !InHand(x, x.fp) && !Cutting(y.pc)
  {
  }

  lemma HoldWriteKeeps(s: Sys, q: nat, ptr: nat)
    requires Inv(s) && Shaped(s) && q in s.threads && s.threads[q].pc == HoldWrite
    ensures Step(s, q, ptr).Next? && GoodStep(s, Step(s, q, ptr).s, q)
  {
    hide Inv, GoodStep, Ready, Heap, HashLock, ObjLocks, Reached, Step, Apply, SameLocks, MayCount, InHand, Cutting;
    var x := s.threads[q];
    Parts(s);
    ReadyOf(s, q);
    ReachedThere(s, q, x);
    var refs := s.tbl.refs[x.fp] + multiset{q};
    CounterMay(s, q);
    NotZeroed(s, q, x.fp);
    CountIsReferences(s, x.fp);
    ObjReady(s, x.fp);
    HoldApplies(s, q, x);
    HoldWriteShape(s, q, ptr, refs);
    var y := Finished(s, x, AfterHold(s.design, x.op), HoldResult(x));
    HoldRights(s.design, x, y);
    HoldWriteReady(s, q, x, refs);
    CountKeeps(s, q, x.fp, refs, y, Event(q, x.op, HoldResult(x)));
  }

  lemma ObjReady(s: Sys, o: nat)
    requires Heap(s) && o in s.tbl.refs
    ensures o in s.objs && s.objs[o].ready
  {
    hide HashOf;
    HeapPublished(s, o);
  }

  // ---------- a search that finds nothing ----------

  lemma MissApplies(s: Sys, q: nat, x: Local)
    requires Heap(s) && Shaped(s) && ReadyFind(s, q, x) && x.pc == FindTest && x.fp == 0
    ensures Apply(s.tbl, Event(q, x.op, 0)) == Some(s.tbl)
  {
    hide HashOf, ChainHeld;
    var h := HashOf(x.op.id);
    ChainIds(s, h);
    ChainIdsInTable(s, h);
    FirstMissing(s.tbl.chains[h], s.tbl.ids, x.op.id);
  }

  lemma MissKeeps(s: Sys, q: nat, ptr: nat)
    requires Inv(s) && Shaped(s) && q in s.threads && s.threads[q].pc == FindTest && s.threads[q].fp == 0
    ensures Step(s, q, ptr).Next? && GoodStep(s, Step(s, q, ptr).s, q)
  {
    hide Inv, Ready, GoodStep, Heap, HashLock, ObjLocks, ReadyFind, Apply, HashOf, Frame, OwnLocks;
    var x := s.threads[q];
    Parts(s);
    ReadyOf(s, q);
    MissReady(s, q, x);
    MissApplies(s, q, x);
    EffectShape(s, q, x, FindUnlock, 0, s.tbl);
    var y := Finished(s, x, FindUnlock, 0);
    var s2 := Put(s, q, y);
    MissMoves(s, q);
    SilentKeeps(s, s2, q, Event(q, x.op, 0));
  }

  lemma MissReady(s: Sys, q: nat, x: Local)
    requires Shaped(s) && Ready(s, q, x) && x.pc == FindTest
    ensures x.op.Find? && ReadyFind(s, q, x)
    ensures var y := Finished(s, x, FindUnlock, 0);
      Ready(Put(s, q, y).(log := s.log + [Event(q, x.op, 0)]), q, y)
  {
    hide HashOf, Searched;
  }

  lemma MissMoves(s: Sys, q: nat)
    requires Inv(s) && Shaped(s) && q in s.threads && s.threads[q].pc == FindTest
    ensures var s2 := Put(s, q, Finished(s, s.threads[q], FindUnlock, 0));
      Frame(s, s2, q) && Heap(s2) && HashLock(s2) && ObjLocks(s2)
  {
    hide Inv, Heap, HashLock, ObjLocks, SameLocks, Frame;
    Parts(s);
    var y := Finished(s, s.threads[q], FindUnlock, 0);
    MissLocks(s.design, s.threads[q], y);
    QuietHeap(s, Put(s, q, y), q);
    QuietFrame(s, Put(s, q, y), q);
    SameLocksKept(s, Put(s, q, y), q);
  }

  lemma MissLocks(d: Design, x: Local, y: Local)
    requires x.pc == FindTest && y.pc == FindUnlock
    ensures SameLocks(d, x, y)
  {
  }

  // ---------- foo_rele: one reference less ----------

  function AfterDec(d: Design): Pc {
    if d.DropAndRecheck? then DecUnlockObj else DecUnlock
  }

  lemma DecShape(s: Sys, q: nat, ptr: nat, refs: multiset<nat>)
    requires Shaped(s) && q in s.threads && s.threads[q].pc == DecWrite && s.threads[q].fp in s.objs
    requires s.threads[q].val - 1 == |refs| && |refs| > 0
    requires Apply(s.tbl, Event(q, s.threads[q].op, 0)) == Some(Holding(s.tbl, s.threads[q].fp, refs))
    ensures var x := s.threads[q];
      Step(s, q, ptr) == Outcome.Next(
        Put(Counted(s, x.fp, refs), q, Finished(s, x, AfterDec(s.design), 0)).(log := s.log + [Event(q, x.op, 0)]))
  {
    hide Apply;
  }

  lemma DecReady(s: Sys, q: nat, x: Local, refs: multiset<nat>)
    requires Shaped(s) && x.fp in s.objs && s.objs[x.fp].ready && x.op.Rele?
    ensures var y := Finished(s, x, AfterDec(s.design), 0);
      Ready(Put(Counted(s, x.fp, refs), q, y).(log := s.log + [Event(q, x.op, 0)]), q, y)
  {
    hide HashOf;
  }

  lemma DecRights(d: Design, x: Local, y: Local)
    requires x.pc == DecWrite && y.pc == AfterDec(d) && y.op == x.op && y.fp == x.fp && y.both == x.both
    requires d.OneLock? ==> !x.both
    ensures SameLocks(d, x, y) && !InHand(x, x.fp) && !Cutting(y.pc)
  {
  }

  lemma DecApplies(s: Sys, q: nat, x: Local)
    requires Heap(s) && Shaped(s) && Releasing(s, q, x) && |s.tbl.refs[x.fp]| != 1
    ensures Apply(s.tbl, Event(q, x.op, 0)) == Some(Holding(s.tbl, x.fp, s.tbl.refs[x.fp] - multiset{q}))
  {
    hide HashOf, ChainHeld, ObjHeld;
  }

  lemma DecKeeps(s: Sys, q: nat, ptr: nat)
    requires Inv(s) && Shaped(s) && q in s.threads && s.threads[q].pc == DecWrite && s.threads[q].val != 1
    ensures Step(s, q, ptr).Next? && GoodStep(s, Step(s, q, ptr).s, q)
  {
    hide Inv, GoodStep, Ready, Heap, HashLock, ObjLocks, Step, Apply, SameLocks, MayCount, InHand, Cutting, Programmed;
    var x := s.threads[q];
    Parts(s);
    ReadyOf(s, q);
    ReleasingThere(s, q, x);
    var refs := s.tbl.refs[x.fp] - multiset{q};
    CounterMay(s, q);
    NotZeroed(s, q, x.fp);
    CountIsReferences(s, x.fp);
    ObjReady(s, x.fp);
    DecApplies(s, q, x);
    DecShape(s, q, ptr, refs);
    var y := Finished(s, x, AfterDec(s.design), 0);
    DecRights(s.design, x, y);
    DecReady(s, q, x, refs);
    CountKeeps(s, q, x.fp, refs, y, Event(q, x.op, 0));
  }
}
