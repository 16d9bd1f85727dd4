/** The last release: the count falls to zero, and the object leaves its chain. */
module FooCuts {
  import opened Options
  import opened FooTable
  import opened FooSystem
  import opened FooProtocol
  import opened FooQuietSteps
  import opened FooLockSteps
  import opened FooHeapMoves
  import opened FooSteps
  import opened FooWrites
  import opened FooObjects

  // ---------- the count falls to zero under the one lock ----------

  function Emptied(s: Sys, q: nat): Sys
    requires q in s.threads && s.threads[q].fp in s.objs
  {
    var x := s.threads[q];
    Put(SetObj(s, x.fp, s.objs[x.fp].(count := 0)), q, x.(pc := CutHead))
  }

  lemma EmptiedShape(s: Sys, q: nat, ptr: nat)
    requires Shaped(s) && q in s.threads && s.threads[q].pc == DecWrite && s.threads[q].fp in s.objs
    requires s.design.OneLock? && s.threads[q].val == 1
    ensures Step(s, q, ptr) == Outcome.Next(Emptied(s, q))
  {
  }

  lemma EmptiedZeroed(s: Sys, q: nat, o: nat)
    requires HashLock(s) && q in s.threads && s.threads[q].fp in s.objs && s.threads[q].pc == DecWrite && s.design.OneLock?
    ensures !Zeroed(s, o) && (Zeroed(Emptied(s, q), o) <==> o == s.threads[q].fp)
  {
  }

  lemma EmptiedChain(s: Sys, q: nat, h: nat)
    requires Shaped(s) && q in s.threads && s.threads[q].fp in s.objs && h < NHASH && ChainHeld(s, h)
    ensures ChainHeld(Emptied(s, q), h)
  {
    hide HashOf;
  }

  lemma EmptiedHeap(s: Sys, q: nat)
    requires Heap(s) && HashLock(s) && q in s.threads && s.threads[q].fp in s.objs && s.threads[q].fp !in s.hand
    requires s.threads[q].pc == DecWrite && s.design.OneLock?
    ensures Heap(Emptied(s, q))
  {
    hide HashOf, Zeroed;
    var s' := Emptied(s, q);
    forall h | 0 <= h < NHASH ensures ChainHeld(s', h) {
      HeapAt(s, h);
      EmptiedChain(s, q, h);
    }
    forall o | o in s'.objs ensures ObjHeld(s', o) {
      HeapObj(s, o);
      EmptiedZeroed(s, q, o);
    }
  }

  lemma EmptiedFrame(s: Sys, q: nat)
    requires Shaped(s) && q in s.threads && MayCount(s, q, s.threads[q].fp) && s.threads[q].fp !in s.hand
    ensures Frame(s, Emptied(s, q), q)
  {
    var s', o := Emptied(s, q), s.threads[q].fp;
    forall r, p | p != q && r in s.objs && r in s.tbl.refs && Guards(s, p, r) ensures CountKept(s, s', r) {
      assert r != o || s.hashlock == Some(p);
    }
  }

  lemma EmptiedReady(s: Sys, q: nat, x: Local)
    requires Shaped(s) && q in s.threads && x == s.threads[q] && Releasing(s, q, x) && s.design.OneLock?
    requires |s.tbl.refs[x.fp]| == 1
    ensures Ready(Emptied(s, q), q, x.(pc := CutHead))
  {
    hide HashOf;
    assert ReadyCut(Emptied(s, q), q, x.(pc := CutHead));
  }

  lemma EmptiedRights(d: Design, x: Local)
    requires x.pc == DecWrite && d.OneLock?
    ensures SameLocks(d, x, x.(pc := CutHead))
  {
  }

  /** The thread that takes the count to zero holds the last reference. */
  lemma LastReference(s: Sys, q: nat, x: Local)
    requires Inv(s) && Shaped(s) && q in s.threads && x == s.threads[q] && x.pc == DecWrite && x.val == 1
    ensures Releasing(s, q, x) && MayCount(s, q, x.fp) && s.design.OneLock?
    ensures x.fp in s.objs && x.fp !in s.hand && x.fp in s.tbl.refs && |s.tbl.refs[x.fp]| == 1
  {
    hide Inv, Ready, Heap, HashLock, ObjLocks, MayCount, Programmed, Releasing, History;
    Parts(s);
    ReadyOf(s, q);
    ReleasingThere(s, q, x);
    CounterMay(s, q);
    NotZeroed(s, q, x.fp);
    CountIsReferences(s, x.fp);
    HeapPublished(s, x.fp);
  }

  lemma EmptiedKeeps(s: Sys, q: nat, ptr: nat)
    requires Inv(s) && Shaped(s) && q in s.threads && s.threads[q].pc == DecWrite && s.threads[q].val == 1
    ensures s.design.OneLock? && Step(s, q, ptr).Next? && GoodStep(s, Step(s, q, ptr).s, q)
  {
    hide Inv, Step, Emptied, GoodStep, Releasing, MayCount;
    LastReference(s, q, s.threads[q]);
    EmptiedShape(s, q, ptr);
    EmptiedIsGood(s, q);
  }

  lemma EmptiedIsGood(s: Sys, q: nat)
    requires Inv(s) && Shaped(s) && q in s.threads && s.threads[q].pc == DecWrite && s.threads[q].val == 1
    requires s.threads[q].fp in s.objs
    ensures GoodStep(s, Emptied(s, q), q)
  {
    hide Inv, Ready, Heap, HashLock, ObjLocks, SameLocks, MayCount, Programmed, Releasing, Frame, History;
    var x := s.threads[q];
    Parts(s);
    LastReference(s, q, x);
    EmptiedHeap(s, q);
    EmptiedRights(s.design, x);
    SameLocksKept(s, Emptied(s, q), q);
    EmptiedFrame(s, q);
    EmptiedReady(s, q, x);
    SameHistory(s, Emptied(s, q));
  }

  // ---------- the object leaves its chain ----------

  lemma CutReady(s: Sys, q: nat, x: Local)
    requires Shaped(s) && Ready(s, q, x) && x.pc == CutWrite
    ensures LastRelease(s, q, x) && CutAt(s, x) && x.fp in s.objs && x.fp in s.tbl.refs && x.nxt == s.objs[x.fp].next
    ensures x.op == Rele(x.fp) && q in s.tbl.refs[x.fp] && |s.tbl.refs[x.fp]| == 1
  {
    hide HashOf;
    assert ReadyCut(s, q, x);
  }

  /** The state after the pointer past the object was written. */
  function Dropped(s: Sys, q: nat): Sys
    requires Shaped(s) && q in s.threads
    requires s.threads[q].fp in s.objs && (s.threads[q].prev != 0 ==> s.threads[q].prev in s.objs)
  {
    var x := s.threads[q];
    Put(Unlinked(s, x.prev, x.fp), q, Finished(s, x, CutUnlock, 0))
      .(hand := s.hand[x.fp := q], log := s.log + [Event(q, x.op, 0)])
  }

  lemma PrevThere(s: Sys, x: Local)
    requires Heap(s) && Shaped(s) && CutAt(s, x)
    ensures x.prev != 0 ==> x.prev in s.objs && x.prev in s.tbl.refs
  {
    hide HashOf;
    HeapAt(s, HashOf(s.objs[x.fp].id));
  }

  lemma DroppedApplies(s: Sys, q: nat, x: Local)
    requires Heap(s) && Shaped(s) && x.op == Rele(x.fp) && x.fp in s.tbl.refs && x.fp in s.objs
    requires q in s.tbl.refs[x.fp] && |s.tbl.refs[x.fp]| == 1 && (x.prev != 0 ==> x.prev in s.objs)
    ensures Apply(s.tbl, Event(q, x.op, 0)) == Some(Unlinked(s, x.prev, x.fp).tbl)
  {
    hide HashOf, ChainHeld, ObjHeld, Removed;
  }

  lemma CutWriteShape(s: Sys, q: nat, ptr: nat)
    requires Shaped(s) && q in s.threads && s.threads[q].pc == CutWrite && s.threads[q].fp in s.objs
    requires s.threads[q].prev != 0 ==> s.threads[q].prev in s.objs
    requires s.threads[q].nxt == s.objs[s.threads[q].fp].next
    requires var x := s.threads[q];
      Apply(s.tbl, Event(q, x.op, 0)) == Some(Unlinked(s, x.prev, x.fp).tbl)
    ensures Step(s, q, ptr) == Outcome.Next(Dropped(s, q))
  {
    hide Apply, HashOf, Removed, Awaited;
    assert Step(s, q, ptr) == CutStep(s, q, s.threads[q]);
  }

  lemma DroppedZeroed(s: Sys, q: nat, o: nat)
    requires HashLock(s) && Shaped(s) && q in s.threads && s.threads[q].pc == CutWrite
    requires s.threads[q].fp in s.objs && (s.threads[q].prev != 0 ==> s.threads[q].prev in s.objs)
    requires o != s.threads[q].fp
    ensures !Zeroed(s, o) && !Zeroed(Dropped(s, q), o)
  {
    hide HashOf, Removed;
    UnlinkedFields(s, s.threads[q].prev, s.threads[q].fp);
  }

  lemma DroppedFields(s: Sys, q: nat)
    requires Heap(s) && Shaped(s) && q in s.threads && CutAt(s, s.threads[q])
    requires s.threads[q].fp in s.objs && s.threads[q].fp in s.tbl.refs
    requires s.threads[q].prev != 0 ==> s.threads[q].prev in s.objs
    ensures var x := s.threads[q];
      var s', h := Dropped(s, q), HashOf(s.objs[x.fp].id);
      && Shaped(s') && s'.objs.Keys == s.objs.Keys && s'.threads == s.threads[q := Finished(s, x, CutUnlock, 0)]
      && s'.hand == s.hand[x.fp := q] && s'.hashlock == s.hashlock && s'.design == s.design
      && s'.log == s.log + [Event(q, x.op, 0)]
      && (forall o :: o in s.objs ==>
            s'.objs[o] == if o == x.prev && x.prev != 0 then s.objs[o].(next := s.objs[x.fp].next) else s.objs[o])
      && s'.tbl == Table(s.tbl.chains[h := Cut(s.tbl.chains[h], x.k)], s.tbl.ids - {x.fp}, s.tbl.refs - {x.fp})
  {
    hide HashOf, Unlinked, Heap, Cut;
    var x := s.threads[q];
    UnlinkedFields(s, x.prev, x.fp);
    UnlinkedTable(s, x);
  }

  lemma DroppedChain(s: Sys, q: nat, h: nat)
    requires Heap(s) && Shaped(s) && q in s.threads && CutAt(s, s.threads[q]) && h < NHASH
    requires s.threads[q].fp in s.objs && s.threads[q].fp in s.tbl.refs
    requires s.threads[q].prev != 0 ==> s.threads[q].prev in s.objs
    ensures Shaped(Dropped(s, q)) && ChainHeld(Dropped(s, q), h)
  {
    hide HashOf, Unlinked, Heap, Cut, CutAt;
    var x := s.threads[q];
    DroppedFields(s, q);
    UnlinkedFields(s, x.prev, x.fp);
    if h == HashOf(s.objs[x.fp].id) { UnlinkedOwn(s, x); } else { UnlinkedOther(s, x, h); }
  }

  lemma DroppedOther(s: Sys, q: nat, o: nat)
    requires Heap(s) && HashLock(s) && Shaped(s) && q in s.threads && s.threads[q].pc == CutWrite
    requires CutAt(s, s.threads[q]) && s.threads[q].fp in s.objs && s.threads[q].fp in s.tbl.refs
    requires s.threads[q].prev != 0 ==> s.threads[q].prev in s.objs
    requires o in s.objs && o != s.threads[q].fp
    ensures Shaped(Dropped(s, q)) && o in Dropped(s, q).objs && ObjHeld(Dropped(s, q), o)
  {
    hide HashOf, Dropped, Heap, HashLock, Cut, Zeroed, InHand;
    var x := s.threads[q];
    HeapObj(s, o);
    DroppedFields(s, q);
    DroppedZeroed(s, q, o);
    if o in s.hand { DroppedHands(s, q, o); }
    CutEnds(s.tbl.chains[HashOf(s.objs[x.fp].id)], x.k);
  }

  /** An object in a hand stays in that hand. */
  lemma DroppedHands(s: Sys, q: nat, o: nat)
    requires q in s.threads && s.threads[q].pc == CutWrite && o != s.threads[q].fp && o in s.hand
    requires s.hand[o] in s.threads && InHand(s.threads[s.hand[o]], o)
    ensures s.hand[o] != q
  {
  }

  lemma DroppedObj(s: Sys, q: nat, o: nat)
    requires Heap(s) && HashLock(s) && Shaped(s) && q in s.threads && s.threads[q].pc == CutWrite
    requires CutAt(s, s.threads[q]) && s.threads[q].fp in s.objs && s.threads[q].fp in s.tbl.refs
    requires s.threads[q].prev != 0 ==> s.threads[q].prev in s.objs
    requires o in s.objs
    ensures Shaped(Dropped(s, q)) && o in Dropped(s, q).objs && ObjHeld(Dropped(s, q), o)
  {
    if o == s.threads[q].fp {
      hide HashOf, Dropped, Heap, HashLock, Cut, CutAt, Zeroed;
      HeapObj(s, o);
      DroppedFields(s, q);
    } else {
      hide HashOf, Dropped, Heap, HashLock, CutAt, ObjHeld;
      DroppedOther(s, q, o);
    }
  }

  lemma DroppedHeap(s: Sys, q: nat)
    requires Heap(s) && HashLock(s) && Shaped(s) && q in s.threads && s.threads[q].pc == CutWrite
    requires CutAt(s, s.threads[q]) && s.threads[q].fp in s.objs && s.threads[q].fp in s.tbl.refs
    requires s.threads[q].prev != 0 ==> s.threads[q].prev in s.objs
    ensures Heap(Dropped(s, q))
  {
    hide HashOf, Dropped, Cut, HashLock, CutAt, ChainHeld, ObjHeld;
    DroppedFields(s, q);
    var s' := Dropped(s, q);
    forall h | 0 <= h < NHASH ensures ChainHeld(s', h) {
      DroppedChain(s, q, h);
    }
    forall o | o in s'.objs ensures ObjHeld(s', o) {
      DroppedObj(s, q, o);
    }
  }

  lemma DroppedFrame(s: Sys, q: nat)
    requires Heap(s) && Shaped(s) && q in s.threads && CutAt(s, s.threads[q])
    requires s.threads[q].fp in s.objs && s.threads[q].fp in s.tbl.refs
    requires s.threads[q].prev != 0 ==> s.threads[q].prev in s.objs && s.threads[q].prev in s.tbl.refs
    requires MayCut(s, q)
    ensures Frame(s, Dropped(s, q), q)
  {
    hide HashOf, Dropped, Cut, ChainHeld, ObjHeld, CutAt;
    DroppedFields(s, q);
    var s', x := Dropped(s, q), s.threads[q];
    forall o, p | p != q && Owns(s, p, o) ensures Owns(s', p, o) && s'.objs[o].id == s.objs[o].id {
      OnlyReference(s.tbl.refs[x.fp], q, p);
    }
    forall o | o in s.objs && o in s.hand && s.hand[o] != q ensures SameObj(s, s', o) {
    }
    forall o, p | p != q && o in s.objs && o in s.tbl.refs && Guards(s, p, o) ensures CountKept(s, s', o) {
    }
  }

  /** The thread holds the table lock, whoever guards the count, and the only reference. */
  predicate MayCut(s: Sys, q: nat)
    requires q in s.threads
  {
    var holds :=
      var o := s.threads[q].fp;
      && o in s.objs && o in s.tbl.refs && s.hashlock == Some(q) && Guards(s, q, o)
      && q in s.tbl.refs[o] && |s.tbl.refs[o]| == 1;
    holds
  }

  lemma OnlyReference(refs: multiset<nat>, q: nat, p: nat)
    requires q in refs && |refs| == 1
    ensures p in refs ==> p == q
  {
    assert refs == multiset{q} + (refs - multiset{q});
  }

  lemma CutterMay(s: Sys, q: nat)
    requires HashLock(s) && ObjLocks(s) && q in s.threads && s.threads[q].fp in s.objs && s.threads[q].pc == CutWrite
    ensures s.hashlock == Some(q) && Guards(s, q, s.threads[q].fp)
  {
    assert LockOf(s, s.threads[q].fp, q);
  }

  lemma DroppedRights(d: Design, x: Local, y: Local)
    requires x.pc == CutWrite && y.pc == CutUnlock && y.fp == x.fp
    ensures SameLocks(d, x, y)
  {
  }

  lemma DroppedReady(s: Sys, q: nat, x: Local, s': Sys)
    requires Shaped(s') && x.op.Rele? && s'.log == s.log + [Event(q, x.op, 0)] && Mine(s', q, x.fp) && s'.objs[x.fp].ready
    ensures Ready(s', q, Finished(s, x, CutUnlock, 0))
  {
    assert ReadyCut(s', q, Finished(s, x, CutUnlock, 0));
  }

  /** A thread about to unlink an object, and what it has established. */
  predicate Cutter(s: Sys, q: nat)
    requires Shaped(s) && q in s.threads
  {
    var holds :=
      var x := s.threads[q];
      && x.pc == CutWrite && CutAt(s, x) && x.fp in s.objs && x.fp in s.tbl.refs && s.objs[x.fp].ready
      && (x.prev != 0 ==> x.prev in s.objs && x.prev in s.tbl.refs)
      && x.op == Rele(x.fp) && q in s.tbl.refs[x.fp] && |s.tbl.refs[x.fp]| == 1 && x.nxt == s.objs[x.fp].next;
    holds
  }

  lemma IsCutter(s: Sys, q: nat)
    requires Inv(s) && Shaped(s) && q in s.threads && s.threads[q].pc == CutWrite
    ensures Cutter(s, q)
  {
    hide Inv, Ready, Heap, HashLock, ObjLocks, History, CutAt, LastRelease;
    var x := s.threads[q];
    Parts(s);
    ReadyOf(s, q);
    CutReady(s, q, x);
    PrevThere(s, x);
    ObjReady(s, x.fp);
  }

  lemma CutterMoves(s: Sys, q: nat, ptr: nat)
    requires Heap(s) && Shaped(s) && q in s.threads && Cutter(s, q)
    ensures Step(s, q, ptr) == Outcome.Next(Dropped(s, q))
    ensures Apply(s.tbl, Event(q, s.threads[q].op, 0)) == Some(Dropped(s, q).tbl)
  {
    hide Heap, Step, Apply, Dropped, CutAt;
    DroppedApplies(s, q, s.threads[q]);
    CutWriteShape(s, q, ptr);
    DroppedTable(s, q);
  }

  lemma CutterLocks(s: Sys, q: nat)
    requires Heap(s) && HashLock(s) && ObjLocks(s) && Shaped(s) && q in s.threads && Cutter(s, q)
    ensures HashLock(Dropped(s, q)) && ObjLocks(Dropped(s, q))
  {
    hide Heap, HashLock, ObjLocks, Dropped, CutAt, SameLocks, Cut, HashOf;
    DroppedFields(s, q);
    DroppedRights(s.design, s.threads[q], Finished(s, s.threads[q], CutUnlock, 0));
    SameLocksKept(s, Dropped(s, q), q);
  }

  lemma CutterReady(s: Sys, q: nat)
    requires Heap(s) && Shaped(s) && q in s.threads && Cutter(s, q)
    ensures var s' := Dropped(s, q);
      Shaped(s') && s'.log == s.log + [Event(q, s.threads[q].op, 0)] && q in s'.threads && Ready(s', q, s'.threads[q])
  {
    hide Heap, Ready, Dropped, CutAt, Cut, HashOf;
    DroppedFields(s, q);
    DroppedReady(s, q, s.threads[q], Dropped(s, q));
  }

  lemma CutWriteKeeps(s: Sys, q: nat, ptr: nat)
    requires Inv(s) && Shaped(s) && q in s.threads && s.threads[q].pc == CutWrite
    ensures Step(s, q, ptr).Next? && GoodStep(s, Step(s, q, ptr).s, q)
  {
    hide Inv, Ready, Heap, HashLock, ObjLocks, Step, Frame, History, Apply, Dropped, CutAt;
    Parts(s);
    IsCutter(s, q);
    CutterMoves(s, q, ptr);
    CutterMay(s, q);
    DroppedHeap(s, q);
    DroppedFrame(s, q);
    CutterLocks(s, q);
    CutterReady(s, q);
    HistoryStep(s, Dropped(s, q), Event(q, s.threads[q].op, 0));
  }

  lemma DroppedTable(s: Sys, q: nat)
    requires Shaped(s) && q in s.threads
    requires s.threads[q].fp in s.objs && (s.threads[q].prev != 0 ==> s.threads[q].prev in s.objs)
    ensures Dropped(s, q).tbl == Unlinked(s, s.threads[q].prev, s.threads[q].fp).tbl
  {
  }
}
