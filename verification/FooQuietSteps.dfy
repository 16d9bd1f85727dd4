/** Steps that only read, move on, lock or unlock. */
module FooQuietSteps {
  import opened Options
  import opened FooTable
  import opened FooSystem
  import opened FooProtocol

  /** A lock that no other thread has, before and after. */
  predicate LockMove(a: Option<nat>, b: Option<nat>, q: nat) {
    a == b || ((a == None || a == Some(q)) && (b == None || b == Some(q)))
  }

  predicate SameButLock(a: Obj, b: Obj, q: nat) {
    b == a.(lock := b.lock) && LockMove(a.lock, b.lock, q)
  }

  /** Only registers and locks change, and only those of thread `q`. */
  ghost predicate LocksOnly(s: Sys, s': Sys, q: nat) {
    var holds :=
      && s'.design == s.design && s'.heads == s.heads && s'.tbl == s.tbl && s'.log == s.log && s'.hand == s.hand
      && s'.objs.Keys == s.objs.Keys && (forall o :: o in s.objs ==> SameButLock(s.objs[o], s'.objs[o], q))
      && (forall o :: o in s.objs && o in s.hand && s.hand[o] != q ==> s'.objs[o] == s.objs[o])
      && LockMove(s.hashlock, s'.hashlock, q)
      && (forall p :: p != q ==> (p in s'.threads <==> p in s.threads) && (p in s.threads ==> s'.threads[p] == s.threads[p]));
    holds
  }

  /** The thread keeps what it has in its hands, and does not begin or end the unlinking of an object
      whose count is already zero. */
  predicate Steady(s: Sys, s': Sys, q: nat)
    requires q in s.threads
  {
    var holds :=
      var x := s.threads[q];
      && (InHand(x, x.fp) && x.fp in s.hand && s.hand[x.fp] == q ==> q in s'.threads && InHand(s'.threads[q], x.fp))
      && (s.design.OneLock? ==>
            if Cutting(x.pc) then q in s'.threads && Cutting(s'.threads[q].pc) && s'.threads[q].fp == x.fp && s'.hashlock == s.hashlock
            else q in s'.threads ==> !Cutting(s'.threads[q].pc));
    holds
  }

  lemma QuietZeroed(s: Sys, s': Sys, q: nat, o: nat)
    requires HashLock(s) && q in s.threads && LocksOnly(s, s', q) && Steady(s, s', q)
    ensures Zeroed(s', o) == Zeroed(s, o)
  {
  }

  lemma QuietObj(s: Sys, s': Sys, q: nat, o: nat)
    requires Shaped(s) && HashLock(s) && q in s.threads && LocksOnly(s, s', q) && Steady(s, s', q)
    requires o in s.objs && ObjHeld(s, o)
    ensures ObjHeld(s', o)
  {
    hide Zeroed, HashOf;
    QuietZeroed(s, s', q, o);
    assert SameButLock(s.objs[o], s'.objs[o], q);
  }

  lemma QuietHeap(s: Sys, s': Sys, q: nat)
    requires Heap(s) && HashLock(s) && q in s.threads && LocksOnly(s, s', q) && Steady(s, s', q)
    ensures Heap(s')
  {
    hide ObjHeld, Steady, HashOf;
    forall h | 0 <= h < NHASH ensures ChainHeld(s', h) {
      assert ChainHeld(s, h);
      ChainLocks(s, s', q, h);
    }
    forall o | o in s'.objs ensures ObjHeld(s', o) {
      QuietObj(s, s', q, o);
    }
  }

  lemma ChainLocks(s: Sys, s': Sys, q: nat, h: nat)
    requires Shaped(s) && h < NHASH && ChainHeld(s, h) && LocksOnly(s, s', q)
    ensures ChainHeld(s', h)
  {
    hide HashOf;
    forall k | 0 <= k < |s.tbl.chains[h]|
      ensures var o := s.tbl.chains[h][k]; o in s'.objs && s'.objs[o].next == s.objs[o].next && s'.objs[o].id == s.objs[o].id
    {
      assert SameButLock(s.objs[s.tbl.chains[h][k]], s'.objs[s.tbl.chains[h][k]], q);
    }
  }

  lemma QuietFrame(s: Sys, s': Sys, q: nat)
    requires Shaped(s) && q in s.threads && LocksOnly(s, s', q)
    ensures Frame(s, s', q)
  {
    hide HashOf, Guards;
    forall o, p | p != q && Owns(s, p, o) ensures Owns(s', p, o) && s'.objs[o].id == s.objs[o].id {
      assert SameButLock(s.objs[o], s'.objs[o], q);
    }
    forall o | o in s.objs && o in s.tbl.refs ensures CountKept(s, s', o) {
      assert SameButLock(s.objs[o], s'.objs[o], q);
    }
    if s.hashlock.Some? && s.hashlock.value != q {
      forall o | o in s.tbl.refs && o in s.objs
        ensures o in s'.objs && s'.objs[o].next == s.objs[o].next && s'.objs[o].id == s.objs[o].id
      {
        assert SameButLock(s.objs[o], s'.objs[o], q);
      }
    }
  }

  // ---------- locks ----------

  predicate OwnLock(s: Sys, q: nat, o: nat)
    requires o in s.objs
  {
    (q in s.threads && HoldsObj(s.design, s.threads[q]) && s.threads[q].fp == o) <==> s.objs[o].lock == Some(q)
  }

  /** The locks of thread `q` are as its program says. */
  ghost predicate OwnLocks(s: Sys, q: nat) {
    var holds :=
      && (s.hashlock == Some(q) <==> q in s.threads && HoldsHash(s.design, s.threads[q]))
      && (q in s.threads && HoldsObj(s.design, s.threads[q]) ==> s.threads[q].fp in s.objs)
      && forall o :: o in s.objs ==> OwnLock(s, q, o);
    holds
  }

  predicate LocksMove(s: Sys, s': Sys, q: nat) {
    var holds :=
      && s'.design == s.design && LockMove(s.hashlock, s'.hashlock, q)
      && (forall o :: o in s.objs && o in s'.objs ==> LockMove(s.objs[o].lock, s'.objs[o].lock, q))
      && (forall o :: o in s'.objs && o !in s.objs ==> s'.objs[o].lock == None)
      && (forall o :: o in s.objs && o !in s'.objs ==> s.objs[o].lock == None);
    holds
  }

  ghost predicate OthersStay(s: Sys, s': Sys, q: nat) {
    var holds :=
      forall p :: p != q ==> (p in s'.threads <==> p in s.threads) && (p in s.threads ==> s'.threads[p] == s.threads[p]);
    holds
  }

  lemma LocksKept(s: Sys, s': Sys, q: nat)
    requires HashLock(s) && ObjLocks(s) && LocksMove(s, s', q) && OthersStay(s, s', q) && OwnLocks(s', q)
    ensures HashLock(s') && ObjLocks(s')
  {
    hide HoldsHash, HoldsObj;
    forall o, t | o in s'.objs && t in s'.threads ensures LockOf(s', o, t) {
      assert OwnLock(s', q, o);
      assert t != q && o in s.objs ==> LockOf(s, o, t);
    }
    forall o | o in s'.objs && s'.objs[o].lock.Some? ensures s'.objs[o].lock.value in s'.threads {
      assert OwnLock(s', q, o);
    }
    forall t | t in s'.threads && HoldsObj(s'.design, s'.threads[t]) ensures s'.threads[t].fp in s'.objs {
      if t != q {
        assert LockOf(s, s.threads[t].fp, t);
      }
    }
  }

  lemma LocksOf(s: Sys, q: nat)
    requires HashLock(s) && ObjLocks(s) && q in s.threads
    ensures OwnLocks(s, q)
  {
    hide HoldsHash, HoldsObj;
    forall o | o in s.objs ensures OwnLock(s, q, o) {
      assert LockOf(s, o, q);
    }
  }

  /** Objects that come or go have a free mutex; the others keep their locks. */
  ghost predicate LocksStay(s: Sys, s': Sys, q: nat) {
    var holds :=
      && s'.design == s.design && s'.hashlock == s.hashlock && OthersStay(s, s', q)
      && (forall o :: o in s.objs && o in s'.objs ==> s'.objs[o].lock == s.objs[o].lock)
      && (forall o :: o in s'.objs && o !in s.objs ==> s'.objs[o].lock == None)
      && (forall o :: o in s.objs && o !in s'.objs ==> s.objs[o].lock == None);
    holds
  }

  predicate SameLocks(d: Design, x: Local, y: Local) {
    && (HoldsHash(d, x) <==> HoldsHash(d, y)) && (HoldsObj(d, x) <==> HoldsObj(d, y))
    && (HoldsObj(d, x) ==> y.fp == x.fp)
  }

  lemma SameLocksKept(s: Sys, s': Sys, q: nat)
    requires HashLock(s) && ObjLocks(s) && q in s.threads && q in s'.threads && LocksStay(s, s', q)
    requires SameLocks(s.design, s.threads[q], s'.threads[q])
    ensures HashLock(s') && ObjLocks(s')
  {
    hide HoldsHash, HoldsObj, HashLock, ObjLocks;
    LocksOf(s, q);
    forall o | o in s'.objs ensures OwnLock(s', q, o) {
      assert o in s.objs ==> OwnLock(s, q, o);
      LockedThere(s, q, o);
    }
    LockedStays(s, s', q);
    LocksKept(s, s', q);
  }

  lemma LockedThere(s: Sys, q: nat, o: nat)
    requires ObjLocks(s) && q in s.threads
    ensures HoldsObj(s.design, s.threads[q]) && s.threads[q].fp == o ==> o in s.objs
  {
    hide HoldsObj;
  }

  lemma LockedStays(s: Sys, s': Sys, q: nat)
    requires ObjLocks(s) && q in s.threads && LocksStay(s, s', q)
    ensures HoldsObj(s.design, s.threads[q]) ==> s.threads[q].fp in s'.objs
  {
    hide HoldsObj;
    if HoldsObj(s.design, s.threads[q]) {
      assert LockOf(s, s.threads[q].fp, q);
    }
  }

  lemma NoLocksKept(s: Sys, s': Sys, q: nat)
    requires HashLock(s) && ObjLocks(s) && q in s.threads && q !in s'.threads && LocksStay(s, s', q)
    requires !HoldsHash(s.design, s.threads[q]) && !HoldsObj(s.design, s.threads[q])
    ensures HashLock(s') && ObjLocks(s')
  {
    hide HoldsHash, HoldsObj, HashLock, ObjLocks;
    LocksOf(s, q);
    forall o | o in s'.objs ensures OwnLock(s', q, o) {
      assert o in s.objs ==> OwnLock(s, q, o);
    }
    LocksKept(s, s', q);
  }

  /** The lemma for all steps that only move on, lock or unlock. */
  lemma QuietKeeps(s: Sys, s': Sys, q: nat)
    requires Inv(s) && q in s.threads && LocksOnly(s, s', q) && Steady(s, s', q) && OwnLocks(s', q)
    requires q in s'.threads ==> Ready(s', q, s'.threads[q])
    ensures GoodStep(s, s', q)
  {
    hide Ready, Heap, HashLock, ObjLocks, Steady, OwnLocks, Frame;
    Parts(s);
    QuietHeap(s, s', q);
    QuietFrame(s, s', q);
    LocksOnlyMove(s, s', q);
    LocksKept(s, s', q);
  }

  lemma Parts(s: Sys)
    requires Inv(s)
    ensures Heap(s) && Shaped(s) && HashLock(s) && ObjLocks(s) && History(s)
  {
  }

  lemma ReadyOf(s: Sys, q: nat)
    requires Inv(s) && q in s.threads
    ensures Shaped(s) && Ready(s, q, s.threads[q])
  {
  }

  lemma LocksOnlyMove(s: Sys, s': Sys, q: nat)
    requires LocksOnly(s, s', q)
    ensures LocksMove(s, s', q) && OthersStay(s, s', q)
  {
    forall o | o in s.objs ensures o in s'.objs && LockMove(s.objs[o].lock, s'.objs[o].lock, q) {
      assert SameButLock(s.objs[o], s'.objs[o], q);
    }
  }

  // ---------- moving on ----------

  lemma PutKeeps(s: Sys, q: nat, y: Local)
    requires Inv(s) && Shaped(s) && q in s.threads && SameLocks(s.design, s.threads[q], y)
    requires Steady(s, Put(s, q, y), q) && Ready(s, q, y)
    ensures GoodStep(s, Put(s, q, y), q)
  {
    hide Inv, Ready, HoldsHash, HoldsObj, Steady, GoodStep, Heap, HashLock, ObjLocks;
    Parts(s);
    var s' := Put(s, q, y);
    LocksOf(s, q);
    forall o | o in s'.objs ensures OwnLock(s', q, o) {
      assert OwnLock(s, q, o);
    }
    ReadyIgnoresThreads(s, s', q, y);
    QuietKeeps(s, s', q);
  }

  lemma FactsIgnoreThreads(s: Sys, s': Sys, q: nat, y: Local)
    requires Shaped(s) && s' == s.(threads := s'.threads, hashlock := s'.hashlock)
    ensures forall o :: Owns(s', q, o) == Owns(s, q, o) && Mine(s', q, o) == Mine(s, q, o) && Kept(s', o) == Kept(s, o)
    ensures Shaped(s') && Logged(s', q, y) == Logged(s, q, y)
    ensures y.op.Find? || y.op.Alloc? ==> Searched(s', y.op.id, y.k) == Searched(s, y.op.id, y.k)
    ensures CutAt(s', y) == CutAt(s, y) && ScanAt(s', y) == ScanAt(s, y)
  {
    hide HashOf;
  }

  lemma SameAlloc(s: Sys, s': Sys, q: nat, y: Local)
    requires Shaped(s) && s' == s.(threads := s'.threads, hashlock := s'.hashlock)
    ensures Shaped(s') && ReadyAlloc(s', q, y) == ReadyAlloc(s, q, y)
  {
    hide HashOf, Owns, Mine, Kept, Logged, Searched, CutAt, ScanAt;
    FactsIgnoreThreads(s, s', q, y);
  }

  lemma SameFind(s: Sys, s': Sys, q: nat, y: Local)
    requires Shaped(s) && s' == s.(threads := s'.threads, hashlock := s'.hashlock)
    ensures Shaped(s') && ReadyFind(s', q, y) == ReadyFind(s, q, y)
  {
    hide HashOf, Owns, Mine, Kept, Logged, Searched, CutAt, ScanAt;
    FactsIgnoreThreads(s, s', q, y);
  }

  lemma SameHold(s: Sys, s': Sys, q: nat, y: Local)
    requires Shaped(s) && s' == s.(threads := s'.threads, hashlock := s'.hashlock)
    ensures Shaped(s') && ReadyHold(s', q, y) == ReadyHold(s, q, y)
  {
    hide HashOf, Owns, Mine, Kept, Logged, Searched, CutAt, ScanAt;
    FactsIgnoreThreads(s, s', q, y);
  }

  lemma SameRele(s: Sys, s': Sys, q: nat, y: Local)
    requires Shaped(s) && s' == s.(threads := s'.threads, hashlock := s'.hashlock)
    ensures Shaped(s') && ReadyRele(s', q, y) == ReadyRele(s, q, y)
  {
    hide HashOf, Owns, Mine, Kept, Logged, Searched, CutAt, ScanAt;
    FactsIgnoreThreads(s, s', q, y);
  }

  lemma SameCut(s: Sys, s': Sys, q: nat, y: Local)
    requires Shaped(s) && s' == s.(threads := s'.threads, hashlock := s'.hashlock)
    ensures Shaped(s') && ReadyCut(s', q, y) == ReadyCut(s, q, y)
  {
    hide HashOf, Owns, Mine, Kept, Logged, Searched, CutAt, ScanAt;
    FactsIgnoreThreads(s, s', q, y);
  }

  /** What a thread relies on does not depend on other threads' registers, nor on the table lock. */
  lemma ReadyIgnoresThreads(s: Sys, s': Sys, q: nat, y: Local)
    requires Shaped(s) && s' == s.(threads := s'.threads, hashlock := s'.hashlock)
    ensures Shaped(s') && Ready(s', q, y) == Ready(s, q, y)
  {
    hide ReadyAlloc, ReadyFind, ReadyHold, ReadyRele, ReadyCut;
    SameAlloc(s, s', q, y);
    SameFind(s, s', q, y);
    SameHold(s, s', q, y);
    SameRele(s, s', q, y);
    SameCut(s, s', q, y);
  }

  // ---------- the steps of a search ----------

  lemma ChainIds(s: Sys, h: nat)
    requires Heap(s) && h < NHASH
    ensures s.heads[h] == Node(s.tbl.chains[h], 0)
    ensures forall k :: 0 <= k < |s.tbl.chains[h]| ==> s.tbl.chains[h][k] != 0 && s.tbl.chains[h][k] in s.objs
  {
    assert ChainHeld(s, h);
  }

  lemma FindStarts(s: Sys, q: nat, x: Local)
    requires Heap(s) && Shaped(s) && ReadyFind(s, q, x) && x.pc == FindHead
    ensures ReadyFind(s, q, x.(fp := s.heads[HashOf(x.op.id)], k := 0, pc := FindTest))
  {
    hide Heap, HashOf;
    ChainIds(s, HashOf(x.op.id));
  }

  lemma FindTests(s: Sys, q: nat, x: Local)
    requires Heap(s) && Shaped(s) && ReadyFind(s, q, x) && x.pc == FindTest && x.fp != 0
    ensures x.fp in s.objs
    ensures s.objs[x.fp].id != x.op.id ==> ReadyFind(s, q, x.(pc := FindNext))
    ensures s.objs[x.fp].id == x.op.id && s.design.OneLock? ==> ReadyHold(s, q, x.(pc := HoldRead))
    ensures s.objs[x.fp].id == x.op.id && s.design.DropAndRecheck? ==> ReadyHold(s, q, x.(pc := HoldLockObj))
  {
    hide Heap, HashOf, Searched;
    OnChain(s, HashOf(x.op.id), x.k);
    assert FoundFirst(s, x) <==> s.objs[x.fp].id == x.op.id;
  }

  lemma FindGoesOn(s: Sys, q: nat, x: Local)
    requires Heap(s) && Shaped(s) && ReadyFind(s, q, x) && x.pc == FindNext
    ensures x.fp in s.objs && ReadyFind(s, q, x.(fp := s.objs[x.fp].next, k := x.k + 1, pc := FindTest))
  {
    hide Heap, HashOf, Searched;
    OnChain(s, HashOf(x.op.id), x.k);
    SearchOn(s, x.op.id, x.k);
    SearchShort(s, x.op.id, x.k + 1);
  }

  lemma SearchShort(s: Sys, id: int, k: nat)
    requires Shaped(s) && Searched(s, id, k)
    ensures k <= |s.tbl.chains[HashOf(id)]|
  {
  }

  lemma SearchOn(s: Sys, id: int, k: nat)
    requires Shaped(s) && Searched(s, id, k) && k < |s.tbl.chains[HashOf(id)]|
    requires var o := s.tbl.chains[HashOf(id)][k]; o in s.objs && s.objs[o].id != id
    ensures Searched(s, id, k + 1)
  {
    hide HashOf;
  }
}
