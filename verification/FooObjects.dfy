/** The steps that make an object, publish it, unlink it and free it. */
module FooObjects {
  import opened Options
  import opened FooTable
  import opened FooSystem
  import opened FooProtocol
  import opened FooQuietSteps
  import opened FooLockSteps
  import opened FooHeapMoves
  import opened FooSteps
  import opened FooWrites

  // ---------- a step that changes only what the thread has in its hands ----------

  /** A step of `q` that changes no list, no reference and no count, and no object but one in its own
      hands. */
  ghost predicate PrivateStep(s: Sys, s': Sys, q: nat) {
    var holds :=
      && Shaped(s) && Shaped(s') && s'.design == s.design && s'.heads == s.heads && s'.hashlock == s.hashlock
      && s'.tbl == s.tbl && s'.log == s.log && OthersStay(s, s', q)
      && (forall o :: o in s.objs && !(o in s.hand && s.hand[o] == q) ==> o in s'.objs && s'.objs[o] == s.objs[o])
      && (forall o :: o in s.hand && s.hand[o] != q ==> o in s'.hand && s'.hand[o] == s.hand[o]);
    holds
  }

  lemma PrivateFrame(s: Sys, s': Sys, q: nat)
    requires Heap(s) && PrivateStep(s, s', q)
    ensures Frame(s, s', q)
  {
    hide ChainHeld, ObjHeld, HashOf, Guards;
    forall o | o in s.objs && o in s.tbl.refs ensures CountKept(s, s', o) {
    }
    forall o, p | p != q && Owns(s, p, o) ensures Owns(s', p, o) && s'.objs[o].id == s.objs[o].id {
    }
    forall o | o in s.objs && o in s.hand && s.hand[o] != q ensures SameObj(s, s', o) {
    }
  }

  // ---------- malloc ----------

  function Fresh(s: Sys, q: nat, ptr: nat, id: int): Sys
    requires q in s.threads
  {
    SetObj(Put(s, q, s.threads[q].(fp := ptr, pc := AllocLock)), ptr, Obj(1, None, true, id, 0)).(hand := s.hand[ptr := q])
  }

  lemma FreshHeap(s: Sys, q: nat, ptr: nat, id: int)
    requires Heap(s) && HashLock(s) && q in s.threads && s.threads[q].pc == AllocNew && ptr != 0 && ptr !in s.objs
    ensures Heap(Fresh(s, q, ptr, id))
  {
    hide Heap;
    var y := s.threads[q].(fp := ptr, pc := AllocLock);
    HeapPut(s, q, y);
    HeapNew(Put(s, q, y), q, ptr, Obj(1, None, true, id, 0));
  }

  lemma FreshLocks(s: Sys, q: nat, ptr: nat, id: int)
    requires HashLock(s) && ObjLocks(s) && q in s.threads && s.threads[q].pc == AllocNew && ptr !in s.objs
    ensures HashLock(Fresh(s, q, ptr, id)) && ObjLocks(Fresh(s, q, ptr, id))
  {
    hide SameLocks, HashLock, ObjLocks;
    FirstLocks(s.design, s.threads[q], s.threads[q].(fp := ptr, pc := AllocLock));
    SameLocksKept(s, Fresh(s, q, ptr, id), q);
  }

  lemma FirstLocks(d: Design, x: Local, y: Local)
    requires (x.pc == AllocNew && y.pc == AllocLock) || (x.pc == AllocHead && y.pc == AllocLockObj)
    ensures SameLocks(d, x, y)
  {
  }

  lemma NoLocks(d: Design, x: Local)
    requires x.pc == AllocNew || x.pc == Free
    ensures !HoldsHash(d, x) && !HoldsObj(d, x)
  {
  }

  lemma NewReady(s: Sys, q: nat, x: Local)
    requires Shaped(s) && Ready(s, q, x) && x.pc == AllocNew
    ensures x.op.Alloc? && !x.done
  {
    hide HashOf;
  }

  lemma FreshReady(s: Sys, q: nat, ptr: nat, x: Local)
    requires Shaped(s) && q in s.threads && x == s.threads[q] && x.op.Alloc? && !x.done
    ensures var s' := Fresh(s, q, ptr, x.op.id); Shaped(s') && Ready(s', q, s'.threads[q])
  {
    hide HashOf;
  }

  lemma FreshKeeps(s: Sys, q: nat, ptr: nat)
    requires Inv(s) && Shaped(s) && q in s.threads && s.threads[q].pc == AllocNew && ptr != 0 && ptr !in s.objs
    ensures Step(s, q, ptr).Next? && GoodStep(s, Step(s, q, ptr).s, q)
  {
    hide Inv, Ready, Heap, HashLock, ObjLocks, Frame, History;
    var x := s.threads[q];
    Parts(s);
    ReadyOf(s, q);
    NewReady(s, q, x);
    var s' := Fresh(s, q, ptr, x.op.id);
    assert Step(s, q, ptr) == Outcome.Next(s');
    FreshHeap(s, q, ptr, x.op.id);
    FreshLocks(s, q, ptr, x.op.id);
    FreshFrame(s, q, ptr, x.op.id);
    FreshReady(s, q, ptr, x);
    SameHistory(s, s');
  }

  lemma FreshFrame(s: Sys, q: nat, ptr: nat, id: int)
    requires Heap(s) && q in s.threads && ptr !in s.objs
    ensures Frame(s, Fresh(s, q, ptr, id), q)
  {
    hide ChainHeld, ObjHeld, HashOf, Frame;
    PrivateFrame(s, Fresh(s, q, ptr, id), q);
  }

  lemma SameHistory(s: Sys, s': Sys)
    requires History(s) && s'.log == s.log && s'.tbl == s.tbl
    ensures History(s')
  {
  }

  /** malloc, or the initialisation of the mutex, fails: the call returns NULL. */
  lemma FailKeeps(s: Sys, q: nat)
    requires Inv(s) && Shaped(s) && q in s.threads && s.threads[q].pc == AllocNew
    ensures Step(s, q, 0).Next? && GoodStep(s, Step(s, q, 0).s, q)
  {
    hide Inv, Ready, Heap, HashLock, ObjLocks, Frame, History, Apply, GoodStep, OwnLocks;
    var x := s.threads[q];
    Parts(s);
    ReadyOf(s, q);
    NewReady(s, q, x);
    FailApplies(s, q, x);
    EffectShape(s, q, x, AllocNew, 0, s.tbl);
    assert Put(s, q, Finished(s, x, AllocNew, 0)).threads - {q} == s.threads - {q};
    LeaveMoves(s, q);
    SilentKeeps(s, Return(s, q), q, Event(q, x.op, 0));
  }

  lemma FailApplies(s: Sys, q: nat, x: Local)
    requires Heap(s) && x.op.Alloc?
    ensures Apply(s.tbl, Event(q, x.op, 0)) == Some(s.tbl)
  {
    hide ChainHeld, ObjHeld;
  }

  lemma LeaveMoves(s: Sys, q: nat)
    requires Heap(s) && HashLock(s) && ObjLocks(s) && q in s.threads && s.threads[q].pc == AllocNew
    ensures var s2 := Return(s, q); Frame(s, s2, q) && Heap(s2) && HashLock(s2) && ObjLocks(s2) && Shaped(s2)
  {
    hide Heap, HashLock, ObjLocks, HoldsHash, HoldsObj;
    var s2 := Return(s, q);
    HeapShaped(s);
    NoLocks(s.design, s.threads[q]);
    QuietHeap(s, s2, q);
    QuietFrame(s, s2, q);
    NoLocksKept(s, s2, q);
  }

  lemma HeapShaped(s: Sys)
    requires Heap(s)
    ensures Shaped(s)
  {
  }

  // ---------- an object in hand: linked to the chain, destroyed ----------

  /** The step writes the object in hand and moves on, under the same locks. */
  lemma HandKeeps(s: Sys, q: nat, obj: Obj, y: Local)
    requires Inv(s) && q in s.threads && Mine(s, q, s.threads[q].fp) && obj.lock == s.objs[s.threads[q].fp].lock
    requires SameLocks(s.design, s.threads[q], y) && y.fp == s.threads[q].fp && InHand(y, y.fp)
    requires !Cutting(s.threads[q].pc)
    requires Shaped(s) && Ready(Put(SetObj(s, y.fp, obj), q, y), q, y)
    ensures GoodStep(s, Put(SetObj(s, y.fp, obj), q, y), q)
  {
    hide Inv, Ready, Heap, HashLock, ObjLocks, Frame, History, SameLocks;
    Parts(s);
    var s1, s' := SetObj(s, y.fp, obj), Put(SetObj(s, y.fp, obj), q, y);
    HeapPrivate(s, y.fp, obj);
    SetObjHashLock(s, y.fp, obj);
    HeapPut(s1, q, y);
    HandLocks(s, q, obj, y);
    HandFrame(s, s', q);
    SameHistory(s, s');
  }

  lemma SetObjHashLock(s: Sys, o: nat, obj: Obj)
    requires HashLock(s)
    ensures HashLock(SetObj(s, o, obj))
  {
  }

  lemma HandFrame(s: Sys, s': Sys, q: nat)
    requires Heap(s) && q in s.threads && Mine(s, q, s.threads[q].fp)
    requires s' == s.(objs := s'.objs, threads := s'.threads) && OthersStay(s, s', q)
    requires s'.objs.Keys == s.objs.Keys && forall o :: o in s.objs && o != s.threads[q].fp ==> s'.objs[o] == s.objs[o]
    ensures Frame(s, s', q)
  {
    hide ChainHeld, ObjHeld, HashOf, Frame;
    PrivateFrame(s, s', q);
  }

  lemma HandLocks(s: Sys, q: nat, obj: Obj, y: Local)
    requires HashLock(s) && ObjLocks(s) && q in s.threads && s.threads[q].fp in s.objs
    requires obj.lock == s.objs[s.threads[q].fp].lock && SameLocks(s.design, s.threads[q], y) && y.fp == s.threads[q].fp
    ensures HashLock(Put(SetObj(s, y.fp, obj), q, y)) && ObjLocks(Put(SetObj(s, y.fp, obj), q, y))
  {
    hide SameLocks, HashLock, ObjLocks;
    SameLocksKept(s, Put(SetObj(s, y.fp, obj), q, y), q);
  }

  lemma LinkReady(s: Sys, q: nat, x: Local)
    requires Shaped(s) && Ready(s, q, x) && x.pc == AllocLink
    ensures x.op.Alloc? && Mine(s, q, x.fp)
    ensures var obj := s.objs[x.fp].(next := s.heads[HashOf(x.op.id)]);
      var y := x.(pc := AllocHead);
      Ready(Put(SetObj(s, x.fp, obj), q, y), q, y)
  {
    hide HashOf;
  }

  lemma LinkKeeps(s: Sys, q: nat, ptr: nat)
    requires Inv(s) && Shaped(s) && q in s.threads && s.threads[q].pc == AllocLink
    ensures Step(s, q, ptr).Next? && GoodStep(s, Step(s, q, ptr).s, q)
  {
    hide Inv, Ready, GoodStep, HashOf;
    var x := s.threads[q];
    ReadyOf(s, q);
    LinkReady(s, q, x);
    var obj := s.objs[x.fp].(next := s.heads[HashOf(x.op.id)]);
    assert Step(s, q, ptr) == Outcome.Next(Put(SetObj(s, x.fp, obj), q, x.(pc := AllocHead)));
    HandKeeps(s, q, obj, x.(pc := AllocHead));
  }

  lemma DestroyReady(s: Sys, q: nat, x: Local)
    requires Shaped(s) && Ready(s, q, x) && x.pc == Destroy
    ensures Mine(s, q, x.fp) && s.objs[x.fp].ready && s.objs[x.fp].lock == None && x.op.Rele? && Logged(s, q, x)
  {
    hide HashOf, Logged;
    assert ReadyCut(s, q, x);
  }

  lemma DestroyedReady(s: Sys, q: nat, x: Local, obj: Obj)
    requires Shaped(s) && x.pc == Destroy && Mine(s, q, x.fp) && x.op.Rele? && Logged(s, q, x)
    ensures Ready(Put(SetObj(s, x.fp, obj), q, x.(pc := Free)), q, x.(pc := Free))
  {
    var s' := Put(SetObj(s, x.fp, obj), q, x.(pc := Free));
    assert ReadyCut(s', q, x.(pc := Free));
  }

  lemma DestroyShape(s: Sys, q: nat, ptr: nat)
    requires Shaped(s) && q in s.threads && s.threads[q].pc == Destroy && s.threads[q].fp in s.objs
    requires s.objs[s.threads[q].fp].ready && s.objs[s.threads[q].fp].lock == None
    requires forall u :: u in s.threads && u != q ==> !Awaits(s.threads[u], s.threads[q].fp)
    ensures var x := s.threads[q];
      Step(s, q, ptr)
      == Outcome.Next(Put(SetObj(s, x.fp, s.objs[x.fp].(ready := false)), q, x.(pc := Free)))
  {
    hide HashOf, Awaits;
  }

  lemma DestroyRights(d: Design, x: Local)
    requires x.pc == Destroy
    ensures SameLocks(d, x, x.(pc := Free)) && InHand(x.(pc := Free), x.fp) && !Cutting(x.pc)
  {
  }

  /** Nobody has or awaits the mutex that is destroyed. */
  lemma DestroyKeeps(s: Sys, q: nat, ptr: nat)
    requires Inv(s) && Shaped(s) && q in s.threads && s.threads[q].pc == Destroy
    ensures Step(s, q, ptr).Next? && GoodStep(s, Step(s, q, ptr).s, q)
  {
    hide Inv, Ready, GoodStep, HashOf, Awaits, Step, SameLocks, InHand, Cutting, Logged;
    var x := s.threads[q];
    ReadyOf(s, q);
    DestroyReady(s, q, x);
    forall u | u in s.threads && u != q ensures !Awaits(s.threads[u], x.fp) {
      NobodyElse(s, q, x.fp, u);
    }
    DestroyShape(s, q, ptr);
    DestroyedReady(s, q, x, s.objs[x.fp].(ready := false));
    DestroyRights(s.design, x);
    HandKeeps(s, q, s.objs[x.fp].(ready := false), x.(pc := Free));
  }

  // ---------- free ----------

  lemma FreeReady(s: Sys, q: nat, x: Local)
    requires Shaped(s) && Ready(s, q, x) && x.pc == Free
    ensures Mine(s, q, x.fp)
  {
    hide HashOf, Logged, Mine;
    assert ReadyCut(s, q, x);
  }

  function Freed(s: Sys, o: nat): Sys {
    s.(objs := s.objs - {o}, hand := s.hand - {o})
  }

  lemma FreedLocks(s: Sys, q: nat, o: nat)
    requires HashLock(s) && ObjLocks(s) && q in s.threads && s.threads[q].pc == Free && o in s.objs && s.objs[o].lock == None
    ensures HashLock(Return(Freed(s, o), q)) && ObjLocks(Return(Freed(s, o), q))
  {
    hide HoldsHash, HoldsObj, HashLock, ObjLocks;
    NoLocks(s.design, s.threads[q]);
    NoLocksKept(s, Return(Freed(s, o), q), q);
  }

  lemma FreedFrame(s: Sys, q: nat, o: nat)
    requires Heap(s) && q in s.threads && Mine(s, q, o)
    ensures Frame(s, Return(Freed(s, o), q), q)
  {
    hide ChainHeld, ObjHeld, HashOf, Frame;
    PrivateFrame(s, Return(Freed(s, o), q), q);
  }

  lemma FreeIsCut(s: Sys, q: nat, ptr: nat)
    requires Shaped(s) && q in s.threads && s.threads[q].pc == Free
    ensures Step(s, q, ptr) == CutStep(s, q, s.threads[q])
  {
    hide AllocStep, FindStep, HoldStep, CutStep, ReleStep;
  }

  lemma FreeShape(s: Sys, q: nat, ptr: nat)
    requires Shaped(s) && q in s.threads && s.threads[q].pc == Free && s.threads[q].fp in s.objs
    ensures Step(s, q, ptr) == Outcome.Next(Return(Freed(s, s.threads[q].fp), q))
  {
    hide HashOf, Awaited, Step;
    FreeIsCut(s, q, ptr);
  }

  lemma FreeKeeps(s: Sys, q: nat, ptr: nat)
    requires Inv(s) && Shaped(s) && q in s.threads && s.threads[q].pc == Free
    ensures Step(s, q, ptr).Next? && GoodStep(s, Step(s, q, ptr).s, q)
  {
    hide Inv, Ready, Heap, HashLock, ObjLocks, Frame, History, HoldsObj, HoldsHash, Step;
    var x := s.threads[q];
    Parts(s);
    ReadyOf(s, q);
    FreeReady(s, q, x);
    NoLocks(s.design, x);
    NobodyLocks(s, q, x.fp);
    var s' := Return(Freed(s, x.fp), q);
    FreeShape(s, q, ptr);
    HeapGone(s, x.fp);
    FreedHashLock(s, x.fp);
    HeapReturn(Freed(s, x.fp), q);
    FreedLocks(s, q, x.fp);
    FreedFrame(s, q, x.fp);
    SameHistory(s, s');
  }

  lemma FreedHashLock(s: Sys, o: nat)
    requires HashLock(s)
    ensures HashLock(Freed(s, o))
  {
  }

  // ---------- publishing ----------

  lemma HeadReady(s: Sys, q: nat, x: Local)
    requires Shaped(s) && Ready(s, q, x) && x.pc == AllocHead
    ensures x.op.Alloc? && Mine(s, q, x.fp) && x.fp in s.objs
    ensures s.objs[x.fp] == Obj(1, None, true, x.op.id, s.heads[HashOf(x.op.id)])
  {
    hide HashOf;
  }

  /** The state after the new object became the first of its chain. */
  function Linked(s: Sys, q: nat, x: Local): Sys
    requires Shaped(s) && x.op.Alloc?
  {
    Put(Pushed(s, q, x.fp, x.op.id), q, Finished(s, x, AllocLockObj, x.fp)).(log := s.log + [Event(q, x.op, x.fp)])
  }

  lemma LinkedApplies(s: Sys, q: nat, x: Local)
    requires Heap(s) && Shaped(s) && x.op.Alloc? && x.fp in s.hand && x.fp != 0
    ensures Apply(s.tbl, Event(q, x.op, x.fp)) == Some(Pushed(s, q, x.fp, x.op.id).tbl)
  {
    hide HashOf, ChainHeld, ObjHeld;
  }

  lemma LinkedShape(s: Sys, q: nat, ptr: nat)
    requires Shaped(s) && q in s.threads && s.threads[q].pc == AllocHead && s.threads[q].op.Alloc?
    requires var x := s.threads[q];
      Apply(s.tbl, Event(q, x.op, x.fp)) == Some(Pushed(s, q, x.fp, x.op.id).tbl)
    ensures Step(s, q, ptr) == Outcome.Next(Linked(s, q, s.threads[q]))
  {
    hide Apply, HashOf;
  }

  lemma LinkedHeap(s: Sys, q: nat)
    requires Heap(s) && HashLock(s) && Shaped(s) && q in s.threads && s.threads[q].pc == AllocHead && s.threads[q].op.Alloc?
    requires var x := s.threads[q];
      && x.fp in s.hand && x.fp in s.objs && x.fp != 0
      && s.objs[x.fp] == Obj(1, None, true, x.op.id, s.heads[HashOf(x.op.id)])
    ensures Heap(Linked(s, q, s.threads[q]))
  {
    hide Heap, HashOf;
    var x := s.threads[q];
    var s1 := Pushed(s, q, x.fp, x.op.id);
    HeapPushed(s, q, x.fp, x.op.id);
    PushedHashLock(s, q, x.fp, x.op.id);
    HeapPut(s1, q, Finished(s, x, AllocLockObj, x.fp));
    HeapLog(Put(s1, q, Finished(s, x, AllocLockObj, x.fp)), s.log + [Event(q, x.op, x.fp)]);
  }

  lemma PushedHashLock(s: Sys, q: nat, o: nat, id: int)
    requires HashLock(s) && Shaped(s)
    ensures HashLock(Pushed(s, q, o, id))
  {
  }

  lemma LinkedLocks(s: Sys, q: nat)
    requires HashLock(s) && ObjLocks(s) && Shaped(s) && q in s.threads
    requires s.threads[q].pc == AllocHead && s.threads[q].op.Alloc?
    ensures HashLock(Linked(s, q, s.threads[q])) && ObjLocks(Linked(s, q, s.threads[q]))
  {
    hide HashOf, SameLocks, HashLock, ObjLocks;
    FirstLocks(s.design, s.threads[q], Linked(s, q, s.threads[q]).threads[q]);
    SameLocksKept(s, Linked(s, q, s.threads[q]), q);
  }

  lemma LinkedFrame(s: Sys, q: nat)
    requires Heap(s) && Shaped(s) && HashLock(s) && q in s.threads && s.threads[q].pc == AllocHead && s.threads[q].op.Alloc?
    requires Mine(s, q, s.threads[q].fp)
    ensures Frame(s, Linked(s, q, s.threads[q]), q)
  {
    hide HashOf, ChainHeld, ObjHeld, Guards;
    var x, s' := s.threads[q], Linked(s, q, s.threads[q]);
    forall o | o in s.objs && o in s.tbl.refs ensures CountKept(s, s', o) {
    }
    forall o, p | p != q && Owns(s, p, o) ensures Owns(s', p, o) && s'.objs[o].id == s.objs[o].id {
    }
    forall o | o in s.objs && o in s.hand && s.hand[o] != q ensures SameObj(s, s', o) {
    }
  }

  lemma LinkedReady(s: Sys, q: nat, x: Local)
    requires Shaped(s) && x.op.Alloc? && x.fp in s.objs
    ensures var s' := Linked(s, q, x); Shaped(s') && Ready(s', q, s'.threads[q])
  {
    hide HashOf;
  }

  lemma HeadKeeps(s: Sys, q: nat, ptr: nat)
    requires Inv(s) && Shaped(s) && q in s.threads && s.threads[q].pc == AllocHead
    ensures Step(s, q, ptr).Next? && GoodStep(s, Step(s, q, ptr).s, q)
  {
    hide Inv, Ready, Heap, HashLock, ObjLocks, Frame, History, HashOf, Step, Apply;
    var x := s.threads[q];
    Parts(s);
    ReadyOf(s, q);
    HeadReady(s, q, x);
    NotNull(s, x.fp);
    LinkedApplies(s, q, x);
    LinkedShape(s, q, ptr);
    LinkedHeap(s, q);
    LinkedLocks(s, q);
    LinkedFrame(s, q);
    LinkedReady(s, q, x);
    HistoryStep(s, Linked(s, q, x), Event(q, x.op, x.fp));
  }

  lemma NotNull(s: Sys, o: nat)
    requires Heap(s) && o in s.objs
    ensures o != 0
  {
    assert ObjHeld(s, o);
  }
}
