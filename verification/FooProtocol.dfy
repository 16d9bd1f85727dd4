/** What every step of every thread keeps, in both versions of the hash table. */
// The predicates that name their value are closed to the verifier until a proof needs them, as in DbProtocol.
module FooProtocol {
  import opened Options
  import opened FooTable
  import opened FooSystem

  // ---------- who has which lock ----------

  predicate HoldsHash(d: Design, x: Local) {
    || x.pc == AllocLink || x.pc == AllocHead || x.pc == AllocLockObj || x.pc == AllocUnlock
    || x.pc == FindHead || x.pc == FindTest || x.pc == FindNext || x.pc == FindUnlock
    || x.pc == HoldUnlock || x.pc == ReleRelock || x.pc == ReleRecheck || x.pc == DecUnlock
    || Cutting(x.pc) || x.pc == CutUnlock
    || (x.op.Find? && (x.pc == HoldLockObj || x.pc == HoldUnlockObj))
    || ((x.op.Find? || d.OneLock?) && (x.pc == HoldRead || x.pc == HoldWrite))
    || ((x.both || d.OneLock?) && (x.pc == DecRead || x.pc == DecWrite))
    || (x.both && x.pc == DecUnlockObj)
  }

  predicate Cutting(pc: Pc) {
    pc == CutHead || pc == CutScan || pc == CutNext || pc == CutWrite
  }

  predicate HoldsObj(d: Design, x: Local) {
    || x.pc == AllocUnlock || x.pc == AllocUnlockObj || x.pc == HoldUnlockObj
    || x.pc == ReleRead || x.pc == ReleDrop || x.pc == ReleRecheck || x.pc == DecUnlockObj || x.pc == CutUnlockObj
    || (d.DropAndRecheck?
        && (x.pc == HoldRead || x.pc == HoldWrite || x.pc == DecRead || x.pc == DecWrite
            || Cutting(x.pc) || x.pc == CutUnlock))
  }

  predicate HashLock(s: Sys) {
    var holds :=
      && (s.hashlock.Some? ==> s.hashlock.value in s.threads)
      && forall t :: t in s.threads ==> (HoldsHash(s.design, s.threads[t]) <==> s.hashlock == Some(t));
    holds
  }

  predicate LockOf(s: Sys, o: nat, t: nat)
    requires o in s.objs && t in s.threads
  {
    (HoldsObj(s.design, s.threads[t]) && s.threads[t].fp == o) <==> s.objs[o].lock == Some(t)
  }

  ghost predicate ObjLocks(s: Sys) {
    var holds :=
      && (forall o :: o in s.objs && s.objs[o].lock.Some? ==> s.objs[o].lock.value in s.threads)
      && (forall t :: t in s.threads && HoldsObj(s.design, s.threads[t]) ==> s.threads[t].fp in s.objs)
      && (forall o, t :: o in s.objs && t in s.threads ==> LockOf(s, o, t));
    holds
  }

  // ---------- the chains and the objects ----------

  function Node(chain: seq<nat>, k: nat): nat {
    if k < |chain| then chain[k] else 0
  }

  predicate Shaped(s: Sys) {
    |s.heads| == NHASH && |s.tbl.chains| == NHASH
  }

  /** The pointers from the table entry lead through exactly the chain of the table. */
  predicate ChainHeld(s: Sys, h: nat)
    requires Shaped(s) && h < NHASH
  {
    var holds :=
      var chain := s.tbl.chains[h];
      && (forall k :: 0 <= k < |chain| ==>
            && chain[k] != 0 && chain[k] in s.objs && chain[k] in s.tbl.refs && HashOf(s.objs[chain[k]].id) == h
            && s.objs[chain[k]].next == Node(chain, k + 1))
      && (forall j, k :: 0 <= j < k < |chain| ==> chain[j] != chain[k])
      && s.heads[h] == Node(chain, 0);
    holds
  }

  /** A release that found no reference left is unlinking the object. */
  predicate Zeroed(s: Sys, o: nat) {
    && s.design.OneLock? && s.hashlock.Some? && s.hashlock.value in s.threads
    && Cutting(s.threads[s.hashlock.value].pc) && s.threads[s.hashlock.value].fp == o
  }

  /** Only this thread can reach the object. */
  predicate InHand(x: Local, o: nat) {
    && x.fp == o
    && (x.pc == AllocLock || x.pc == AllocLink || x.pc == AllocHead
        || x.pc == CutUnlock || x.pc == CutUnlockObj || x.pc == Destroy || x.pc == Free)
  }

  predicate Published(s: Sys, o: nat)
    requires Shaped(s) && o in s.objs
  {
    var holds :=
      && o in s.tbl.refs && o in s.tbl.ids && s.tbl.ids[o] == s.objs[o].id && s.objs[o].ready
      && o in s.tbl.chains[HashOf(s.objs[o].id)] && |s.tbl.refs[o]| > 0
      && s.objs[o].count == if Zeroed(s, o) then 0 else |s.tbl.refs[o]|;
    holds
  }

  predicate Private(s: Sys, o: nat)
    requires o in s.objs
  {
    o !in s.tbl.refs && o in s.hand && s.hand[o] in s.threads && InHand(s.threads[s.hand[o]], o)
  }

  predicate ObjHeld(s: Sys, o: nat)
    requires Shaped(s) && o in s.objs
  {
    var holds :=
      o != 0 && if o in s.hand then Private(s, o) else Published(s, o);
    holds
  }

  ghost predicate Heap(s: Sys) {
    var holds :=
      && Shaped(s)
      && (forall h :: 0 <= h < NHASH ==> ChainHeld(s, h))
      && (forall o :: o in s.objs ==> ObjHeld(s, o))
      && (forall o :: o in s.tbl.refs ==> o in s.objs && o !in s.hand)
      && (forall o :: o in s.hand ==> o in s.objs)
      && s.tbl.ids.Keys == s.tbl.refs.Keys;
    holds
  }

  predicate History(s: Sys) {
    var holds :=
      Replay(s.log) == Some(s.tbl);
    holds
  }

  // ---------- the threads ----------

  predicate Owns(s: Sys, t: nat, o: nat) {
    o in s.objs && o in s.tbl.refs && t in s.tbl.refs[o]
  }

  predicate Mine(s: Sys, t: nat, o: nat) {
    o in s.objs && o in s.hand && s.hand[o] == t
  }

  /** The search has come to position `k` of the chain without finding the id. */
  predicate Searched(s: Sys, id: int, k: nat)
    requires Shaped(s)
  {
    var chain := s.tbl.chains[HashOf(id)];
    k <= |chain| && forall j :: 0 <= j < k ==> chain[j] in s.objs && s.objs[chain[j]].id != id
  }

  /** The search has found the first object with the id. */
  predicate FoundFirst(s: Sys, x: Local)
    requires Shaped(s) && x.op.Find?
  {
    var chain := s.tbl.chains[HashOf(x.op.id)];
    && Searched(s, x.op.id, x.k) && x.k < |chain| && x.fp == chain[x.k]
    && x.fp in s.objs && x.fp in s.tbl.refs && s.objs[x.fp].id == x.op.id
  }

  /** The object a hold or a search is about to count. */
  predicate Reached(s: Sys, t: nat, x: Local)
    requires Shaped(s)
  {
    !x.done && if x.op.Find? then FoundFirst(s, x) else x.op == Hold(x.fp) && Owns(s, t, x.fp)
  }

  predicate Releasing(s: Sys, t: nat, x: Local) {
    !x.done && x.op == Rele(x.fp) && Owns(s, t, x.fp)
  }

  predicate Logged(s: Sys, t: nat, x: Local) {
    x.done && x.at < |s.log| && s.log[x.at] == Event(t, x.op, x.res)
  }

  /** The release is the last: one reference, and only this thread may change the count. */
  predicate LastRelease(s: Sys, t: nat, x: Local) {
    && Releasing(s, t, x) && |s.tbl.refs[x.fp]| == 1
    && s.objs[x.fp].count == if s.design.OneLock? then 0 else 1
  }

  /** `prev` leads to the object, which is at position `k` of its chain. */
  predicate CutAt(s: Sys, x: Local)
    requires Shaped(s)
  {
    && x.fp in s.objs
    && var chain := s.tbl.chains[HashOf(s.objs[x.fp].id)];
       x.k < |chain| && chain[x.k] == x.fp && x.prev == if x.k == 0 then 0 else chain[x.k - 1]
  }

  /** `prev` is at position `k` of the chain, and the object comes later. */
  predicate ScanAt(s: Sys, x: Local)
    requires Shaped(s)
  {
    && x.fp in s.objs
    && var chain := s.tbl.chains[HashOf(s.objs[x.fp].id)];
       x.k < |chain| && x.prev == chain[x.k] && exists j :: x.k < j < |chain| && chain[j] == x.fp
  }

  predicate ReadyAlloc(s: Sys, t: nat, x: Local)
    requires Shaped(s)
  {
    var holds :=
      && x.op.Alloc?
      && match x.pc
         case AllocNew => !x.done
         case AllocLock => !x.done && Mine(s, t, x.fp) && s.objs[x.fp] == Obj(1, None, true, x.op.id, s.objs[x.fp].next)
         case AllocLink => !x.done && Mine(s, t, x.fp) && s.objs[x.fp] == Obj(1, None, true, x.op.id, s.objs[x.fp].next)
         case AllocHead =>
           !x.done && Mine(s, t, x.fp) && s.objs[x.fp] == Obj(1, None, true, x.op.id, s.heads[HashOf(x.op.id)])
         case _ => Logged(s, t, x) && x.res == x.fp && Owns(s, t, x.fp);
    holds
  }

  predicate ReadyFind(s: Sys, t: nat, x: Local)
    requires Shaped(s)
  {
    var holds :=
      && x.op.Find?
      && match x.pc
         case FindLock => !x.done
         case FindHead => !x.done
         case FindTest =>
           !x.done && Searched(s, x.op.id, x.k) && x.fp == Node(s.tbl.chains[HashOf(x.op.id)], x.k)
         case FindNext =>
           && !x.done && Searched(s, x.op.id, x.k) && x.k < |s.tbl.chains[HashOf(x.op.id)]|
           && x.fp == s.tbl.chains[HashOf(x.op.id)][x.k] && x.fp in s.objs && s.objs[x.fp].id != x.op.id
         case _ => Logged(s, t, x);
    holds
  }

  predicate ReadyHold(s: Sys, t: nat, x: Local)
    requires Shaped(s)
  {
    var holds :=
      match x.pc
      case HoldLockObj => s.design.DropAndRecheck? && Reached(s, t, x)
      case HoldLock => s.design.OneLock? && Reached(s, t, x) && x.op.Hold?
      case HoldRead => Reached(s, t, x)
      case HoldWrite => Reached(s, t, x) && x.val == s.objs[x.fp].count
      case HoldUnlockObj => s.design.DropAndRecheck? && Logged(s, t, x) && Kept(s, x.fp)
      case _ => s.design.OneLock? && Logged(s, t, x) && x.op.Hold?;
    holds
  }

  /** The object whose lock is about to be released is still in the table. */
  predicate Kept(s: Sys, o: nat) {
    o in s.objs && o in s.tbl.refs && s.objs[o].ready
  }

  predicate ReadyRele(s: Sys, t: nat, x: Local)
    requires Shaped(s)
  {
    var holds :=
      match x.pc
      case ReleLockObj => s.design.DropAndRecheck? && Releasing(s, t, x) && !x.both
      case ReleRead => s.design.DropAndRecheck? && Releasing(s, t, x) && !x.both
      case ReleDrop => s.design.DropAndRecheck? && Releasing(s, t, x) && !x.both
      case ReleLock => Releasing(s, t, x) && !x.both
      case ReleRelock => s.design.DropAndRecheck? && Releasing(s, t, x)
      case ReleRecheck => s.design.DropAndRecheck? && Releasing(s, t, x) && x.both
      case DecRead =>
        && Releasing(s, t, x) && (s.design.OneLock? ==> !x.both)
        && (s.design.DropAndRecheck? ==> s.objs[x.fp].count != 1)
      case DecWrite =>
        && Releasing(s, t, x) && x.val == s.objs[x.fp].count && (s.design.OneLock? ==> !x.both)
        && (s.design.DropAndRecheck? ==> s.objs[x.fp].count != 1)
      case DecUnlockObj => s.design.DropAndRecheck? && Logged(s, t, x) && x.op.Rele? && Kept(s, x.fp)
      case _ => Logged(s, t, x) && x.op.Rele?;
    holds
  }

  predicate ReadyCut(s: Sys, t: nat, x: Local)
    requires Shaped(s)
  {
    var holds :=
      match x.pc
      case CutHead => LastRelease(s, t, x)
      case CutScan => LastRelease(s, t, x) && ScanAt(s, x)
      case CutNext => LastRelease(s, t, x) && CutAt(s, x)
      case CutWrite => LastRelease(s, t, x) && CutAt(s, x) && x.nxt == s.objs[x.fp].next
      case CutUnlock => Logged(s, t, x) && x.op.Rele? && Mine(s, t, x.fp) && s.objs[x.fp].ready
      case CutUnlockObj => Logged(s, t, x) && x.op.Rele? && Mine(s, t, x.fp) && s.objs[x.fp].ready && s.design.DropAndRecheck?
      case Destroy => Logged(s, t, x) && x.op.Rele? && Mine(s, t, x.fp) && s.objs[x.fp].ready && s.objs[x.fp].lock == None
      case _ => Logged(s, t, x) && x.op.Rele? && Mine(s, t, x.fp);
    holds
  }

  /** What a thread relies on before its next step. */
  predicate Ready(s: Sys, t: nat, x: Local)
    requires Shaped(s)
  {
    var ready :=
      if AllocPc(x.pc) then ReadyAlloc(s, t, x)
      else if FindPc(x.pc) then ReadyFind(s, t, x)
      else if HoldPc(x.pc) then ReadyHold(s, t, x)
      else if CutPc(x.pc) then ReadyCut(s, t, x)
      else ReadyRele(s, t, x);
    ready
  }

  ghost predicate Inv(s: Sys) {
    var holds :=
      && Heap(s) && HashLock(s) && ObjLocks(s) && History(s)
      && forall t :: t in s.threads ==> Ready(s, t, s.threads[t]);
    holds
  }

  // ---------- what other threads see of a step ----------

  /** Thread `p` alone may change the count of `o`. */
  predicate Guards(s: Sys, p: nat, o: nat)
    requires o in s.objs
  {
    if s.design.DropAndRecheck? then s.objs[o].lock == Some(p) else s.hashlock == Some(p)
  }

  predicate ChainsKept(s: Sys, s': Sys) {
    var holds :=
      && s'.heads == s.heads && s'.tbl.chains == s.tbl.chains && s'.tbl.refs.Keys == s.tbl.refs.Keys
      && forall o :: o in s.tbl.refs && o in s.objs ==>
           o in s'.objs && s'.objs[o].next == s.objs[o].next && s'.objs[o].id == s.objs[o].id;
    holds
  }

  predicate SameObj(s: Sys, s': Sys, o: nat) {
    o in s.objs && o in s.hand && o in s'.objs && o in s'.hand && s'.objs[o] == s.objs[o] && s'.hand[o] == s.hand[o]
  }

  predicate CountKept(s: Sys, s': Sys, o: nat)
    requires o in s.objs && o in s.tbl.refs
  {
    o in s'.objs && o in s'.tbl.refs && s'.objs[o].count == s.objs[o].count && |s'.tbl.refs[o]| == |s.tbl.refs[o]|
    && s'.objs[o].ready == s.objs[o].ready && s'.objs[o].id == s.objs[o].id
  }

  /** A step of thread `q` respects the locks and the references of every other thread. */
  ghost predicate Frame(s: Sys, s': Sys, q: nat) {
    var holds :=
      && Shaped(s) && Shaped(s') && s'.design == s.design && s.log <= s'.log
      && (forall p :: p != q ==> (p in s'.threads <==> p in s.threads) && (p in s.threads ==> s'.threads[p] == s.threads[p]))
      && (forall p :: p != q && s.hashlock == Some(p) ==> ChainsKept(s, s') && s'.hashlock == s.hashlock)
      && (forall o :: o in s.objs && o in s.hand && s.hand[o] != q ==> SameObj(s, s', o))
      && (forall o, p :: p != q && Owns(s, p, o) ==> Owns(s', p, o) && s'.objs[o].id == s.objs[o].id)
      && (forall o, p :: p != q && o in s.objs && o in s.tbl.refs && Guards(s, p, o) ==> CountKept(s, s', o));
    holds
  }

  /** A step of `q` that other threads can live with, and after which `q` itself can go on. */
  ghost predicate GoodStep(s: Sys, s': Sys, q: nat) {
    var holds :=
      && Frame(s, s', q) && Heap(s') && HashLock(s') && ObjLocks(s') && History(s')
      && (q in s'.threads ==> Ready(s', q, s'.threads[q]));
    holds
  }

  lemma KeptLog(s: Sys, s': Sys, q: nat, p: nat, x: Local)
    requires Frame(s, s', q) && Logged(s, p, x)
    ensures Logged(s', p, x)
  {
  }

  lemma KeptOwns(s: Sys, s': Sys, q: nat, p: nat, o: nat)
    requires Frame(s, s', q) && p != q && Owns(s, p, o)
    ensures Owns(s', p, o) && s'.objs[o].id == s.objs[o].id
  {
  }

  lemma KeptMine(s: Sys, s': Sys, q: nat, p: nat, o: nat)
    requires Frame(s, s', q) && p != q && Mine(s, p, o)
    ensures Mine(s', p, o) && s'.objs[o] == s.objs[o]
  {
    assert SameObj(s, s', o);
  }

  lemma KeptGuarded(s: Sys, s': Sys, q: nat, p: nat, o: nat)
    requires Frame(s, s', q) && p != q && o in s.objs && o in s.tbl.refs && Guards(s, p, o)
    ensures CountKept(s, s', o)
  {
  }

  lemma KeptChains(s: Sys, s': Sys, q: nat, p: nat)
    requires Frame(s, s', q) && p != q && s.hashlock == Some(p)
    ensures Shaped(s) && Shaped(s') && ChainsKept(s, s') && s'.design == s.design
  {
  }

  lemma KeptSearched(s: Sys, s': Sys, id: int, k: nat)
    requires Heap(s) && Shaped(s') && ChainsKept(s, s') && Searched(s, id, k)
    ensures Searched(s', id, k)
  {
    assert ChainHeld(s, HashOf(id));
  }

  lemma ReadyKeptAlloc(s: Sys, s': Sys, q: nat, p: nat)
    requires Heap(s) && HashLock(s) && Frame(s, s', q) && p in s.threads && p != q && AllocPc(s.threads[p].pc)
    requires Ready(s, p, s.threads[p])
    ensures Ready(s', p, s.threads[p])
  {
    hide Heap, Frame, ChainsKept, Logged, HashOf;
    var x := s.threads[p];
    FrameShaped(s, s', q);
    match x.pc {
      case AllocNew =>
      case AllocLock => KeptMine(s, s', q, p, x.fp);
      case AllocLink => KeptMine(s, s', q, p, x.fp);
      case AllocHead =>
        KeptMine(s, s', q, p, x.fp);
        KeptHeads(s, s', q, p);
      case _ =>
        KeptLog(s, s', q, p, x);
        KeptOwns(s, s', q, p, x.fp);
    }
  }

  lemma FrameShaped(s: Sys, s': Sys, q: nat)
    requires Frame(s, s', q)
    ensures Shaped(s) && Shaped(s') && s'.design == s.design
  {
  }

  lemma KeptHeads(s: Sys, s': Sys, q: nat, p: nat)
    requires Frame(s, s', q) && p != q && s.hashlock == Some(p)
    ensures s'.heads == s.heads
  {
  }

  lemma ReadyKeptFind(s: Sys, s': Sys, q: nat, p: nat)
    requires Heap(s) && HashLock(s) && Frame(s, s', q) && p in s.threads && p != q && FindPc(s.threads[p].pc)
    requires Ready(s, p, s.threads[p])
    ensures Ready(s', p, s.threads[p])
  {
    hide Heap, Frame, Logged, HashOf, Searched;
    var x := s.threads[p];
    FrameShaped(s, s', q);
    match x.pc {
      case FindTest =>
        KeptChains(s, s', q, p);
        KeptSearched(s, s', x.op.id, x.k);
      case FindNext =>
        KeptChains(s, s', q, p);
        KeptSearched(s, s', x.op.id, x.k);
        OnChain(s, HashOf(x.op.id), x.k);
      case FindUnlock => KeptLog(s, s', q, p, x);
      case _ =>
    }
  }

  lemma OnChain(s: Sys, h: nat, k: nat)
    requires Heap(s) && h < NHASH && k < |s.tbl.chains[h]|
    ensures var o := s.tbl.chains[h][k];
      && o != 0 && o in s.objs && o in s.tbl.refs && o !in s.hand && HashOf(s.objs[o].id) == h
      && s.objs[o].next == Node(s.tbl.chains[h], k + 1)
  {
    assert ChainHeld(s, h);
  }

  lemma KeptReached(s: Sys, s': Sys, q: nat, p: nat, x: Local)
    requires Heap(s) && HashLock(s) && Frame(s, s', q) && p in s.threads && p != q && x == s.threads[p]
    requires Shaped(s) && Shaped(s') && Reached(s, p, x) && (x.op.Find? ==> HoldsHash(s.design, x))
    ensures Reached(s', p, x)
  {
    hide Heap, Frame, HashOf, Searched;
    if x.op.Find? {
      KeptChains(s, s', q, p);
      KeptSearched(s, s', x.op.id, x.k);
    } else {
      KeptOwns(s, s', q, p, x.fp);
    }
  }

  lemma ReadyKeptHold(s: Sys, s': Sys, q: nat, p: nat)
    requires Heap(s) && HashLock(s) && ObjLocks(s) && Frame(s, s', q) && p in s.threads && p != q
    requires HoldPc(s.threads[p].pc) && Ready(s, p, s.threads[p])
    ensures Ready(s', p, s.threads[p])
  {
    hide Heap, Frame, Logged, HashOf, Searched;
    var x := s.threads[p];
    FrameShaped(s, s', q);
    if x.pc == HoldUnlockObj {
      KeptLog(s, s', q, p, x);
      assert LockOf(s, x.fp, p);
      KeptGuarded(s, s', q, p, x.fp);
    } else if x.pc == HoldUnlock {
      KeptLog(s, s', q, p, x);
    } else {
      KeptReached(s, s', q, p, x);
      if x.pc == HoldWrite {
        assert LockOf(s, x.fp, p);
        KeptGuarded(s, s', q, p, x.fp);
      }
    }
  }

  lemma KeptReleasing(s: Sys, s': Sys, q: nat, p: nat, x: Local)
    requires Frame(s, s', q) && p != q && Releasing(s, p, x)
    ensures Releasing(s', p, x)
  {
    hide Frame;
    KeptOwns(s, s', q, p, x.fp);
  }

  lemma KeptKept(s: Sys, s': Sys, q: nat, p: nat, o: nat)
    requires Frame(s, s', q) && p != q && Kept(s, o) && Guards(s, p, o)
    ensures Kept(s', o)
  {
    hide Frame;
    KeptGuarded(s, s', q, p, o);
  }

  lemma GuardsCount(s: Sys, p: nat)
    requires HashLock(s) && ObjLocks(s) && p in s.threads && s.threads[p].fp in s.objs
    requires var pc := s.threads[p].pc; pc == DecRead || pc == DecWrite || (pc == DecUnlockObj && s.design.DropAndRecheck?)
    ensures Guards(s, p, s.threads[p].fp)
  {
    assert LockOf(s, s.threads[p].fp, p);
  }

  lemma ReleasingIn(s: Sys, p: nat, x: Local)
    requires Releasing(s, p, x)
    ensures x.fp in s.objs && x.fp in s.tbl.refs
  {
  }

  lemma ReadyKeptRele(s: Sys, s': Sys, q: nat, p: nat)
    requires Heap(s) && HashLock(s) && ObjLocks(s) && Frame(s, s', q) && p in s.threads && p != q
    requires !AllocPc(s.threads[p].pc) && !FindPc(s.threads[p].pc) && !HoldPc(s.threads[p].pc) && !CutPc(s.threads[p].pc)
    requires Ready(s, p, s.threads[p])
    ensures Ready(s', p, s.threads[p])
  {
    hide Heap, HashLock, ObjLocks, Frame, Logged, HashOf, Releasing, Kept, Guards;
    var x := s.threads[p];
    FrameShaped(s, s', q);
    assert ReadyRele(s, p, x);
    if x.pc == DecUnlock {
      KeptLog(s, s', q, p, x);
    } else if x.pc == DecUnlockObj {
      KeptLog(s, s', q, p, x);
      KeptThere(s, x.fp);
      GuardsCount(s, p);
      KeptKept(s, s', q, p, x.fp);
    } else {
      KeptReleasing(s, s', q, p, x);
      ReleasingIn(s, p, x);
      if x.pc == DecRead || x.pc == DecWrite {
        GuardsCount(s, p);
        KeptGuarded(s, s', q, p, x.fp);
      }
    }
    assert ReadyRele(s', p, x);
  }

  lemma KeptThere(s: Sys, o: nat)
    requires Kept(s, o)
    ensures o in s.objs
  {
  }

  lemma KeptLast(s: Sys, s': Sys, q: nat, p: nat, x: Local)
    requires HashLock(s) && ObjLocks(s) && Frame(s, s', q) && p in s.threads && p != q && x == s.threads[p]
    requires Cutting(x.pc) && LastRelease(s, p, x)
    ensures LastRelease(s', p, x) && s'.objs[x.fp].id == s.objs[x.fp].id
  {
    hide Frame;
    FrameShaped(s, s', q);
    KeptOwns(s, s', q, p, x.fp);
    assert LockOf(s, x.fp, p);
    KeptGuarded(s, s', q, p, x.fp);
  }

  lemma ReadyKeptCutting(s: Sys, s': Sys, q: nat, p: nat, x: Local)
    requires HashLock(s) && ObjLocks(s) && Frame(s, s', q) && p in s.threads && p != q && x == s.threads[p]
    requires Cutting(x.pc) && Shaped(s) && Shaped(s') && ReadyCut(s, p, x)
    ensures ReadyCut(s', p, x)
  {
    hide ObjLocks, Frame, HashOf, LastRelease, HashLock;
    HashHeld(s, p);
    KeptChains(s, s', q, p);
    KeptLast(s, s', q, p, x);
    LastIn(s, p, x);
    LastIn(s', p, x);
  }

  lemma HashHeld(s: Sys, p: nat)
    requires HashLock(s) && p in s.threads && HoldsHash(s.design, s.threads[p])
    ensures s.hashlock == Some(p)
  {
  }

  lemma ReadyKeptHand(s: Sys, s': Sys, q: nat, p: nat, x: Local)
    requires Frame(s, s', q) && p != q && Shaped(s) && Shaped(s') && CutPc(x.pc) && !Cutting(x.pc) && ReadyCut(s, p, x)
    ensures ReadyCut(s', p, x)
  {
    hide Frame, Logged, LastRelease, CutAt, ScanAt, Mine, HashOf;
    FrameShaped(s, s', q);
    KeptLog(s, s', q, p, x);
    KeptMine(s, s', q, p, x.fp);
    MineThere(s, p, x.fp);
  }

  lemma MineThere(s: Sys, p: nat, o: nat)
    requires Mine(s, p, o)
    ensures o in s.objs
  {
  }

  lemma ReadyKeptCut(s: Sys, s': Sys, q: nat, p: nat)
    requires Heap(s) && HashLock(s) && ObjLocks(s) && Frame(s, s', q) && p in s.threads && p != q
    requires CutPc(s.threads[p].pc) && Ready(s, p, s.threads[p])
    ensures Ready(s', p, s.threads[p])
  {
    hide Heap, HashLock, ObjLocks, Frame, ReadyCut, ReadyAlloc, ReadyFind, ReadyHold, ReadyRele;
    var x := s.threads[p];
    FrameShaped(s, s', q);
    if Cutting(x.pc) {
      ReadyKeptCutting(s, s', q, p, x);
    } else {
      ReadyKeptHand(s, s', q, p, x);
    }
  }

  lemma LastIn(s: Sys, t: nat, x: Local)
    requires LastRelease(s, t, x)
    ensures x.fp in s.objs && x.fp in s.tbl.refs
  {
  }

  /** What another thread relies on survives a step of `q`. */
  lemma ReadyKept(s: Sys, s': Sys, q: nat, p: nat)
    requires Heap(s) && HashLock(s) && ObjLocks(s) && Frame(s, s', q) && p in s.threads && p != q
    requires Ready(s, p, s.threads[p])
    ensures Shaped(s') && Ready(s', p, s.threads[p])
  {
    hide Heap, HashLock, ObjLocks, Frame, Ready;
    var pc := s.threads[p].pc;
    FrameShaped(s, s', q);
    if AllocPc(pc) { ReadyKeptAlloc(s, s', q, p); }
    else if FindPc(pc) { ReadyKeptFind(s, s', q, p); }
    else if HoldPc(pc) { ReadyKeptHold(s, s', q, p); }
    else if CutPc(pc) { ReadyKeptCut(s, s', q, p); }
    else { ReadyKeptRele(s, s', q, p); }
  }
}
