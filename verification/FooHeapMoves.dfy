/** What one write does to the chains and the objects. */
module FooHeapMoves {
  import opened Options
  import opened FooTable
  import opened FooSystem
  import opened FooProtocol
  import opened FooQuietSteps

  function SetObj(s: Sys, o: nat, obj: Obj): Sys {
    s.(objs := s.objs[o := obj])
  }

  lemma HeapAt(s: Sys, h: nat)
    requires Heap(s) && h < NHASH
    ensures ChainHeld(s, h)
  {
  }

  lemma HeapObj(s: Sys, o: nat)
    requires Heap(s) && o in s.objs
    ensures ObjHeld(s, o)
  {
  }

  lemma HeapPublished(s: Sys, o: nat)
    requires Heap(s) && o in s.tbl.refs
    ensures o in s.objs && o !in s.hand && o != 0 && Published(s, o)
  {
    assert ObjHeld(s, o);
  }

  /** The table and the chains do not depend on the log. */
  lemma HeapLog(s: Sys, log: seq<Event>)
    requires Heap(s)
    ensures Heap(s.(log := log))
  {
    hide HashOf;
    var s' := s.(log := log);
    forall h | 0 <= h < NHASH ensures ChainHeld(s', h) {
      HeapAt(s, h);
    }
    forall o | o in s'.objs ensures ObjHeld(s', o) {
      HeapObj(s, o);
    }
  }

  lemma HeapPut(s: Sys, q: nat, y: Local)
    requires Heap(s) && HashLock(s) && q in s.threads && Steady(s, Put(s, q, y), q)
    ensures Heap(Put(s, q, y))
  {
    hide Heap, HashLock, Steady;
    QuietHeap(s, Put(s, q, y), q);
  }

  lemma HeapReturn(s: Sys, q: nat)
    requires Heap(s) && HashLock(s) && q in s.threads && Steady(s, Return(s, q), q)
    ensures Heap(Return(s, q))
  {
    hide Heap, HashLock, Steady;
    QuietHeap(s, Return(s, q), q);
  }

  /** Another count, and as many references. */
  function Counted(s: Sys, o: nat, refs: multiset<nat>): Sys
    requires o in s.objs
  {
    s.(objs := s.objs[o := s.objs[o].(count := |refs|)], tbl := Holding(s.tbl, o, refs))
  }

  lemma HeapCounted(s: Sys, o: nat, refs: multiset<nat>)
    requires Heap(s) && o in s.tbl.refs && o in s.objs && |refs| > 0 && !Zeroed(s, o)
    ensures Heap(Counted(s, o, refs))
  {
    hide HashOf;
    var s' := Counted(s, o, refs);
    HeapPublished(s, o);
    forall h | 0 <= h < NHASH ensures ChainHeld(s', h) {
      HeapAt(s, h);
    }
    forall p | p in s'.objs ensures ObjHeld(s', p) {
      HeapObj(s, p);
    }
  }

  lemma HeapPrivate(s: Sys, o: nat, obj: Obj)
    requires Heap(s) && o in s.hand
    ensures Heap(SetObj(s, o, obj))
  {
    hide HashOf;
    var s' := SetObj(s, o, obj);
    forall h | 0 <= h < NHASH ensures ChainHeld(s', h) {
      HeapAt(s, h);
    }
    forall p | p in s'.objs ensures ObjHeld(s', p) {
      HeapObj(s, p);
    }
  }

  lemma HeapNew(s: Sys, q: nat, o: nat, obj: Obj)
    requires Heap(s) && o !in s.objs && o != 0 && q in s.threads && InHand(s.threads[q], o)
    ensures Heap(SetObj(s, o, obj).(hand := s.hand[o := q]))
  {
    hide HashOf;
    var s' := SetObj(s, o, obj).(hand := s.hand[o := q]);
    forall h | 0 <= h < NHASH ensures ChainHeld(s', h) {
      HeapAt(s, h);
    }
    forall p | p in s'.objs ensures ObjHeld(s', p) {
      if p != o { HeapObj(s, p); }
    }
  }

  lemma HeapGone(s: Sys, o: nat)
    requires Heap(s) && o in s.hand
    ensures Heap(s.(objs := s.objs - {o}, hand := s.hand - {o}))
  {
    hide HashOf;
    var s' := s.(objs := s.objs - {o}, hand := s.hand - {o});
    HeapObj(s, o);
    forall h | 0 <= h < NHASH ensures ChainHeld(s', h) {
      HeapAt(s, h);
    }
    forall p | p in s'.objs ensures ObjHeld(s', p) {
      HeapObj(s, p);
    }
  }

  // ---------- publishing ----------

  /** The object becomes the first of its chain, with one reference. */
  function Pushed(s: Sys, q: nat, o: nat, id: int): Sys
    requires Shaped(s)
  {
    var h := HashOf(id);
    s.(heads := s.heads[h := o], hand := s.hand - {o},
       tbl := Table(s.tbl.chains[h := [o] + s.tbl.chains[h]], s.tbl.ids[o := id], s.tbl.refs[o := multiset{q}]))
  }

  /** An object in a hand is on no chain. */
  lemma HandOffChain(s: Sys, o: nat, h: nat)
    requires Heap(s) && Shaped(s) && h < NHASH && o in s.hand
    ensures o in s.objs && o !in s.tbl.refs && o !in s.tbl.chains[h]
  {
    hide HashOf;
    HeapAt(s, h);
  }

  lemma PushedNodes(s: Sys, q: nat, o: nat, id: int, k: nat)
    requires Shaped(s) && ChainHeld(s, HashOf(id)) && o in s.objs && s.objs[o].id == id && o != 0
    requires s.objs[o].next == s.heads[HashOf(id)] && k <= |s.tbl.chains[HashOf(id)]|
    ensures var s' := Pushed(s, q, o, id); var chain' := s'.tbl.chains[HashOf(id)];
      && k < |chain'| && chain'[k] != 0 && chain'[k] in s'.objs && chain'[k] in s'.tbl.refs
      && HashOf(s'.objs[chain'[k]].id) == HashOf(id) && s'.objs[chain'[k]].next == Node(chain', k + 1)
  {
    hide HashOf;
    var chain := s.tbl.chains[HashOf(id)];
    if k > 0 {
      assert ([o] + chain)[k] == chain[k - 1] && Node([o] + chain, k + 1) == Node(chain, k);
    }
  }

  lemma PushedChain(s: Sys, q: nat, o: nat, id: int, h: nat)
    requires Heap(s) && Shaped(s) && h < NHASH && o in s.hand && s.objs[o].id == id && o != 0
    requires s.objs[o].next == s.heads[HashOf(id)]
    ensures ChainHeld(Pushed(s, q, o, id), h)
  {
    hide HashOf, Heap;
    HeapAt(s, h);
    HandOffChain(s, o, h);
    if h == HashOf(id) {
      var s', chain := Pushed(s, q, o, id), s.tbl.chains[h];
      forall k | 0 <= k < |chain| + 1
        ensures s'.tbl.chains[h][k] != 0 && s'.tbl.chains[h][k] in s'.objs && s'.tbl.chains[h][k] in s'.tbl.refs
        ensures HashOf(s'.objs[s'.tbl.chains[h][k]].id) == h && s'.objs[s'.tbl.chains[h][k]].next == Node(s'.tbl.chains[h], k + 1)
      {
        PushedNodes(s, q, o, id, k);
      }
      forall j, k | 0 <= j < k < |chain| + 1 ensures s'.tbl.chains[h][j] != s'.tbl.chains[h][k] {
        assert ([o] + chain)[k] == chain[k - 1];
      }
    }
  }

  lemma HeapPushed(s: Sys, q: nat, o: nat, id: int)
    requires Heap(s) && Shaped(s) && o in s.hand && o in s.objs && s.objs[o].id == id && o != 0
    requires s.objs[o].next == s.heads[HashOf(id)] && s.objs[o].count == 1 && s.objs[o].ready && !Zeroed(s, o)
    ensures Heap(Pushed(s, q, o, id))
  {
    hide HashOf, ChainHeld, Zeroed;
    var s' := Pushed(s, q, o, id);
    HeapObj(s, o);
    forall h | 0 <= h < NHASH ensures ChainHeld(s', h) {
      PushedChain(s, q, o, id, h);
    }
    forall p | p in s'.objs ensures ObjHeld(s', p) {
      HeapObj(s, p);
      SameZeroed(s, s', p);
      PushedIn(s.tbl.chains[HashOf(id)], o, p);
    }
  }

  lemma SameZeroed(s: Sys, s': Sys, o: nat)
    requires s'.design == s.design && s'.hashlock == s.hashlock && s'.threads == s.threads
    ensures Zeroed(s', o) == Zeroed(s, o)
  {
  }

  lemma PushedIn(chain: seq<nat>, o: nat, p: nat)
    ensures p in [o] + chain <==> p == o || p in chain
  {
  }

  // ---------- unlinking ----------

  function Cut(chain: seq<nat>, k: nat): seq<nat>
    requires k < |chain|
  {
    chain[..k] + chain[k + 1..]
  }

  lemma CutNodes(chain: seq<nat>, k: nat, j: nat)
    requires k < |chain| && j < |chain| - 1
    ensures var i := if j < k then j else j + 1;
      Cut(chain, k)[j] == chain[i] && Node(Cut(chain, k), j + 1) == Node(chain, if i + 1 == k then k + 1 else i + 1)
  {
  }

  /** The chain of the object after the pointer that led to it was changed to lead past it. */
  function Unlinked(s: Sys, prev: nat, o: nat): Sys
    requires Shaped(s) && o in s.objs && (prev != 0 ==> prev in s.objs)
  {
    var s1 := if prev == 0 then s.(heads := s.heads[HashOf(s.objs[o].id) := s.objs[o].next])
              else SetObj(s, prev, s.objs[prev].(next := s.objs[o].next));
    s1.(tbl := if o in s.tbl.ids then Removed(s.tbl, o) else s.tbl)
  }

  lemma UnlinkedTable(s: Sys, x: Local)
    requires Heap(s) && Shaped(s) && CutAt(s, x) && x.fp in s.tbl.refs
    ensures x.prev != 0 ==> x.prev in s.objs
    ensures var h := HashOf(s.objs[x.fp].id);
      Unlinked(s, x.prev, x.fp).tbl
      == Table(s.tbl.chains[h := Cut(s.tbl.chains[h], x.k)], s.tbl.ids - {x.fp}, s.tbl.refs - {x.fp})
  {
    hide HashOf, Minus;
    var h := HashOf(s.objs[x.fp].id);
    HeapAt(s, h);
    HeapPublished(s, x.fp);
    MinusAt(s.tbl.chains[h], x.k);
  }

  lemma UnlinkedOther(s: Sys, x: Local, h: nat)
    requires Heap(s) && Shaped(s) && CutAt(s, x) && x.fp in s.tbl.refs && h < NHASH && h != HashOf(s.objs[x.fp].id)
    requires x.prev != 0 ==> x.prev in s.objs
    ensures ChainHeld(Unlinked(s, x.prev, x.fp), h)
  {
    hide HashOf, Unlinked, Heap, Published, Cut;
    HeapAt(s, h);
    HeapAt(s, HashOf(s.objs[x.fp].id));
    UnlinkedTable(s, x);
    UnlinkedFields(s, x.prev, x.fp);
  }

  lemma UnlinkedFields(s: Sys, prev: nat, o: nat)
    requires Shaped(s) && o in s.objs && (prev != 0 ==> prev in s.objs)
    ensures var s' := Unlinked(s, prev, o);
      && |s'.heads| == NHASH && (forall h :: 0 <= h < NHASH && (prev != 0 || h != HashOf(s.objs[o].id)) ==> s'.heads[h] == s.heads[h])
      && (prev == 0 ==> s'.heads[HashOf(s.objs[o].id)] == s.objs[o].next)
      && s'.objs.Keys == s.objs.Keys
      && (forall p :: p in s.objs ==>
            s'.objs[p] == if p == prev && prev != 0 then s.objs[p].(next := s.objs[o].next) else s.objs[p])
      && s'.threads == s.threads && s'.hashlock == s.hashlock && s'.design == s.design && s'.hand == s.hand
      && s'.log == s.log
  {
  }

  lemma UnlinkedNode(s: Sys, x: Local, j: nat)
    requires Heap(s) && Shaped(s) && CutAt(s, x) && x.fp in s.tbl.refs
    requires x.prev != 0 ==> x.prev in s.objs
    requires j < |s.tbl.chains[HashOf(s.objs[x.fp].id)]| - 1
    ensures var h := HashOf(s.objs[x.fp].id);
      var s', chain' := Unlinked(s, x.prev, x.fp), Cut(s.tbl.chains[h], x.k);
      && chain'[j] != 0 && chain'[j] in s'.objs && chain'[j] in s.tbl.refs && chain'[j] != x.fp
      && HashOf(s'.objs[chain'[j]].id) == h && s'.objs[chain'[j]].next == Node(chain', j + 1)
  {
    hide HashOf, Unlinked, Cut;
    var h := HashOf(s.objs[x.fp].id);
    HeapAt(s, h);
    UnlinkedFields(s, x.prev, x.fp);
    CutNodes(s.tbl.chains[h], x.k, j);
  }

  lemma CutDistinct(chain: seq<nat>, k: nat)
    requires k < |chain| && forall i, j :: 0 <= i < j < |chain| ==> chain[i] != chain[j]
    ensures var rest := Cut(chain, k); forall i, j :: 0 <= i < j < |rest| ==> rest[i] != rest[j]
  {
  }

  lemma UnlinkedOwn(s: Sys, x: Local)
    requires Heap(s) && Shaped(s) && CutAt(s, x) && x.fp in s.tbl.refs
    requires x.prev != 0 ==> x.prev in s.objs
    ensures ChainHeld(Unlinked(s, x.prev, x.fp), HashOf(s.objs[x.fp].id))
  {
    hide HashOf, Unlinked, Cut, Heap;
    var h := HashOf(s.objs[x.fp].id);
    var chain, s' := s.tbl.chains[h], Unlinked(s, x.prev, x.fp);
    HeapAt(s, h);
    UnlinkedTable(s, x);
    UnlinkedFields(s, x.prev, x.fp);
    CutDistinct(chain, x.k);
    CutEnds(chain, x.k);
    forall j | 0 <= j < |Cut(chain, x.k)|
      ensures var o := Cut(chain, x.k)[j];
        && o != 0 && o in s'.objs && o in s'.tbl.refs && HashOf(s'.objs[o].id) == h
        && s'.objs[o].next == Node(Cut(chain, x.k), j + 1)
    {
      UnlinkedNode(s, x, j);
    }
  }

  lemma CutEnds(chain: seq<nat>, k: nat)
    requires k < |chain|
    ensures |Cut(chain, k)| == |chain| - 1 && Node(Cut(chain, k), 0) == Node(chain, if k == 0 then 1 else 0)
    ensures forall p :: p in chain && p != chain[k] ==> p in Cut(chain, k)
  {
    forall p | p in chain && p != chain[k] ensures p in Cut(chain, k) {
      var i :| 0 <= i < |chain| && chain[i] == p;
      assert Cut(chain, k)[if i < k then i else i - 1] == p;
    }
  }
}
