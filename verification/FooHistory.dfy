/** What the results of the table say about the calls before them. */
module FooHistory {
  import opened Options
  import opened FooTable

  /** The call that last allocated the object; -1 if there is none. */
  function Born(log: seq<Event>, o: nat): (i: int)
    ensures -1 <= i < |log|
    ensures i >= 0 ==> log[i].op.Alloc? && log[i].res == o
    ensures forall j :: i < j < |log| ==> !(log[j].op.Alloc? && log[j].res == o)
  {
    if log == [] then -1
    else if log[|log| - 1].op.Alloc? && log[|log| - 1].res == o then |log| - 1
    else Born(log[..|log| - 1], o)
  }

  /** Call `i` allocated an object with this id, and more references to it were taken than given back. */
  predicate LiveFrom(log: seq<Event>, i: nat, id: int) {
    && i < |log| && log[i].op == Alloc(id) && log[i].res != 0
    && Born(log, log[i].res) == i && Balance(log, log[i].res) > 0
  }

  /** The objects of the table have the ids they were allocated with, and on a chain the later ones come
      first. */
  predicate Aged(log: seq<Event>, tbl: Table) {
    && (forall o :: o in tbl.ids ==> o != 0 && Born(log, o) >= 0 && log[Born(log, o)].op == Alloc(tbl.ids[o]))
    && forall h :: 0 <= h < |tbl.chains| ==> Newest(log, tbl.chains[h])
  }

  predicate Newest(log: seq<Event>, chain: seq<nat>) {
    forall i, j :: 0 <= i < j < |chain| ==> Born(log, chain[i]) > Born(log, chain[j])
  }

  lemma BornBefore(front: seq<Event>, e: Event, o: nat)
    ensures Born(front + [e], o) == if e.op.Alloc? && e.res == o then |front| else Born(front, o)
  {
    assert (front + [e])[..|front|] == front;
  }

  lemma ChainAges(front: seq<Event>, e: Event, chain: seq<nat>)
    requires Newest(front, chain) && (e.op.Alloc? ==> e.res !in chain)
    ensures Newest(front + [e], chain)
    ensures e.op.Alloc? ==> Newest(front + [e], [e.res] + chain)
  {
    hide Born;
    forall o | o in chain ensures Born(front + [e], o) == Born(front, o) {
      BornBefore(front, e, o);
    }
    BornBefore(front, e, e.res);
  }

  lemma {:induction false} MinusIs(chain: seq<nat>, o: nat) returns (k: nat)
    ensures k <= |chain| && Minus(chain, o) == if k < |chain| then chain[..k] + chain[k + 1..] else chain
  {
    k := 0;
    if chain != [] && chain[0] != o {
      k := MinusIs(chain[1..], o);
      assert chain == [chain[0]] + chain[1..];
      if k < |chain| - 1 {
        assert chain[..k + 1] == [chain[0]] + chain[1..][..k] && chain[k + 2..] == chain[1..][k + 1..];
      }
      k := k + 1;
    }
  }

  lemma ChainThins(log: seq<Event>, chain: seq<nat>, o: nat)
    requires Newest(log, chain)
    ensures Newest(log, Minus(chain, o))
  {
    hide Born, Minus;
    var k := MinusIs(chain, o);
    var less := Minus(chain, o);
    if k < |chain| {
      forall i, j | 0 <= i < j < |less| ensures Born(log, less[i]) > Born(log, less[j]) {
        assert less[i] == chain[if i < k then i else i + 1] && less[j] == chain[if j < k then j else j + 1];
      }
    }
  }

  lemma StepAges(front: seq<Event>, e: Event, tbl: Table)
    requires Aged(front, tbl) && Sound(tbl) && Apply(tbl, e).Some?
    ensures Aged(front + [e], Apply(tbl, e).value)
  {
    hide Born, HashOf, First, Newest;
    var tbl', log := Apply(tbl, e).value, front + [e];
    forall o | o in tbl'.ids
      ensures o != 0 && Born(log, o) >= 0 && log[Born(log, o)].op == Alloc(tbl'.ids[o])
    {
      BornBefore(front, e, o);
    }
    forall h | 0 <= h < |tbl'.chains| ensures Newest(log, tbl'.chains[h]) {
      assert ChainSound(tbl, h);
      if e.op.Alloc? && e.res == 0 { assert 0 !in tbl.chains[h]; }
      ChainAges(front, e, tbl.chains[h]);
      if e.op.Rele? { ChainThins(log, tbl.chains[h], e.op.o); }
    }
  }

  lemma {:induction false} RunAges(log: seq<Event>)
    requires Replay(log).Some?
    ensures Sound(Replay(log).value) && Aged(log, Replay(log).value)
  {
    hide Sound, Aged, Apply, Born;
    if log == [] {
      EmptyAged();
    } else {
      var front, e := log[..|log| - 1], log[|log| - 1];
      RunAges(front);
      SoundApply(Replay(front).value, e);
      StepAges(front, e, Replay(front).value);
      assert front + [e] == log;
    }
  }

  lemma EmptyAged()
    ensures Sound(Empty()) && Aged([], Empty())
  {
  }

  predicate OnChain(tbl: Table, id: int, o: nat)
    requires |tbl.chains| == NHASH
  {
    o in tbl.chains[HashOf(id)] && o in tbl.ids && tbl.ids[o] == id
  }

  lemma LiveIsOnChain(log: seq<Event>, i: nat, id: int)
    requires Replay(log).Some? && Sound(Replay(log).value) && Aged(log, Replay(log).value) && LiveFrom(log, i, id)
    ensures OnChain(Replay(log).value, id, log[i].res)
  {
    hide Born, Balance, HashOf, Newest, Replay;
    ReferencesBalance(log, log[i].res);
    assert ObjectSound(Replay(log).value, log[i].res);
  }

  lemma OnChainIsLive(log: seq<Event>, id: int, o: nat)
    requires Replay(log).Some? && Sound(Replay(log).value) && Aged(log, Replay(log).value)
    requires OnChain(Replay(log).value, id, o)
    ensures Born(log, o) >= 0 && LiveFrom(log, Born(log, o), id)
  {
    hide Born, Balance, HashOf, Newest, Replay;
    ReferencesBalance(log, o);
    assert ObjectSound(Replay(log).value, o);
  }

  lemma FindsNewest(log: seq<Event>, t: nat, id: int, res: nat)
    requires Replay(log + [Event(t, Find(id), res)]).Some?
    ensures res == 0 <==> forall i :: 0 <= i < |log| ==> !LiveFrom(log, i, id)
    ensures res != 0 ==>
      exists i :: 0 <= i < |log| && LiveFrom(log, i, id) && log[i].res == res
                  && forall j :: i < j < |log| ==> !LiveFrom(log, j, id)
  {
    hide Born, LiveFrom, OnChain, Sound, Aged;
    LastIs(log, Event(t, Find(id), res));
    RunAges(log);
    var tbl := Replay(log).value;
    var k := FirstIs(log, tbl, id);
    forall i | 0 <= i < |log| && LiveFrom(log, i, id)
      ensures res != 0 && i <= Born(log, res)
    {
      LiveIsOnChain(log, i, id);
      LiveIs(log, i, id);
    }
    if res != 0 {
      OnChainIsLive(log, id, res);
      LiveIs(log, Born(log, res), id);
    }
  }

  /** Every search in a log the table allows finds the object allocated last among those with the id that are
      still referred to, and NULL exactly when there is none. */
  lemma {:induction false} EveryFind(log: seq<Event>, n: nat)
    requires Replay(log).Some? && n < |log| && log[n].op.Find?
    ensures var front, id, res := log[..n], log[n].op.id, log[n].res;
            && (res == 0 <==> forall i :: 0 <= i < n ==> !LiveFrom(front, i, id))
            && (res != 0 ==> exists i :: 0 <= i < n && LiveFrom(front, i, id) && front[i].res == res
                                          && forall j :: i < j < n ==> !LiveFrom(front, j, id))
    decreases |log|
  {
    hide Apply, LiveFrom;
    var before := log[..|log| - 1];
    if n < |before| {
      EveryFind(before, n);
      assert before[..n] == log[..n];
    } else {
      assert log == log[..n] + [Event(log[n].t, Find(log[n].op.id), log[n].res)];
      FindsNewest(log[..n], log[n].t, log[n].op.id, log[n].res);
    }
  }

  lemma LastIs(log: seq<Event>, e: Event)
    requires Replay(log + [e]).Some? && e.op.Find?
    ensures Replay(log).Some? && |Replay(log).value.chains| == NHASH
    ensures e.res == First(Replay(log).value.chains[HashOf(e.op.id)], Replay(log).value.ids, e.op.id)
  {
    hide First, HashOf;
    assert (log + [e])[..|log|] == log;
  }

  lemma LiveIs(log: seq<Event>, i: nat, id: int)
    requires LiveFrom(log, i, id)
    ensures i < |log| && log[i].res != 0 && Born(log, log[i].res) == i
  {
    hide Born, Balance;
  }

  /** The first object of the chain with this id, if any has it, is the one allocated last. */
  lemma FirstIs(log: seq<Event>, tbl: Table, id: int) returns (f: nat)
    requires Sound(tbl) && Aged(log, tbl)
    ensures |tbl.chains| == NHASH && f == First(tbl.chains[HashOf(id)], tbl.ids, id)
    ensures f != 0 ==> OnChain(tbl, id, f)
    ensures forall o :: OnChain(tbl, id, o) ==> f != 0 && Born(log, o) <= Born(log, f)
  {
    hide Born, HashOf, First;
    var chain := tbl.chains[HashOf(id)];
    var k := FirstAt(chain, tbl.ids, id);
    f := First(chain, tbl.ids, id);
    forall o | OnChain(tbl, id, o) ensures f != 0 && Born(log, o) <= Born(log, f) {
      var j :| 0 <= j < |chain| && chain[j] == o;
    }
  }

  lemma {:induction false} FirstAt(chain: seq<nat>, ids: map<nat, int>, id: int) returns (k: nat)
    ensures k <= |chain| && First(chain, ids, id) == if k < |chain| then chain[k] else 0
    ensures k < |chain| ==> chain[k] in ids && ids[chain[k]] == id
    ensures forall j :: 0 <= j < k ==> !(chain[j] in ids && ids[chain[j]] == id)
  {
    k := 0;
    if chain != [] && !(chain[0] in ids && ids[chain[0]] == id) {
      k := FirstAt(chain[1..], ids, id);
      k := k + 1;
    }
  }
}
