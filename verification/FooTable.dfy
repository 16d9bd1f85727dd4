/** The table of reference-counted objects that both versions of the program implement, one call at a
    time. */
module FooTable {
  import opened Options
  import opened Hashing

  const NHASH: nat := 29

  /** HASH(id): the id is cast to unsigned long first. */
  function HashOf(id: int): (h: nat)
    ensures h < NHASH
  {
    var h := (if id < 0 then id + ULONG else id) % NHASH;
    h
  }

  /** The calls of a thread, and the handing over of a reference it holds to another thread. */
  datatype Op = Alloc(id: int) | Find(id: int) | Hold(o: nat) | Rele(o: nat) | Give(o: nat, to: nat)

  /** A call of thread `t` that took effect, with the pointer it returns (0 is NULL). */
  datatype Event = Event(t: nat, op: Op, res: nat)

  /** The chains with the objects in the order of a search, and for every object its id and the
      threads that hold references to it. */
  datatype Table = Table(chains: seq<seq<nat>>, ids: map<nat, int>, refs: map<nat, multiset<nat>>)

  /** The first object of a chain with this id; 0 if there is none. */
  function First(chain: seq<nat>, ids: map<nat, int>, id: int): nat {
    if chain == [] then 0
    else if chain[0] in ids && ids[chain[0]] == id then chain[0]
    else First(chain[1..], ids, id)
  }

  function Minus(chain: seq<nat>, o: nat): seq<nat> {
    if chain == [] then [] else if chain[0] == o then chain[1..] else [chain[0]] + Minus(chain[1..], o)
  }

  function Holding(tbl: Table, o: nat, refs: multiset<nat>): Table {
    tbl.(refs := tbl.refs[o := refs])
  }

  function Removed(tbl: Table, o: nat): Table
    requires |tbl.chains| == NHASH && o in tbl.ids
  {
    var h := HashOf(tbl.ids[o]);
    Table(tbl.chains[h := Minus(tbl.chains[h], o)], tbl.ids - {o}, tbl.refs - {o})
  }

  /** The table after a call with this result; None if the table does not allow it. A thread may
      hold, release and give away only what it holds a reference to. An allocation that fails
      returns 0. */
  function Apply(tbl: Table, e: Event): Option<Table> {
    if |tbl.chains| != NHASH || tbl.ids.Keys != tbl.refs.Keys then None else
    match e.op
    case Alloc(id) =>
      var h := HashOf(id);
      if e.res == 0 then Some(tbl)
      else if e.res in tbl.ids then None
      else Some(Table(tbl.chains[h := [e.res] + tbl.chains[h]], tbl.ids[e.res := id], tbl.refs[e.res := multiset{e.t}]))
    case Find(id) =>
      var o := First(tbl.chains[HashOf(id)], tbl.ids, id);
      if e.res != o then None
      else if o == 0 then Some(tbl)
      else if o !in tbl.refs then None
      else Some(Holding(tbl, o, tbl.refs[o] + multiset{e.t}))
    case Hold(o) =>
      if o in tbl.refs && e.t in tbl.refs[o] then Some(Holding(tbl, o, tbl.refs[o] + multiset{e.t})) else None
    case Rele(o) =>
      if o !in tbl.refs || e.t !in tbl.refs[o] then None
      else if |tbl.refs[o]| == 1 then Some(Removed(tbl, o))
      else Some(Holding(tbl, o, tbl.refs[o] - multiset{e.t}))
    case Give(o, to) =>
      if o in tbl.refs && e.t in tbl.refs[o]
      then Some(Holding(tbl, o, tbl.refs[o] - multiset{e.t} + multiset{to})) else None
  }

  function Empty(): Table {
    Table(seq(NHASH, _ => []), map[], map[])
  }

  /** The table after a sequence of calls; None if one of them is not what the table allows. */
  function Replay(log: seq<Event>): Option<Table> {
    if log == [] then Some(Empty()) else
    match Replay(log[..|log| - 1])
    case None => None
    case Some(tbl) => Apply(tbl, log[|log| - 1])
  }

  lemma {:induction false} FirstFound(chain: seq<nat>, ids: map<nat, int>, id: int, k: nat)
    requires k < |chain| && chain[k] in ids && ids[chain[k]] == id
    requires forall j :: 0 <= j < k ==> !(chain[j] in ids && ids[chain[j]] == id)
    ensures First(chain, ids, id) == chain[k]
  {
    if k > 0 { FirstFound(chain[1..], ids, id, k - 1); }
  }

  lemma {:induction false} FirstMissing(chain: seq<nat>, ids: map<nat, int>, id: int)
    requires forall j :: 0 <= j < |chain| ==> !(chain[j] in ids && ids[chain[j]] == id)
    ensures First(chain, ids, id) == 0
  {
    if chain != [] { FirstMissing(chain[1..], ids, id); }
  }

  lemma {:induction false} MinusAt(chain: seq<nat>, k: nat)
    requires k < |chain| && forall i :: 0 <= i < k ==> chain[i] != chain[k]
    ensures Minus(chain, chain[k]) == chain[..k] + chain[k + 1..]
  {
    var rest := chain[1..];
    if k == 0 {
      assert chain[..0] == [];
    } else {
      assert rest[k - 1] == chain[k];
      MinusAt(rest, k - 1);
      assert chain[..k] == [chain[0]] + rest[..k - 1];
      assert rest[k..] == chain[k + 1..];
    }
  }

  // ---------- what the table itself promises ----------

  predicate ChainSound(tbl: Table, h: nat)
    requires h < |tbl.chains|
  {
    var chain := tbl.chains[h];
    && (forall i :: 0 <= i < |chain| ==> chain[i] in tbl.ids && HashOf(tbl.ids[chain[i]]) == h)
    && (forall i, j :: 0 <= i < j < |chain| ==> chain[i] != chain[j])
  }

  predicate ObjectSound(tbl: Table, o: nat)
    requires |tbl.chains| == NHASH && o in tbl.refs && o in tbl.ids
  {
    |tbl.refs[o]| > 0 && o in tbl.chains[HashOf(tbl.ids[o])]
  }

  /** Every object has a reference, and is on the chain of its id and on no other, once. */
  predicate Sound(tbl: Table) {
    && |tbl.chains| == NHASH && tbl.ids.Keys == tbl.refs.Keys
    && (forall o :: o in tbl.refs ==> ObjectSound(tbl, o))
    && (forall h :: 0 <= h < NHASH ==> ChainSound(tbl, h))
  }

  /** References to object `o` taken less references given back, since it was last allocated. */
  function Balance(log: seq<Event>, o: nat): int {
    if log == [] then 0 else
    var e, before := log[|log| - 1], Balance(log[..|log| - 1], o);
    match e.op
    case Alloc(_) => if e.res == o then 1 else before
    case Find(_) => if e.res == o then before + 1 else before
    case Hold(p) => if p == o then before + 1 else before
    case Rele(p) => if p == o then before - 1 else before
    case Give(_, _) => before
  }

  /** Conservation: an object stays in the table exactly as long as more references to it were taken
      than given back. */
  lemma {:induction false} ReferencesBalance(log: seq<Event>, o: nat)
    requires o != 0 && Replay(log).Some?
    ensures Sound(Replay(log).value)
    ensures o in Replay(log).value.refs ==> |Replay(log).value.refs[o]| == Balance(log, o)
    ensures o !in Replay(log).value.refs ==> Balance(log, o) == 0
  {
    if log != [] {
      var front, e := log[..|log| - 1], log[|log| - 1];
      ReferencesBalance(front, o);
      SoundApply(Replay(front).value, e);
      BalanceApply(Replay(front).value, e, o);
    }
  }

  lemma BalanceApply(tbl: Table, e: Event, o: nat)
    requires Sound(tbl) && Apply(tbl, e).Some? && o != 0
    ensures var tbl', n := Apply(tbl, e).value, if o in tbl.refs then |tbl.refs[o]| else 0;
      (if o in tbl'.refs then |tbl'.refs[o]| else 0)
      == match e.op
         case Alloc(_) => if e.res == o then 1 else n
         case Find(_) => if e.res == o then n + 1 else n
         case Hold(p) => if p == o then n + 1 else n
         case Rele(p) => if p == o then n - 1 else n
         case Give(_, _) => n
  {
  }

  lemma SoundApply(tbl: Table, e: Event)
    requires Sound(tbl) && Apply(tbl, e).Some?
    ensures Sound(Apply(tbl, e).value)
  {
    hide HashOf, First;
    var tbl' := Apply(tbl, e).value;
    if e.op.Rele? && |tbl.refs[e.op.o]| == 1 {
      SoundRemoved(tbl, e.op.o);
    } else if e.op.Alloc? && e.res != 0 {
      SoundAdded(tbl, e.t, e.op.id, e.res);
    } else if tbl' != tbl {
      var o := if e.op.Find? then e.res else e.op.o;
      SoundHolding(tbl, o, tbl'.refs[o]);
    }
  }

  lemma SoundHolding(tbl: Table, o: nat, refs: multiset<nat>)
    requires Sound(tbl) && o in tbl.refs && |refs| > 0
    ensures Sound(Holding(tbl, o, refs))
  {
    hide HashOf;
    var tbl' := Holding(tbl, o, refs);
    assert tbl'.refs.Keys == tbl.refs.Keys;
    forall p | p in tbl'.refs ensures ObjectSound(tbl', p) {
      assert ObjectSound(tbl, p);
    }
    forall h | 0 <= h < NHASH ensures ChainSound(tbl', h) {
      assert ChainSound(tbl, h);
    }
  }

  lemma SoundAdded(tbl: Table, t: nat, id: int, o: nat)
    requires Sound(tbl) && o !in tbl.refs
    ensures Sound(Table(tbl.chains[HashOf(id) := [o] + tbl.chains[HashOf(id)]], tbl.ids[o := id],
                        tbl.refs[o := multiset{t}]))
  {
    hide HashOf;
    var c := HashOf(id);
    var tbl' := Table(tbl.chains[c := [o] + tbl.chains[c]], tbl.ids[o := id], tbl.refs[o := multiset{t}]);
    forall p | p in tbl'.refs ensures ObjectSound(tbl', p) {
      if p != o { assert ObjectSound(tbl, p); }
    }
    forall h | 0 <= h < NHASH ensures ChainSound(tbl', h) {
      assert ChainSound(tbl, h);
    }
  }

  lemma SoundRemoved(tbl: Table, o: nat)
    requires Sound(tbl) && o in tbl.refs
    ensures Sound(Removed(tbl, o))
  {
    hide HashOf, Minus;
    assert ObjectSound(tbl, o);
    var c := HashOf(tbl.ids[o]);
    assert ChainSound(tbl, c);
    var chain, tbl' := tbl.chains[c], Removed(tbl, o);
    var k :| 0 <= k < |chain| && chain[k] == o;
    MinusAt(chain, k);
    forall p | p in tbl'.refs ensures ObjectSound(tbl', p) {
      assert ObjectSound(tbl, p);
      MinusHas(chain, k, p);
    }
    forall h | 0 <= h < NHASH ensures ChainSound(tbl', h) {
      assert ChainSound(tbl, h);
    }
  }

  lemma MinusHas(chain: seq<nat>, k: nat, p: nat)
    requires k < |chain| && p != chain[k]
    ensures p in chain ==> p in chain[..k] + chain[k + 1..]
  {
  }
}
