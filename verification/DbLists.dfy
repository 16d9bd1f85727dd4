/** The linked lists inside the index file: 137 hash chains and one free list, threaded through the
    records by file offset, and the key/data map they stand for. */
module DbLists {
  import opened Hashing
  import opened Sequences
  import opened DbFormat

  datatype Rec = Rec(next: nat, key: string, data: string)

  /** `heads[0]` is the free-list pointer, `heads[1 + b]` the pointer of hash chain `b`. */
  datatype Heap = Heap(heads: seq<nat>, recs: seq<Rec>)

  const FREE: nat := 0
  /** Owner of a record that is on no list: it was just unlinked or just appended. */
  const LIMBO: nat := NHASH + 1

  // ---------- hashing ----------

  /** A `char` is signed: bytes from 128 up are negative. */
  function SignedChar(c: char): int {
    if c as int >= 128 then c as int - 256 else c as int
  }

  /** The sum `_db_hash` accumulates, before any wrap-around: each character times its 1-based index. */
  function HashSum(key: string): int {
    if key == "" then 0 else HashSum(key[..|key| - 1]) + SignedChar(key[|key| - 1]) * |key|
  }

  function Bucket(key: string): (b: nat)
    ensures b < NHASH
  {
    var b := HashSum(key) % ULONG % NHASH;
    b
  }

  /** The bucket is the sum of the signed characters, each times its position from 1 on, modulo 2 to the
      power 64 and then modulo 137. */
  lemma BucketIs(key: string, c: char)
    ensures HashSum("") == 0
    ensures HashSum(key + [c]) == HashSum(key) + (if c as int < 128 then c as int else c as int - 256) * (|key| + 1)
    ensures Bucket(key) == HashSum(key) % 18446744073709551616 % 137
  {
    assert (key + [c])[..|key|] == key;
  }

  /** The list a live record with this key belongs to. */
  function ChainOf(key: string): (l: nat)
    ensures FREE < l <= NHASH
  {
    1 + Bucket(key)
  }

  // ---------- lists ----------

  predicate Blank(key: string) {
    forall k :: 0 <= k < |key| ==> key[k] == ' '
  }

  /** `offs[i]` is the file offset of record `i`, `lists[l]` the records on list `l` in link order,
      `own[i]` the list record `i` is on and `loc[key]` the record that holds a live key. */
  datatype Shape = Shape(offs: seq<nat>, lists: seq<seq<nat>>, own: seq<nat>, loc: map<string, nat>)

  /** The pointer that leads to position `k` of a list: an offset, or 0 at the end. */
  function Ref(offs: seq<nat>, list: seq<nat>, k: nat): nat
    requires forall j :: 0 <= j < |list| ==> list[j] < |offs|
  {
    if k < |list| then offs[list[k]] else 0
  }

  predicate Linked(recs: seq<Rec>, offs: seq<nat>, list: seq<nat>, head: nat)
    requires |recs| == |offs|
  {
    && (forall k :: 0 <= k < |list| ==> list[k] < |recs|)
    && head == Ref(offs, list, 0)
    && forall k :: 0 <= k < |list| ==> recs[list[k]].next == Ref(offs, list, k + 1)
  }

  predicate Owned(list: seq<nat>, own: seq<nat>, l: nat) {
    && (forall k :: 0 <= k < |list| ==> list[k] < |own| && own[list[k]] == l)
    && (forall j, k :: 0 <= j < k < |list| ==> list[j] != list[k])
  }

  predicate Sized(h: Heap, g: Shape) {
    |h.heads| == |g.lists| == NHASH + 1 && |g.own| == |g.offs| == |h.recs|
  }

  predicate RecordPlaced(recs: seq<Rec>, g: Shape, i: nat)
    requires i < |recs| == |g.own| && |g.lists| == NHASH + 1
  {
    && g.own[i] <= LIMBO
    && (g.own[i] < LIMBO ==> i in g.lists[g.own[i]])
    && (g.own[i] == FREE ==> Blank(recs[i].key))
    && (FREE < g.own[i] < LIMBO ==>
          && g.own[i] == ChainOf(recs[i].key)
          && recs[i].key in g.loc && g.loc[recs[i].key] == i)
  }

  predicate KeyPlaced(recs: seq<Rec>, g: Shape, key: string)
    requires |recs| == |g.own| && key in g.loc
  {
    && g.loc[key] < |recs| && recs[g.loc[key]].key == key
    && FREE < g.own[g.loc[key]] < LIMBO
  }

  ghost predicate AllLinked(h: Heap, g: Shape)
    requires Sized(h, g)
  {
    && (forall l :: 0 <= l <= NHASH ==> Linked(h.recs, g.offs, g.lists[l], h.heads[l]))
    && (forall l :: 0 <= l <= NHASH ==> Owned(g.lists[l], g.own, l))
  }

  /** Every record is on exactly one list (or in limbo); live records hang on the chain of their
      key's hash, one record a key; deleted records are blank and on the free list. */
  ghost predicate Placed(h: Heap, g: Shape) {
    && Sized(h, g)
    && AllLinked(h, g)
    && (forall i :: 0 <= i < |h.recs| ==> RecordPlaced(h.recs, g, i))
    && (forall key :: key in g.loc ==> KeyPlaced(h.recs, g, key))
  }

  /** No record before position `k` of the list has this key. */
  predicate NotBefore(recs: seq<Rec>, list: seq<nat>, k: nat, key: string)
    requires forall j :: 0 <= j < |list| ==> list[j] < |recs|
  {
    forall j :: 0 <= j < k && j < |list| ==> recs[list[j]].key != key
  }

  ghost predicate NoLimbo(g: Shape) {
    forall i :: 0 <= i < |g.own| ==> g.own[i] != LIMBO
  }

  predicate First(g: Shape, i: nat) {
    i < |g.own| && (g.own[i] < |g.lists| ==> g.lists[g.own[i]] != [] && g.lists[g.own[i]][0] == i)
  }

  /** A record whose key has a separator is the first of its chain: no call gets past it. */
  ghost predicate Fronted(recs: seq<Rec>, g: Shape) {
    forall i :: 0 <= i < |recs| && SEP in recs[i].key ==> First(g, i)
  }

  /** The list starts with a record whose key has a separator. */
  predicate Foul(recs: seq<Rec>, list: seq<nat>) {
    list != [] && list[0] < |recs| && SEP in recs[list[0]].key
  }

  /** The map has a key with a separator on the chain of `key`. */
  ghost predicate Closed(m: map<string, string>, key: string) {
    exists k :: k in m && SEP in k && ChainOf(k) == ChainOf(key)
  }

  /** The data of the live record of a key. */
  function DataOf(recs: seq<Rec>, g: Shape, key: string): string
    requires key in g.loc && g.loc[key] < |recs|
  {
    recs[g.loc[key]].data
  }

  /** The key/data map the files stand for. */
  ghost function View(recs: seq<Rec>, g: Shape): (m: map<string, string>)
    requires forall key :: key in g.loc ==> g.loc[key] < |recs|
  {
    map key | key in g.loc :: DataOf(recs, g, key)
  }

  // ---------- keys with a separator ----------

  /** Past the first record of a chain, and anywhere on the free list, no key has a separator. */
  lemma OnlyFirst(h: Heap, g: Shape, l: nat, k: nat)
    requires Placed(h, g) && Fronted(h.recs, g) && l <= NHASH && k < |g.lists[l]|
    requires k > 0 || l == FREE
    ensures g.lists[l][k] < |h.recs| && SEP !in h.recs[g.lists[l][k]].key
  {
    assert Linked(h.recs, g.offs, g.lists[l], h.heads[l]) && Owned(g.lists[l], g.own, l);
    assert RecordPlaced(h.recs, g, g.lists[l][k]);
  }

  lemma ClosedIsFoul(h: Heap, g: Shape, key: string)
    requires Placed(h, g) && Fronted(h.recs, g)
    ensures forall k :: k in g.loc ==> g.loc[k] < |h.recs|
    ensures Closed(View(h.recs, g), key) <==> Foul(h.recs, g.lists[ChainOf(key)])
  {
    forall k | k in g.loc ensures g.loc[k] < |h.recs| {
      assert KeyPlaced(h.recs, g, k);
    }
    var l := ChainOf(key);
    var list := g.lists[l];
    hide Bucket;
    if k :| k in View(h.recs, g) && SEP in k && ChainOf(k) == l {
      assert KeyPlaced(h.recs, g, k) && RecordPlaced(h.recs, g, g.loc[k]) && First(g, g.loc[k]);
    }
    if Foul(h.recs, list) {
      assert Owned(list, g.own, l) && RecordPlaced(h.recs, g, list[0]);
      assert h.recs[list[0]].key in View(h.recs, g);
    }
  }

  // ---------- unlinking ----------

  /** Write the pointer that leads to position `k` of list `l`. */
  function SetLink(h: Heap, g: Shape, l: nat, k: nat, p: nat): (h': Heap)
    requires Sized(h, g) && l <= NHASH && k <= |g.lists[l]|
    requires k > 0 ==> g.lists[l][k - 1] < |h.recs|
    ensures Sized(h', g)
  {
    if k == 0 then h.(heads := h.heads[l := p])
    else var prev := g.lists[l][k - 1]; h.(recs := h.recs[prev := h.recs[prev].(next := p)])
  }

  function Unlinked(recs: seq<Rec>, g: Shape, l: nat, k: nat): Shape
    requires l < |g.lists| && k < |g.lists[l]| && g.lists[l][k] < |g.own| == |recs|
  {
    var i := g.lists[l][k];
    g.(lists := g.lists[l := Without(g.lists[l], k)], own := g.own[i := LIMBO],
       loc := if l == FREE then g.loc else g.loc - {recs[i].key})
  }

  lemma UnlinkedOwned(own: seq<nat>, list: seq<nat>, k: nat, l: nat)
    requires Owned(list, own, l) && k < |list|
    ensures Owned(Without(list, k), own[list[k] := LIMBO], l)
  {
  }

  lemma Apart(list: seq<nat>, a: nat, b: nat)
    requires (forall i, j :: 0 <= i < j < |list| ==> list[i] != list[j]) && a < |list| && b < |list| && a != b
    ensures list[a] != list[b]
  {
  }

  /** Where the shortened list leads from position `j`, once position `k` is bypassed. */
  lemma UnlinkedNext(recs: seq<Rec>, offs: seq<nat>, list: seq<nat>, head: nat, k: nat, j: nat)
    requires |recs| == |offs| && Linked(recs, offs, list, head) && 0 < k < |list| && j < |list| - 1
    requires forall i, j :: 0 <= i < j < |list| ==> list[i] != list[j]
    ensures var recs' := recs[list[k - 1] := recs[list[k - 1]].(next := recs[list[k]].next)];
      recs'[Without(list, k)[j]].next == Ref(offs, Without(list, k), j + 1)
  {
    var j0 := if j < k then j else j + 1;
    var list' := Without(list, k);
    assert list'[j] == list[j0];
    var after := if j0 == k - 1 then k + 1 else j0 + 1;
    assert Ref(offs, list', j + 1) == Ref(offs, list, after) by {
      if j + 1 < |list'| { assert list'[j + 1] == list[after]; }
    }
    if j0 != k - 1 { Apart(list, j0, k - 1); }
  }

  lemma UnlinkedLinks(recs: seq<Rec>, offs: seq<nat>, list: seq<nat>, head: nat, k: nat)
    requires |recs| == |offs| && Linked(recs, offs, list, head) && k < |list|
    requires forall i, j :: 0 <= i < j < |list| ==> list[i] != list[j]
    ensures k == 0 ==> Linked(recs, offs, Without(list, 0), recs[list[0]].next)
    ensures k > 0 ==> Linked(recs[list[k - 1] := recs[list[k - 1]].(next := recs[list[k]].next)],
                             offs, Without(list, k), head)
  {
    var list' := Without(list, k);
    if k > 0 {
      var recs' := recs[list[k - 1] := recs[list[k - 1]].(next := recs[list[k]].next)];
      forall j | 0 <= j < |list'| ensures recs'[list'[j]].next == Ref(offs, list', j + 1) {
        UnlinkedNext(recs, offs, list, head, k, j);
      }
    }
  }

  lemma SetLinkElsewhere(h: Heap, g: Shape, l: nat, k: nat, p: nat, l': nat)
    requires Sized(h, g) && AllLinked(h, g) && l <= NHASH && k <= |g.lists[l]| && l' <= NHASH && l' != l
    ensures k > 0 ==> g.lists[l][k - 1] < |h.recs|
    ensures var h' := SetLink(h, g, l, k, p); Linked(h'.recs, g.offs, g.lists[l'], h'.heads[l'])
  {
    assert Linked(h.recs, g.offs, g.lists[l], h.heads[l]) && Owned(g.lists[l], g.own, l);
    assert Linked(h.recs, g.offs, g.lists[l'], h.heads[l']) && Owned(g.lists[l'], g.own, l');
  }

  lemma UnlinkAllLinked(h: Heap, g: Shape, l: nat, k: nat)
    requires Placed(h, g) && l <= NHASH && k < |g.lists[l]|
    ensures k > 0 ==> g.lists[l][k - 1] < |h.recs|
    ensures var h' := SetLink(h, g, l, k, h.recs[g.lists[l][k]].next);
      AllLinked(h', Unlinked(h.recs, g, l, k))
  {
    assert Linked(h.recs, g.offs, g.lists[l], h.heads[l]) && Owned(g.lists[l], g.own, l);
    var p := h.recs[g.lists[l][k]].next;
    var h', g' := SetLink(h, g, l, k, p), Unlinked(h.recs, g, l, k);
    UnlinkedLinks(h.recs, g.offs, g.lists[l], h.heads[l], k);
    UnlinkedOwned(g.own, g.lists[l], k, l);
    forall l' | 0 <= l' <= NHASH && l' != l
      ensures Linked(h'.recs, g'.offs, g'.lists[l'], h'.heads[l']) && Owned(g'.lists[l'], g'.own, l')
    {
      SetLinkElsewhere(h, g, l, k, p, l');
      assert Owned(g.lists[l'], g.own, l');
    }
  }

  lemma WithoutKeeps(s: seq<nat>, k: nat, x: nat)
    requires k < |s| && x in s && x != s[k]
    ensures x in Without(s, k)
  {
    var m :| 0 <= m < |s| && s[m] == x;
    assert Without(s, k)[if m < k then m else m - 1] == x;
  }

  lemma UnlinkRecords(h: Heap, g: Shape, l: nat, k: nat, recs': seq<Rec>)
    requires Placed(h, g) && l <= NHASH && k < |g.lists[l]| && g.lists[l][k] < |h.recs| == |recs'|
    requires forall j :: 0 <= j < |recs'| ==> recs'[j].key == h.recs[j].key
    ensures forall key :: key in g.loc ==> g.loc[key] < |recs'|
    ensures var g' := Unlinked(h.recs, g, l, k);
      && (forall j :: 0 <= j < |recs'| ==> RecordPlaced(recs', g', j))
      && (forall key :: key in g'.loc ==> KeyPlaced(recs', g', key))
  {
    var i := g.lists[l][k];
    var g' := Unlinked(h.recs, g, l, k);
    assert Owned(g.lists[l], g.own, l) && RecordPlaced(h.recs, g, i);
    forall j | 0 <= j < |recs'| ensures RecordPlaced(recs', g', j) {
      assert RecordPlaced(h.recs, g, j);
      if g.own[j] == l && j != i {
        WithoutKeeps(g.lists[l], k, j);
      }
    }
    forall key | key in g'.loc ensures KeyPlaced(recs', g', key) {
      assert KeyPlaced(h.recs, g, key);
    }
  }

  lemma UnlinkView(h: Heap, g: Shape, l: nat, k: nat, recs': seq<Rec>)
    requires Placed(h, g) && l <= NHASH && k < |g.lists[l]| && g.lists[l][k] < |h.recs| == |recs'|
    requires forall j :: 0 <= j < |recs'| ==> recs'[j].data == h.recs[j].data
    requires forall key :: key in g.loc ==> g.loc[key] < |recs'|
    ensures View(recs', Unlinked(h.recs, g, l, k))
         == if l == FREE then View(h.recs, g) else View(h.recs, g) - {h.recs[g.lists[l][k]].key}
  {
  }

  /** Taking one record off a list leaves every list well formed and removes exactly its key. */
  lemma Unlink(h: Heap, g: Shape, l: nat, k: nat)
    requires Placed(h, g) && l <= NHASH && k < |g.lists[l]|
    ensures g.lists[l][k] < |h.recs| && (k > 0 ==> g.lists[l][k - 1] < |h.recs|)
    ensures var i := g.lists[l][k];
      var h', g' := SetLink(h, g, l, k, h.recs[i].next), Unlinked(h.recs, g, l, k);
      && Placed(h', g')
      && View(h'.recs, g') == if l == FREE then View(h.recs, g) else View(h.recs, g) - {h.recs[i].key}
  {
    var i := g.lists[l][k];
    UnlinkAllLinked(h, g, l, k);
    var h', g' := SetLink(h, g, l, k, h.recs[i].next), Unlinked(h.recs, g, l, k);
    UnlinkRecords(h, g, l, k, h'.recs);
    UnlinkView(h, g, l, k, h'.recs);
  }

  // ---------- rewriting a record that is on no list ----------

  lemma RewriteLimbo(h: Heap, g: Shape, i: nat, r: Rec)
    requires Placed(h, g) && i < |h.recs| && g.own[i] == LIMBO
    ensures var h' := h.(recs := h.recs[i := r]); Placed(h', g) && View(h'.recs, g) == View(h.recs, g)
  {
    var h' := h.(recs := h.recs[i := r]);
    forall l | 0 <= l <= NHASH ensures Linked(h'.recs, g.offs, g.lists[l], h'.heads[l]) {
      assert Linked(h.recs, g.offs, g.lists[l], h.heads[l]) && Owned(g.lists[l], g.own, l);
    }
    forall j | 0 <= j < |h'.recs| ensures RecordPlaced(h'.recs, g, j) {
      assert RecordPlaced(h.recs, g, j);
    }
    forall key | key in g.loc ensures KeyPlaced(h'.recs, g, key) {
      assert KeyPlaced(h.recs, g, key);
    }
  }

  // ---------- pushing ----------

  function Pushed(recs: seq<Rec>, g: Shape, l: nat, i: nat): Shape
    requires l < |g.lists| && i < |g.own| == |recs|
  {
    g.(lists := g.lists[l := [i] + g.lists[l]], own := g.own[i := l],
       loc := if l == FREE then g.loc else g.loc[recs[i].key := i])
  }

  lemma PushedList(recs: seq<Rec>, offs: seq<nat>, own: seq<nat>, list: seq<nat>, head: nat, i: nat, l: nat)
    requires |recs| == |offs| == |own| && Linked(recs, offs, list, head) && Owned(list, own, l)
    requires i < |recs| && own[i] != l && recs[i].next == head
    ensures Linked(recs, offs, [i] + list, offs[i]) && Owned([i] + list, own[i := l], l)
  {
    var list' := [i] + list;
    forall k | 0 <= k < |list'| ensures recs[list'[k]].next == Ref(offs, list', k + 1) {
      assert k > 0 ==> list'[k] == list[k - 1];
    }
  }

  lemma PushRecords(h: Heap, g: Shape, l: nat, i: nat)
    requires Placed(h, g) && l <= NHASH && i < |h.recs| && g.own[i] == LIMBO
    requires if l == FREE then Blank(h.recs[i].key)
             else l == ChainOf(h.recs[i].key) && h.recs[i].key !in g.loc
    ensures var g' := Pushed(h.recs, g, l, i);
      && (forall j :: 0 <= j < |h.recs| ==> RecordPlaced(h.recs, g', j))
      && (forall key :: key in g'.loc ==> KeyPlaced(h.recs, g', key))
  {
    var g' := Pushed(h.recs, g, l, i);
    assert g'.lists[l] == [i] + g.lists[l];
    forall j | 0 <= j < |h.recs| ensures RecordPlaced(h.recs, g', j) {
      assert RecordPlaced(h.recs, g, j);
      assert j in g.lists[l] ==> j in [i] + g.lists[l];
      assert i in [i] + g.lists[l];
    }
    forall key | key in g'.loc ensures KeyPlaced(h.recs, g', key) {
      assert key in g.loc ==> KeyPlaced(h.recs, g, key);
    }
  }

  /** A record in limbo goes to the front of its list. */
  lemma Push(h: Heap, g: Shape, l: nat, i: nat)
    requires Placed(h, g) && l <= NHASH && i < |h.recs| && g.own[i] == LIMBO
    requires h.recs[i].next == h.heads[l]
    requires if l == FREE then Blank(h.recs[i].key)
             else l == ChainOf(h.recs[i].key) && h.recs[i].key !in g.loc
    ensures var h', g' := h.(heads := h.heads[l := g.offs[i]]), Pushed(h.recs, g, l, i);
      && Placed(h', g')
      && View(h'.recs, g') ==
           if l == FREE then View(h.recs, g) else View(h.recs, g)[h.recs[i].key := h.recs[i].data]
  {
    var h', g' := h.(heads := h.heads[l := g.offs[i]]), Pushed(h.recs, g, l, i);
    forall l' | 0 <= l' <= NHASH
      ensures Linked(h'.recs, g'.offs, g'.lists[l'], h'.heads[l']) && Owned(g'.lists[l'], g'.own, l')
    {
      assert Linked(h.recs, g.offs, g.lists[l'], h.heads[l']) && Owned(g.lists[l'], g.own, l');
      if l' == l { PushedList(h.recs, g.offs, g.own, g.lists[l], h.heads[l], i, l); }
    }
    PushRecords(h, g, l, i);
    assert Placed(h', g');
  }

  // ---------- appending and overwriting ----------

  /** A record appended to both files starts its life in limbo. */
  lemma AppendLimbo(h: Heap, g: Shape, r: Rec, off: nat)
    requires Placed(h, g)
    ensures var h', g' := h.(recs := h.recs + [r]), g.(offs := g.offs + [off], own := g.own + [LIMBO]);
      Placed(h', g') && View(h'.recs, g') == View(h.recs, g)
  {
    var h', g' := h.(recs := h.recs + [r]), g.(offs := g.offs + [off], own := g.own + [LIMBO]);
    forall l | 0 <= l <= NHASH
      ensures Linked(h'.recs, g'.offs, g'.lists[l], h'.heads[l]) && Owned(g'.lists[l], g'.own, l)
    {
      assert Linked(h.recs, g.offs, g.lists[l], h.heads[l]) && Owned(g.lists[l], g.own, l);
    }
    forall j | 0 <= j < |h'.recs| ensures RecordPlaced(h'.recs, g', j) {
      assert j < |h.recs| ==> RecordPlaced(h.recs, g, j);
    }
    forall key | key in g'.loc ensures KeyPlaced(h'.recs, g', key) {
      assert KeyPlaced(h.recs, g, key);
    }
  }

  /** Overwriting the data of a live record changes the view at its key only. */
  lemma Overwrite(h: Heap, g: Shape, key: string, data: string)
    requires Placed(h, g) && key in g.loc && g.loc[key] < |h.recs|
    ensures var i := g.loc[key];
      var h' := h.(recs := h.recs[i := h.recs[i].(data := data)]);
      Placed(h', g) && View(h'.recs, g) == View(h.recs, g)[key := data]
  {
    var i := g.loc[key];
    var h' := h.(recs := h.recs[i := h.recs[i].(data := data)]);
    forall l | 0 <= l <= NHASH ensures Linked(h'.recs, g.offs, g.lists[l], h'.heads[l]) {
      assert Linked(h.recs, g.offs, g.lists[l], h.heads[l]);
    }
    forall j | 0 <= j < |h'.recs| ensures RecordPlaced(h'.recs, g, j) {
      assert RecordPlaced(h.recs, g, j);
    }
    forall k | k in g.loc ensures KeyPlaced(h'.recs, g, k) {
      assert KeyPlaced(h.recs, g, k);
      assert RecordPlaced(h.recs, g, g.loc[k]);
    }
    forall k | k in g.loc ensures View(h'.recs, g)[k] == View(h.recs, g)[key := data][k] {
      assert KeyPlaced(h.recs, g, k) && KeyPlaced(h.recs, g, key);
    }
  }
}
