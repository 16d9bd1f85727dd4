/** The sequences of writes that delete, append and reuse a record, taken as wholes: from the bytes
    written to the map the files stand for. */
module DbMoves {
  import opened CStrings
  import opened Decimal
  import opened DbFormat
  import opened DbImage
  import opened DbLists
  import opened DbHeap

  /** The two images hold exactly the heap, and its lists are well formed. */
  ghost predicate Holds(idx: string, dat: string, h: Heap, g: Shape) {
    Inv(h, g) && idx == RenderIdx(h) && dat == RenderDat(h.recs)
  }

  lemma KeyOnChain(h: Heap, g: Shape, key: string)
    requires Placed(h, g) && key in g.loc
    ensures var list := g.lists[ChainOf(key)];
      g.loc[key] in list && g.loc[key] < |h.recs| && h.recs[g.loc[key]].key == key
  {
    assert KeyPlaced(h.recs, g, key) && RecordPlaced(h.recs, g, g.loc[key]);
  }

  lemma KeysInRange(h: Heap, g: Shape)
    requires Placed(h, g)
    ensures Sized(h, g) && forall key :: key in g.loc ==> g.loc[key] < |h.recs|
  {
    forall key | key in g.loc ensures g.loc[key] < |h.recs| {
      assert KeyPlaced(h.recs, g, key);
    }
  }

  lemma RecordOnChain(h: Heap, g: Shape, l: nat, k: nat)
    requires Placed(h, g) && FREE < l <= NHASH && k < |g.lists[l]|
    ensures var i := g.lists[l][k]; i < |h.recs| && h.recs[i].key in g.loc && g.loc[h.recs[i].key] == i
  {
    ListFacts(h, g, l);
    assert RecordPlaced(h.recs, g, g.lists[l][k]);
  }

  // ---------- deleting ----------

  predicate OnList(h: Heap, g: Shape, l: nat, k: nat) {
    && Sized(h, g) && l <= NHASH && k < |g.lists[l]|
    && forall j :: 0 <= j < |g.lists[l]| ==> g.lists[l][j] < |h.recs|
  }

  /** A deleted record: blank key and data of the same lengths, linked to the old free list. */
  function Blanked(r: Rec, next: nat): (b: Rec)
    ensures SameSize(b, r) && Blank(b.key)
  {
    Rec(next, Spaces(|r.key|), Spaces(|r.data|))
  }

  lemma BlankedText(r: Rec, next: nat)
    requires DataText(r.data)
    ensures Text(Blanked(r, next).key) && DataText(Blanked(r, next).data)
  {
  }

  /** The heap after `_db_dodelete`, in the order of its writes. */
  function DeletedHeap(h: Heap, g: Shape, l: nat, k: nat): Heap
    requires OnList(h, g, l, k)
  {
    var i := g.lists[l][k];
    var blanked := h.(recs := h.recs[i := Blanked(h.recs[i], h.heads[FREE])]);
    SetLink(blanked.(heads := h.heads[FREE := g.offs[i]]), g, l, k, h.recs[i].next)
  }

  function DeletedShape(h: Heap, g: Shape, l: nat, k: nat): Shape
    requires OnList(h, g, l, k)
  {
    Pushed(h.recs, Unlinked(h.recs, g, l, k), FREE, g.lists[l][k])
  }

  /** The order of the writes does not matter: the record is unlinked, rewritten and pushed. */
  lemma DeleteInAnyOrder(h: Heap, g: Shape, l: nat, k: nat)
    requires Placed(h, g) && FREE < l && OnList(h, g, l, k)
    ensures var i := g.lists[l][k];
      var h1 := SetLink(h, g, l, k, h.recs[i].next);
      var h2 := h1.(recs := h1.recs[i := Blanked(h.recs[i], h.heads[FREE])]);
      DeletedHeap(h, g, l, k) == h2.(heads := h2.heads[FREE := g.offs[i]])
  {
    ListFacts(h, g, l);
    var list := g.lists[l];
    hide Blanked, Placed;
    if k > 0 {
      assert list[k - 1] != list[k];
    }
  }

  lemma DeleteLists(h: Heap, g: Shape, l: nat, k: nat)
    requires Placed(h, g) && FREE < l && OnList(h, g, l, k)
    ensures Placed(DeletedHeap(h, g, l, k), DeletedShape(h, g, l, k))
    ensures forall key :: key in DeletedShape(h, g, l, k).loc ==>
      DeletedShape(h, g, l, k).loc[key] < |DeletedHeap(h, g, l, k).recs|
    ensures View(DeletedHeap(h, g, l, k).recs, DeletedShape(h, g, l, k))
         == View(h.recs, g) - {h.recs[g.lists[l][k]].key}
  {
    var i := g.lists[l][k];
    DeleteInAnyOrder(h, g, l, k);
    Unlink(h, g, l, k);
    var h1, g1 := SetLink(h, g, l, k, h.recs[i].next), Unlinked(h.recs, g, l, k);
    var r := Blanked(h.recs[i], h.heads[FREE]);
    RewriteLimbo(h1, g1, i, r);
    var h2 := h1.(recs := h1.recs[i := r]);
    hide Placed, Blanked;
    Push(h2, g1, FREE, i);
  }

  lemma DeleteFronted(h: Heap, g: Shape, l: nat, k: nat)
    requires Placed(h, g) && Fronted(h.recs, g) && FREE < l && OnList(h, g, l, k)
    ensures Fronted(DeletedHeap(h, g, l, k).recs, DeletedShape(h, g, l, k))
  {
    ListFacts(h, g, l);
    var h', g' := DeletedHeap(h, g, l, k), DeletedShape(h, g, l, k);
    forall j | 0 <= j < |h'.recs| && SEP in h'.recs[j].key ensures First(g', j) {
      assert j != g.lists[l][k] && h'.recs[j].key == h.recs[j].key;
      assert First(g, j) && RecordPlaced(h.recs, g, j);
    }
  }

  lemma DeleteBytes(h: Heap, g: Shape, l: nat, k: nat)
    requires Inv(h, g) && FREE < l && OnList(h, g, l, k)
    ensures var i := g.lists[l][k];
      var r := Blanked(h.recs[i], h.heads[FREE]);
      var h' := DeletedHeap(h, g, l, k);
      && g.offs[i] <= PTR_MAX && h.recs[i].next <= PTR_MAX && h.heads[FREE] <= PTR_MAX
      && Good(h') && OffsetsOf(h'.recs, g.offs)
      && g.offs[i] <= |RenderIdx(h)| && DatOff(h.recs, i) <= |RenderDat(h.recs)|
      && IDXLEN_MIN <= |RecText(r.key, DatOff(h.recs, i), |r.data| + 1)| <= IDXLEN_MAX
      && Pwrite(RenderDat(h.recs), DatOff(h.recs, i), DatBytes(r.data)) == RenderDat(h'.recs)
      && var w1 := Pwrite(RenderIdx(h), g.offs[i], RecBytes(r.next, r.key, DatOff(h.recs, i), |r.data| + 1));
         var w2 := Pwrite(w1, 0, Pad(PTR_SZ, g.offs[i]));
         PtrOff(g, l, k) <= |w2| && Pwrite(w2, PtrOff(g, l, k), Pad(PTR_SZ, h.recs[i].next)) == RenderIdx(h')
  {
    var i := g.lists[l][k];
    var r := Blanked(h.recs[i], h.heads[FREE]);
    hide Placed, Blanked, Pwrite, RecBytes, RecText, RenderIdx, RenderDat, IdxOff, DatOff, GoodRecs, Pad, Text, TextAt;
    GoodAt(h.recs, i);
    BlankedText(h.recs[i], h.heads[FREE]);
    ListedOffsetsFit(h, g, l, k);
    var h1 := h.(recs := h.recs[i := r]);
    var h2 := h1.(heads := h.heads[FREE := g.offs[i]]);
    WriteRecord(h, g, i, r);
    SetHead(h1, FREE, g.offs[i]);
    WriteLink(h2, g, l, k, h.recs[i].next);
    assert RenderDat(h2.recs) == RenderDat(h1.recs);
  }

  lemma LinkInFile(h: Heap, g: Shape, l: nat, k: nat)
    requires Inv(h, g) && OnList(h, g, l, k)
    ensures PtrOff(g, l, k) <= |RenderIdx(h)|
  {
    hide Placed, RenderIdx, IdxOff, DatOff, GoodRecs;
    assert GoodHeads(h.heads);
    WriteLink(h, g, l, k, 0);
  }

  lemma DeleteKeeps(h: Heap, g: Shape, l: nat, k: nat)
    requires Inv(h, g) && NoLimbo(g) && FREE < l && OnList(h, g, l, k)
    ensures Inv(DeletedHeap(h, g, l, k), DeletedShape(h, g, l, k)) && NoLimbo(DeletedShape(h, g, l, k))
  {
    DeleteLists(h, g, l, k);
    DeleteBytes(h, g, l, k);
    hide Placed, Good, Pwrite, RecBytes, RecText, RenderIdx, RenderDat, DatOff, IdxOff, DeletedHeap;
  }

  lemma FileSizes(h: Heap)
    requires Good(h)
    ensures |RenderIdx(h)| == IdxOff(h.recs, |h.recs|)
    ensures |RenderDat(h.recs)| == DatOff(h.recs, |h.recs|)
  {
    HeaderShape(h.heads);
    assert IdxParts(h.recs)[..|h.recs|] == IdxParts(h.recs);
    assert DatParts(h.recs)[..|h.recs|] == DatParts(h.recs);
  }

  /** Two heaps whose records have the same sizes make files of the same sizes. */
  lemma SameFileSizes(h: Heap, h': Heap)
    requires Good(h) && Good(h') && |h.recs| == |h'.recs|
    requires forall i :: 0 <= i < |h.recs| ==> SameSize(h.recs[i], h'.recs[i])
    ensures |RenderIdx(h')| == |RenderIdx(h)| && |RenderDat(h'.recs)| == |RenderDat(h.recs)|
  {
    FileSizes(h);
    FileSizes(h');
    var n := |h.recs|;
    forall j | 0 <= j <= n ensures DatOff(h'.recs, j) == DatOff(h.recs, j) {
      SameStarts(DatParts(h.recs), DatParts(h'.recs), j);
    }
    forall i | 0 <= i < n ensures |RecImage(h'.recs, i)| == |RecImage(h.recs, i)| {
      hide RenderIdx, RenderDat, DatOff;
      GoodAt(h.recs, i);
      GoodAt(h'.recs, i);
      var r, r' := h.recs[i], h'.recs[i];
      RecBytesParts(r.next, r.key, DatOff(h.recs, i), |r.data| + 1);
      RecBytesParts(r'.next, r'.key, DatOff(h'.recs, i), |r'.data| + 1);
    }
    SameStarts(IdxParts(h.recs), IdxParts(h'.recs), n);
  }

  /** Reading the index file record by record: where record `c` starts, what it says, where it ends. */
  lemma SequentialRead(h: Heap, c: nat)
    requires Good(h) && c <= |h.recs|
    ensures c == |h.recs| ==> IdxOff(h.recs, c) == |RenderIdx(h)|
    ensures c < |h.recs| ==>
      && IdxOff(h.recs, c) < |RenderIdx(h)|
      && ParseIdx(RenderIdx(h), IdxOff(h.recs, c)) == FieldsAt(h.recs, c)
      && IdxOff(h.recs, c + 1) == IdxOff(h.recs, c) + PTR_SZ + IDXLEN_SZ + |TextAt(h.recs, c)|
  {
    hide RenderDat, DatOff, IdxOff, RenderIdx, ParseIdx, TextAt, RecImage;
    FileSizes(h);
    if c < |h.recs| {
      RecordAt(h, c);
      ReadRecord(h, c);
    }
  }

  /** Deleting changes the size of neither file, and moves no record. */
  lemma DeleteSizes(h: Heap, g: Shape, l: nat, k: nat)
    requires Inv(h, g) && FREE < l && OnList(h, g, l, k)
    ensures |RenderIdx(DeletedHeap(h, g, l, k))| == |RenderIdx(h)|
    ensures |RenderDat(DeletedHeap(h, g, l, k).recs)| == |RenderDat(h.recs)|
  {
    hide Placed, RenderIdx, RenderDat, IdxOff, DatOff, RecText, Pwrite, GoodRecs;
    DeleteBytes(h, g, l, k);
    SameFileSizes(h, DeletedHeap(h, g, l, k));
  }

  // ---------- appending ----------

  /** The heap after a record was appended to both files and put at the front of its chain. */
  function AppendedHeap(h: Heap, key: string, data: string): Heap
    requires |h.heads| == NHASH + 1
  {
    Heap(h.heads[ChainOf(key) := IdxOff(h.recs, |h.recs|)], h.recs + [Rec(h.heads[ChainOf(key)], key, data)])
  }

  function AppendedShape(h: Heap, g: Shape, key: string, data: string): Shape
    requires Sized(h, g)
  {
    var recs := h.recs + [Rec(h.heads[ChainOf(key)], key, data)];
    var g1 := g.(offs := g.offs + [IdxOff(h.recs, |h.recs|)], own := g.own + [LIMBO]);
    Pushed(recs, g1, ChainOf(key), |h.recs|)
  }

  /** The longest index record. */
  const RECORD_MAX: nat := PTR_SZ + IDXLEN_SZ + IDXLEN_MAX

  predicate FitsIndex(h: Heap, key: string, data: string) {
    IDXLEN_MIN <= |RecText(key, |RenderDat(h.recs)|, |data| + 1)| <= IDXLEN_MAX
  }

  lemma AppendLists(h: Heap, g: Shape, key: string, data: string)
    requires Placed(h, g) && key !in g.loc
    ensures var h', g' := AppendedHeap(h, key, data), AppendedShape(h, g, key, data);
      && Placed(h', g') && (forall k :: k in g'.loc ==> g'.loc[k] < |h'.recs|)
      && View(h'.recs, g') == View(h.recs, g)[key := data]
  {
    var r := Rec(h.heads[ChainOf(key)], key, data);
    var off := IdxOff(h.recs, |h.recs|);
    AppendLimbo(h, g, r, off);
    var h1, g1 := h.(recs := h.recs + [r]), g.(offs := g.offs + [off], own := g.own + [LIMBO]);
    hide Placed, IdxOff;
    Push(h1, g1, ChainOf(key), |h.recs|);
  }

  lemma AppendFronted(h: Heap, g: Shape, key: string, data: string)
    requires Placed(h, g) && Fronted(h.recs, g) && !Foul(h.recs, g.lists[ChainOf(key)])
    ensures Fronted(AppendedHeap(h, key, data).recs, AppendedShape(h, g, key, data))
  {
    var h', g' := AppendedHeap(h, key, data), AppendedShape(h, g, key, data);
    hide Bucket;
    forall j | 0 <= j < |h'.recs| && SEP in h'.recs[j].key ensures First(g', j) {
      if j < |h.recs| { assert First(g, j) && RecordPlaced(h.recs, g, j); }
    }
  }

  lemma AppendOffsets(h: Heap, g: Shape, r: Rec)
    requires OffsetsOf(h.recs, g.offs)
    requires forall i :: 0 <= i <= |h.recs| ==> IdxOff(h.recs + [r], i) == IdxOff(h.recs, i)
    ensures OffsetsOf(h.recs + [r], g.offs + [IdxOff(h.recs, |h.recs|)])
  {
    hide IdxOff;
  }

  lemma AppendBytes(h: Heap, g: Shape, key: string, data: string)
    requires Inv(h, g) && Text(key) && DataText(data) && FitsIndex(h, key, data)
    requires |RenderIdx(h)| <= PTR_MAX
    ensures var l := ChainOf(key);
      var h', g' := AppendedHeap(h, key, data), AppendedShape(h, g, key, data);
      var w1 := RenderIdx(h) + RecBytes(h.heads[l], key, |RenderDat(h.recs)|, |data| + 1);
      && h.heads[l] <= PTR_MAX && PTR_SZ * l <= |w1|
      && Good(h') && OffsetsOf(h'.recs, g'.offs)
      && RenderDat(h'.recs) == RenderDat(h.recs) + DatBytes(data)
      && Pwrite(w1, PTR_SZ * l, Pad(PTR_SZ, |RenderIdx(h)|)) == RenderIdx(h')
      && |RenderIdx(h')| <= |RenderIdx(h)| + RECORD_MAX
  {
    var l := ChainOf(key);
    var r := Rec(h.heads[l], key, data);
    var h1 := h.(recs := h.recs + [r]);
    hide Placed, Pwrite, RecBytes, RecText, RenderIdx, RenderDat, IdxOff, DatOff, GoodRecs, Pad, Bucket;
    Append(h, r);
    AppendOffsets(h, g, r);
    SetHead(h1, l, |RenderIdx(h)|);
    SameFileSizes(h1, AppendedHeap(h, key, data));
    RecBytesParts(h.heads[l], key, |RenderDat(h.recs)|, |data| + 1);
  }

  // ---------- taking a record off the free list and filling it ----------

  /** Record `i` is a deleted record of exactly these lengths. */
  predicate FreeMatch(h: Heap, g: Shape, i: nat, keylen: nat, datlen: nat) {
    && i < |h.recs| == |g.own| && g.own[i] == FREE
    && |h.recs[i].key| == keylen && |h.recs[i].data| + 1 == datlen
  }

  ghost predicate HasFree(h: Heap, g: Shape, keylen: nat, datlen: nat) {
    exists i :: FreeMatch(h, g, i, keylen, datlen)
  }

  /** Some record that was deleted, and not used again, has a key and data of these lengths. */
  ghost predicate DeletedFits(h: Heap, g: Shape, key: nat, data: nat) {
    exists i :: 0 <= i < |h.recs| == |g.own| && g.own[i] == 0 && |h.recs[i].key| == key && |h.recs[i].data| == data
  }

  lemma FreeIsDeleted(h: Heap, g: Shape, key: nat, data: nat)
    requires |h.recs| == |g.own|
    ensures HasFree(h, g, key, data + 1) <==> DeletedFits(h, g, key, data)
  {
    if DeletedFits(h, g, key, data) {
      var i :| 0 <= i < |h.recs| && g.own[i] == 0 && |h.recs[i].key| == key && |h.recs[i].data| == data;
      assert FreeMatch(h, g, i, key, data + 1);
    }
    if HasFree(h, g, key, data + 1) {
      var i: nat :| FreeMatch(h, g, i, key, data + 1);
      assert FreeMatch(h, g, i, key, data + 1);
    }
  }

  /** No record before position `k` of the free list has these lengths. */
  predicate NoFit(recs: seq<Rec>, list: seq<nat>, k: nat, keylen: nat, datlen: nat)
    requires forall j :: 0 <= j < |list| ==> list[j] < |recs|
  {
    forall j :: 0 <= j < k && j < |list| ==> !(|recs[list[j]].key| == keylen && |recs[list[j]].data| + 1 == datlen)
  }

  lemma FreeListComplete(h: Heap, g: Shape, keylen: nat, datlen: nat)
    requires Placed(h, g) && forall j :: 0 <= j < |g.lists[FREE]| ==> g.lists[FREE][j] < |h.recs|
    requires NoFit(h.recs, g.lists[FREE], |g.lists[FREE]|, keylen, datlen)
    ensures !HasFree(h, g, keylen, datlen)
  {
    forall i | 0 <= i < |h.recs| ensures !FreeMatch(h, g, i, keylen, datlen) {
      assert RecordPlaced(h.recs, g, i);
    }
  }

  /** The heap and its lists after `_db_findfree` took position `k` of the free list. */
  function TakenHeap(h: Heap, g: Shape, k: nat): Heap
    requires OnList(h, g, FREE, k)
  {
    SetLink(h, g, FREE, k, h.recs[g.lists[FREE][k]].next)
  }

  function TakenShape(h: Heap, g: Shape, k: nat): Shape
    requires OnList(h, g, FREE, k)
  {
    Unlinked(h.recs, g, FREE, k)
  }

  /** Only record `i` is on no list. */
  predicate InHand(g: Shape, i: nat) {
    i < |g.own| && g.own[i] == LIMBO && forall j :: 0 <= j < |g.own| && j != i ==> g.own[j] != LIMBO
  }

  lemma TakeFreeLists(h: Heap, g: Shape, k: nat)
    requires Placed(h, g) && NoLimbo(g) && OnList(h, g, FREE, k)
    ensures var i := g.lists[FREE][k];
      var h', g' := TakenHeap(h, g, k), TakenShape(h, g, k);
      && Placed(h', g') && InHand(g', i) && i < |g.own| && g.own[i] == FREE
      && (forall key :: key in g'.loc ==> g'.loc[key] < |h'.recs|)
      && (forall key :: key in g.loc ==> g.loc[key] < |h.recs|)
      && View(h'.recs, g') == View(h.recs, g) && g'.loc == g.loc
  {
    ListFacts(h, g, FREE);
    Unlink(h, g, FREE, k);
  }

  lemma TakeFreeFronted(h: Heap, g: Shape, k: nat)
    requires Placed(h, g) && Fronted(h.recs, g) && OnList(h, g, FREE, k)
    ensures Fronted(TakenHeap(h, g, k).recs, TakenShape(h, g, k))
  {
    var h', g' := TakenHeap(h, g, k), TakenShape(h, g, k);
    forall j | 0 <= j < |h'.recs| && SEP in h'.recs[j].key ensures First(g', j) {
      assert h'.recs[j].key == h.recs[j].key;
      assert First(g, j) && RecordPlaced(h.recs, g, j);
    }
  }

  lemma TakeFreeBytes(h: Heap, g: Shape, k: nat)
    requires Inv(h, g) && OnList(h, g, FREE, k)
    ensures var i := g.lists[FREE][k];
      var h' := TakenHeap(h, g, k);
      && Good(h') && OffsetsOf(h'.recs, g.offs)
      && h.recs[i].next <= PTR_MAX && g.offs[i] <= PTR_MAX
      && PtrOff(g, FREE, k) <= |RenderIdx(h)|
      && RenderDat(h'.recs) == RenderDat(h.recs) && DatOff(h'.recs, i) == DatOff(h.recs, i)
      && Pwrite(RenderIdx(h), PtrOff(g, FREE, k), Pad(PTR_SZ, h.recs[i].next)) == RenderIdx(h')
      && |RenderIdx(h')| == |RenderIdx(h)|
      && |h'.recs[i].key| == |h.recs[i].key| && |h'.recs[i].data| == |h.recs[i].data|
  {
    hide Placed, GoodRecs, GoodHeads, RenderIdx, RenderDat, IdxOff, DatOff, Pwrite, Pad, Text, TextAt;
    GoodAt(h.recs, g.lists[FREE][k]);
    ListedOffsetsFit(h, g, FREE, k);
    TakenLayout(h, g, k);
    WriteLink(h, g, FREE, k, h.recs[g.lists[FREE][k]].next);
    SameFileSizes(h, TakenHeap(h, g, k));
  }

  lemma TakeFree(h: Heap, g: Shape, k: nat)
    requires Inv(h, g) && NoLimbo(g) && OnList(h, g, FREE, k)
    ensures var i := g.lists[FREE][k];
      var h', g' := TakenHeap(h, g, k), TakenShape(h, g, k);
      && Sized(h', g') && Inv(h', g') && InHand(g', i)
      && FreeMatch(h, g, i, |h'.recs[i].key|, |h'.recs[i].data| + 1)
      && (forall key :: key in g'.loc ==> g'.loc[key] < |h'.recs|)
      && (forall key :: key in g.loc ==> g.loc[key] < |h.recs|)
      && View(h'.recs, g') == View(h.recs, g) && g'.loc == g.loc
  {
    hide RenderIdx, RenderDat, IdxOff, DatOff, Pwrite, Pad, Good, NoLimbo, Placed, View, TakenHeap;
    TakeFreeLists(h, g, k);
    TakeFreeBytes(h, g, k);
  }

  lemma TakenLayout(h: Heap, g: Shape, k: nat)
    requires Inv(h, g) && OnList(h, g, FREE, k)
    ensures var i := g.lists[FREE][k];
      var h' := TakenHeap(h, g, k);
      DatOff(h'.recs, i) == DatOff(h.recs, i)
      && |h'.recs[i].key| == |h.recs[i].key| && |h'.recs[i].data| == |h.recs[i].data|
  {
    var i := g.lists[FREE][k];
    assert GoodRec(h.recs, i);
    if k > 0 {
      var prev := g.lists[FREE][k - 1];
      assert GoodRec(h.recs, prev);
      hide Placed, RenderIdx, RenderDat, IdxOff, DatOff, Pad;
      SameLayout(h.recs, prev, h.recs[prev].(next := h.recs[i].next));
    }
  }

  /** Write a record that is on no list and put it at the front of its chain. */
  function FilledHeap(h: Heap, g: Shape, i: nat, key: string, data: string): Heap
    requires Sized(h, g) && i < |h.recs|
  {
    Heap(h.heads[ChainOf(key) := g.offs[i]], h.recs[i := Rec(h.heads[ChainOf(key)], key, data)])
  }

  function FilledShape(h: Heap, g: Shape, i: nat, key: string, data: string): Shape
    requires Sized(h, g) && i < |h.recs|
  {
    Pushed(h.recs[i := Rec(h.heads[ChainOf(key)], key, data)], g, ChainOf(key), i)
  }

  lemma FillLists(h: Heap, g: Shape, i: nat, key: string, data: string)
    requires Placed(h, g) && key !in g.loc && i < |h.recs| && g.own[i] == LIMBO
    ensures var h', g' := FilledHeap(h, g, i, key, data), FilledShape(h, g, i, key, data);
      && Placed(h', g') && (forall k :: k in g'.loc ==> g'.loc[k] < |h'.recs|)
      && View(h'.recs, g') == View(h.recs, g)[key := data]
  {
    var r := Rec(h.heads[ChainOf(key)], key, data);
    RewriteLimbo(h, g, i, r);
    var h1 := h.(recs := h.recs[i := r]);
    hide Placed;
    Push(h1, g, ChainOf(key), i);
  }

  lemma FillFronted(h: Heap, g: Shape, i: nat, key: string, data: string)
    requires Placed(h, g) && Fronted(h.recs, g) && i < |h.recs| && g.own[i] == LIMBO
    requires !Foul(h.recs, g.lists[ChainOf(key)])
    ensures Fronted(FilledHeap(h, g, i, key, data).recs, FilledShape(h, g, i, key, data))
  {
    var h', g' := FilledHeap(h, g, i, key, data), FilledShape(h, g, i, key, data);
    hide Bucket;
    forall j | 0 <= j < |h'.recs| && SEP in h'.recs[j].key ensures First(g', j) {
      if j != i { assert First(g, j) && RecordPlaced(h.recs, g, j); }
    }
  }

  lemma FillBytes(h: Heap, g: Shape, i: nat, key: string, data: string)
    requires Inv(h, g) && Text(key) && DataText(data) && i < |h.recs| && g.offs[i] <= PTR_MAX
    requires |key| == |h.recs[i].key| && |data| == |h.recs[i].data|
    ensures var l := ChainOf(key);
      var h' := FilledHeap(h, g, i, key, data);
      && h.heads[l] <= PTR_MAX && Good(h') && OffsetsOf(h'.recs, g.offs)
      && g.offs[i] <= |RenderIdx(h)| && DatOff(h.recs, i) <= |RenderDat(h.recs)|
      && IDXLEN_MIN <= |RecText(key, DatOff(h.recs, i), |data| + 1)| <= IDXLEN_MAX
      && Pwrite(RenderDat(h.recs), DatOff(h.recs, i), DatBytes(data)) == RenderDat(h'.recs)
      && var w1 := Pwrite(RenderIdx(h), g.offs[i], RecBytes(h.heads[l], key, DatOff(h.recs, i), |data| + 1));
         PTR_SZ * l <= |w1| && Pwrite(w1, PTR_SZ * l, Pad(PTR_SZ, g.offs[i])) == RenderIdx(h')
  {
    var l := ChainOf(key);
    var r := Rec(h.heads[l], key, data);
    hide Placed, Pwrite, RecBytes, RecText, RenderIdx, RenderDat, IdxOff, DatOff, GoodRecs, Pad, Text, TextAt, Bucket;
    GoodAt(h.recs, i);
    GoodAt(h.recs[i := r], i) by { SameLayout(h.recs, i, r); }
    WriteRecord(h, g, i, r);
    SetHead(h.(recs := h.recs[i := r]), l, g.offs[i]);
  }

  /** Filling a record changes the size of neither file. */
  lemma FillSizes(h: Heap, g: Shape, i: nat, key: string, data: string)
    requires Inv(h, g) && Text(key) && DataText(data) && i < |h.recs| && g.offs[i] <= PTR_MAX
    requires |key| == |h.recs[i].key| && |data| == |h.recs[i].data|
    ensures |RenderIdx(FilledHeap(h, g, i, key, data))| == |RenderIdx(h)|
    ensures |RenderDat(FilledHeap(h, g, i, key, data).recs)| == |RenderDat(h.recs)|
  {
    hide Placed, Pwrite, RecBytes, RecText, RenderIdx, RenderDat, IdxOff, DatOff, GoodRecs, Pad, Text, OffsetsOf, Bucket;
    KeysInRange(h, g);
    FillBytes(h, g, i, key, data);
    SameFileSizes(h, FilledHeap(h, g, i, key, data));
  }
}
