/** Bytes and lists together: what one `_db_writeptr`, `_db_writeidx` or `_db_writedat` does to the
    files is one of the moves of `DbLists`. */
module DbHeap {
  import opened CStrings
  import opened Decimal
  import opened DbFormat
  import opened DbImage
  import opened DbLists

  predicate OffsetsOf(recs: seq<Rec>, offs: seq<nat>) {
    |offs| == |recs| && forall i :: 0 <= i < |recs| ==> offs[i] == IdxOff(recs, i)
  }

  ghost predicate Inv(h: Heap, g: Shape) {
    var holds :=
      Good(h) && OffsetsOf(h.recs, g.offs) && Placed(h, g);
    holds
  }

  /** File offset of the pointer that leads to position `k` of list `l`. */
  function PtrOff(g: Shape, l: nat, k: nat): nat
    requires l < |g.lists| && k <= |g.lists[l]| && forall j :: 0 <= j < |g.lists[l]| ==> g.lists[l][j] < |g.offs|
  {
    if k == 0 then PTR_SZ * l else g.offs[g.lists[l][k - 1]]
  }

  lemma ListFacts(h: Heap, g: Shape, l: nat)
    requires Placed(h, g) && l <= NHASH
    ensures Linked(h.recs, g.offs, g.lists[l], h.heads[l]) && Owned(g.lists[l], g.own, l)
  {
  }

  /** The pointer stored at `PtrOff(l, k)` is the offset of position `k`. */
  lemma ReadLink(h: Heap, g: Shape, l: nat, k: nat)
    requires Inv(h, g) && l <= NHASH && k <= |g.lists[l]|
    requires forall j :: 0 <= j < |g.lists[l]| ==> g.lists[l][j] < |g.offs|
    ensures PtrAt(RenderIdx(h), PtrOff(g, l, k), Ref(g.offs, g.lists[l], k))
  {
    ListFacts(h, g, l);
    hide PtrAt, RenderIdx, Placed, Good, IdxOff;
    if k == 0 {
      ReadHead(h, l);
    } else {
      ReadNext(h, g.lists[l][k - 1]);
    }
  }

  lemma WriteLink(h: Heap, g: Shape, l: nat, k: nat, p: nat)
    requires Good(h) && Sized(h, g) && OffsetsOf(h.recs, g.offs) && l <= NHASH && p <= PTR_MAX
    requires k <= |g.lists[l]| && forall j :: 0 <= j < |g.lists[l]| ==> g.lists[l][j] < |g.offs|
    ensures var h' := SetLink(h, g, l, k, p);
      && Good(h') && OffsetsOf(h'.recs, g.offs) && RenderDat(h'.recs) == RenderDat(h.recs)
      && PtrOff(g, l, k) + PTR_SZ <= |RenderIdx(h)| && |Pad(PTR_SZ, p)| == PTR_SZ
      && Pwrite(RenderIdx(h), PtrOff(g, l, k), Pad(PTR_SZ, p)) == RenderIdx(h')
  {
    if k == 0 {
      SetHead(h, l, p);
    } else {
      var i := g.lists[l][k - 1];
      var r' := h.recs[i].(next := p);
      assert GoodRec(h.recs, i);
      SetNext(h, i, p);
      SameLayout(h.recs, i, r');
      assert DatParts(h.recs[i := r']) == DatParts(h.recs);
    }
  }

  /** Rewriting a record in place, in both files. */
  lemma WriteRecord(h: Heap, g: Shape, i: nat, r: Rec)
    requires Good(h) && OffsetsOf(h.recs, g.offs) && i < |h.recs| && SameSize(r, h.recs[i])
    requires r.next <= PTR_MAX && Text(r.key) && DataText(r.data)
    ensures var h' := h.(recs := h.recs[i := r]);
      && Good(h') && OffsetsOf(h'.recs, g.offs)
      && g.offs[i] < |RenderIdx(h)| && DatOff(h.recs, i) < |RenderDat(h.recs)|
      && |TextAt(h'.recs, i)| == |TextAt(h.recs, i)|
      && TextAt(h'.recs, i) == RecText(r.key, DatOff(h.recs, i), |r.data| + 1)
      && Pwrite(RenderIdx(h), g.offs[i], RecBytes(r.next, r.key, DatOff(h.recs, i), |r.data| + 1)) == RenderIdx(h')
      && Pwrite(RenderDat(h.recs), DatOff(h.recs, i), DatBytes(r.data)) == RenderDat(h'.recs)
  {
    hide RecText, RecBytes, RenderIdx, RenderDat, Text, Pwrite, GoodRecs, GoodHeads, IdxOff, DatOff;
    SetRecord(h, i, r);
    SetData(h.recs, i, r);
    SameLayout(h.recs, i, r);
    RecordAt(h, i);
  }

  lemma WriteDataOnly(h: Heap, g: Shape, i: nat, data: string)
    requires Good(h) && OffsetsOf(h.recs, g.offs) && i < |h.recs| && |data| == |h.recs[i].data| && DataText(data)
    ensures var h' := h.(recs := h.recs[i := h.recs[i].(data := data)]);
      && Good(h') && OffsetsOf(h'.recs, g.offs) && RenderIdx(h') == RenderIdx(h)
      && DatOff(h.recs, i) < |RenderDat(h.recs)|
      && Pwrite(RenderDat(h.recs), DatOff(h.recs, i), DatBytes(data)) == RenderDat(h'.recs)
  {
    var r := h.recs[i].(data := data);
    assert GoodRec(h.recs, i);
    SetData(h.recs, i, r);
    SameLayout(h.recs, i, r);
    assert IdxParts(h.recs[i := r]) == IdxParts(h.recs);
  }

  lemma OffsetsPositive(h: Heap, g: Shape, i: nat)
    requires OffsetsOf(h.recs, g.offs) && i < |h.recs|
    ensures g.offs[i] >= BASE > 0
  {
  }

  /** What walking list `l` relies on: where position `k` is, and how it leads to the next one. */
  ghost predicate Position(h: Heap, g: Shape, l: nat, k: nat)
    requires Sized(h, g) && l <= NHASH && k <= |g.lists[l]|
    requires forall j :: 0 <= j < |g.lists[l]| ==> g.lists[l][j] < |h.recs|
  {
    var list := g.lists[l];
    if k == |list| then Ref(g.offs, list, k) == 0
    else
      && Ref(g.offs, list, k) == g.offs[list[k]] == PtrOff(g, l, k + 1) && g.offs[list[k]] > 0
      && h.recs[list[k]].next == Ref(g.offs, list, k + 1)
  }

  lemma Walkable(h: Heap, g: Shape, l: nat)
    requires Inv(h, g) && l <= NHASH
    ensures Sized(h, g) && forall j :: 0 <= j < |g.lists[l]| ==> g.lists[l][j] < |h.recs|
    ensures forall k :: 0 <= k <= |g.lists[l]| ==> Position(h, g, l, k)
    ensures PtrAt(RenderIdx(h), PTR_SZ * l, Ref(g.offs, g.lists[l], 0)) && PtrOff(g, l, 0) == PTR_SZ * l
  {
    ListFacts(h, g, l);
    hide Placed, RenderIdx, PtrAt, Good;
    ReadLink(h, g, l, 0);
    forall k | 0 <= k <= |g.lists[l]| ensures Position(h, g, l, k) {
      if k < |g.lists[l]| { OffsetsPositive(h, g, g.lists[l][k]); }
    }
  }

  /** An offset that some pointer holds fits the pointer field. */
  lemma ListedOffsetsFit(h: Heap, g: Shape, l: nat, k: nat)
    requires Inv(h, g) && l <= NHASH && k < |g.lists[l]|
    ensures g.lists[l][k] < |g.offs| && g.offs[g.lists[l][k]] <= PTR_MAX
  {
    ListFacts(h, g, l);
    if k > 0 {
      assert GoodRec(h.recs, g.lists[l][k - 1]);
    }
  }
}
