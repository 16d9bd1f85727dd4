/** The two files as images of a heap of records: the header fields followed by the index records
    in file order, and the data records in the same order, with no gap in either file. */
module DbImage {
  import opened CStrings
  import opened Sequences
  import opened Decimal
  import opened DbFormat
  import opened DbLists

  // ---------- a file made of consecutive parts ----------

  /** Where part `i` starts; for `i == |parts|`, the end of the file. */
  function Start(parts: seq<string>, i: nat): nat
    requires i <= |parts|
  {
    |Concat(parts[..i])|
  }

  lemma SliceOfPrefix(a: string, b: string, off: nat, n: nat)
    requires off + n <= |a|
    ensures (a + b)[off..off + n] == a[off..off + n]
  {
  }

  lemma PwritePrefix(a: string, b: string, off: nat, w: string)
    requires off + |w| <= |a|
    ensures Pwrite(a + b, off, w) == Pwrite(a, off, w) + b
  {
  }

  lemma StartOf(parts: seq<string>, i: nat)
    requires i < |parts|
    ensures Start(parts, i + 1) == Start(parts, i) + |parts[i]|
    ensures Start(parts, |parts|) == |Concat(parts)|
  {
    assert parts[..i + 1][..i] == parts[..i];
    assert parts[..|parts|] == parts;
  }

  lemma {:induction false} PartAt(parts: seq<string>, i: nat)
    requires i < |parts|
    ensures HasAt(Concat(parts), Start(parts, i), parts[i])
    decreases |parts|
  {
    var n := |parts| - 1;
    if i < n {
      assert parts[..n][..i] == parts[..i];
      PartAt(parts[..n], i);
      SliceOfPrefix(Concat(parts[..n]), parts[n], Start(parts, i), |parts[i]|);
    }
  }

  lemma {:induction false} SameStarts(parts: seq<string>, parts': seq<string>, j: nat)
    requires |parts| == |parts'| && j <= |parts|
    requires forall k :: 0 <= k < |parts| ==> |parts[k]| == |parts'[k]|
    ensures Start(parts, j) == Start(parts', j)
  {
    if j > 0 {
      SameStarts(parts, parts', j - 1);
      StartOf(parts, j - 1);
      StartOf(parts', j - 1);
    }
  }

  lemma {:induction false} SetPart(parts: seq<string>, i: nat, w: string)
    requires i < |parts| && |w| == |parts[i]|
    ensures Start(parts, i) + |w| <= |Concat(parts)|
    ensures Concat(parts[i := w]) == Pwrite(Concat(parts), Start(parts, i), w)
    decreases |parts|
  {
    var n := |parts| - 1;
    PartAt(parts, i);
    if i == n {
      assert parts[i := w][..n] == parts[..n];
    } else {
      assert parts[i := w][..n] == parts[..n][i := w];
      assert parts[..n][..i] == parts[..i];
      SetPart(parts[..n], i, w);
      PwritePrefix(Concat(parts[..n]), parts[n], Start(parts, i), w);
    }
  }

  lemma AppendPart(parts: seq<string>, w: string)
    ensures Concat(parts + [w]) == Concat(parts) + w
    ensures forall i :: 0 <= i <= |parts| ==> Start(parts + [w], i) == Start(parts, i)
  {
    assert (parts + [w])[..|parts|] == parts;
    forall i | 0 <= i <= |parts| ensures Start(parts + [w], i) == Start(parts, i) {
      assert (parts + [w])[..i] == parts[..i];
    }
  }

  // ---------- the heap and its images ----------

  function DatBytes(data: string): string {
    data + "\n"
  }

  function DatParts(recs: seq<Rec>): (parts: seq<string>)
    ensures |parts| == |recs|
  {
    seq(|recs|, i requires 0 <= i < |recs| => DatBytes(recs[i].data))
  }

  function DatOff(recs: seq<Rec>, i: nat): nat
    requires i <= |recs|
  {
    Start(DatParts(recs), i)
  }

  function TextAt(recs: seq<Rec>, i: nat): string
    requires i < |recs|
  {
    RecText(recs[i].key, DatOff(recs, i), |recs[i].data| + 1)
  }

  function RecImage(recs: seq<Rec>, i: nat): string
    requires i < |recs|
  {
    RecBytes(recs[i].next, recs[i].key, DatOff(recs, i), |recs[i].data| + 1)
  }

  function IdxParts(recs: seq<Rec>): (parts: seq<string>)
    ensures |parts| == |recs|
  {
    seq(|recs|, i requires 0 <= i < |recs| => RecImage(recs, i))
  }

  function IdxOff(recs: seq<Rec>, i: nat): nat
    requires i <= |recs|
  {
    BASE + Start(IdxParts(recs), i)
  }

  function HeadParts(heads: seq<nat>): (parts: seq<string>)
    ensures |parts| == |heads|
  {
    seq(|heads|, j requires 0 <= j < |heads| => Pad(PTR_SZ, heads[j]))
  }

  function Header(heads: seq<nat>): string {
    Concat(HeadParts(heads)) + "\n"
  }

  function RenderIdx(h: Heap): string {
    Header(h.heads) + Concat(IdxParts(h.recs))
  }

  function RenderDat(recs: seq<Rec>): string {
    Concat(DatParts(recs))
  }

  predicate DataText(data: string) {
    Text(data) && DATLEN_MIN <= |data| + 1 <= DATLEN_MAX
  }

  predicate GoodRec(recs: seq<Rec>, i: nat)
    requires i < |recs|
  {
    && recs[i].next <= PTR_MAX && Text(recs[i].key) && DataText(recs[i].data)
    && IDXLEN_MIN <= |TextAt(recs, i)| <= IDXLEN_MAX
  }

  predicate GoodRecs(recs: seq<Rec>) {
    forall i :: 0 <= i < |recs| ==> GoodRec(recs, i)
  }

  predicate GoodHeads(heads: seq<nat>) {
    |heads| == NHASH + 1 && forall j :: 0 <= j < |heads| ==> heads[j] <= PTR_MAX
  }

  predicate Good(h: Heap) {
    GoodHeads(h.heads) && GoodRecs(h.recs)
  }

  lemma GoodAt(recs: seq<Rec>, i: nat)
    requires GoodRecs(recs) && i < |recs|
    ensures recs[i].next <= PTR_MAX && Text(recs[i].key) && DataText(recs[i].data)
    ensures IDXLEN_MIN <= |TextAt(recs, i)| <= IDXLEN_MAX
  {
    assert GoodRec(recs, i);
  }

  predicate SameSize(r: Rec, s: Rec) {
    |r.key| == |s.key| && |r.data| == |s.data|
  }

  // ---------- reading the images ----------

  lemma {:induction false} EqualParts(parts: seq<string>, size: nat, j: nat)
    requires j <= |parts| && forall k :: 0 <= k < |parts| ==> |parts[k]| == size
    ensures Start(parts, j) == size * j
  {
    if j > 0 {
      EqualParts(parts, size, j - 1);
      StartOf(parts, j - 1);
    }
  }

  lemma HeaderShape(heads: seq<nat>)
    requires GoodHeads(heads)
    ensures |Header(heads)| == BASE
    ensures forall j :: 0 <= j < |heads| ==> |HeadParts(heads)[j]| == PTR_SZ
    ensures forall j :: 0 <= j <= |heads| ==> Start(HeadParts(heads), j) == PTR_SZ * j
  {
    var parts := HeadParts(heads);
    forall j | 0 <= j < |heads| ensures |parts[j]| == PTR_SZ {
      PtrWidth(heads[j]);
    }
    forall j | 0 <= j <= |heads| ensures Start(parts, j) == PTR_SZ * j {
      EqualParts(parts, PTR_SZ, j);
    }
    assert parts[..|heads|] == parts;
    assert |Concat(parts)| == Start(parts, |heads|);
  }

  /** The pointer field at `off` reads as `p`. */
  predicate PtrAt(image: string, off: nat, p: nat) {
    off + PTR_SZ <= |image| && Atol(image[off..off + PTR_SZ]) == p
  }

  lemma PtrAtField(image: string, off: nat, p: nat)
    requires p <= PTR_MAX && HasAt(image, off, Pad(PTR_SZ, p))
    ensures PtrAt(image, off, p)
  {
    PtrWidth(p);
    AtolOfPad(PTR_SZ, p);
  }

  lemma ReadHead(h: Heap, j: nat)
    requires Good(h) && j <= NHASH
    ensures PtrAt(RenderIdx(h), PTR_SZ * j, h.heads[j])
  {
    hide Pad, Atol, Concat, GoodRecs;
    HeaderShape(h.heads);
    var parts := HeadParts(h.heads);
    PartAt(parts, j);
    SliceOfPrefix(Concat(parts), "\n", PTR_SZ * j, PTR_SZ);
    SliceOfPrefix(Header(h.heads), Concat(IdxParts(h.recs)), PTR_SZ * j, PTR_SZ);
    PtrAtField(RenderIdx(h), PTR_SZ * j, h.heads[j]);
  }

  lemma HasAtShift(a: string, b: string, off: nat, w: string)
    requires HasAt(b, off, w)
    ensures HasAt(a + b, |a| + off, w)
  {
    assert (a + b)[|a| + off..|a| + off + |w|] == b[off..off + |w|];
  }

  /** Every record sits at its offset, and the records tile the file after the header. */
  lemma RecordAt(h: Heap, i: nat)
    requires Good(h) && i < |h.recs|
    ensures HasAt(RenderIdx(h), IdxOff(h.recs, i), RecImage(h.recs, i))
    ensures IdxOff(h.recs, i + 1) == IdxOff(h.recs, i) + PTR_SZ + IDXLEN_SZ + |TextAt(h.recs, i)|
    ensures IdxOff(h.recs, |h.recs|) == |RenderIdx(h)| && IdxOff(h.recs, 0) == BASE
    ensures IdxOff(h.recs, i) < |RenderIdx(h)|
  {
    HeaderShape(h.heads);
    var parts := IdxParts(h.recs);
    PartAt(parts, i);
    StartOf(parts, i);
    assert GoodRec(h.recs, i);
    RecBytesParts(h.recs[i].next, h.recs[i].key, DatOff(h.recs, i), |h.recs[i].data| + 1);
    HasAtShift(Header(h.heads), Concat(parts), Start(parts, i), parts[i]);
  }

  /** An index record without its chain pointer. */
  function AfterPtr(recs: seq<Rec>, i: nat): string
    requires i < |recs|
  {
    Pad(IDXLEN_SZ, |TextAt(recs, i)|) + TextAt(recs, i)
  }

  lemma PtrInFront(recs: seq<Rec>, i: nat)
    requires i < |recs|
    ensures RecImage(recs, i) == Pad(PTR_SZ, recs[i].next) + AfterPtr(recs, i)
  {
    Assoc(Pad(PTR_SZ, recs[i].next), Pad(IDXLEN_SZ, |TextAt(recs, i)|), TextAt(recs, i));
  }

  lemma FrontField(image: string, off: nat, a: string, b: string, whole: string)
    requires whole == a + b && HasAt(image, off, whole)
    ensures HasAt(image, off, a)
  {
    SubSlice(image, off, off + |whole|, 0, |a|);
    assert whole[..|a|] == a;
  }

  lemma ReadNext(h: Heap, i: nat)
    requires Good(h) && i < |h.recs|
    ensures PtrAt(RenderIdx(h), IdxOff(h.recs, i), h.recs[i].next)
  {
    hide RecImage, AfterPtr, RenderIdx, Pad, IdxOff;
    RecordAt(h, i);
    assert GoodRec(h.recs, i);
    PtrInFront(h.recs, i);
    FrontField(RenderIdx(h), IdxOff(h.recs, i), Pad(PTR_SZ, h.recs[i].next), AfterPtr(h.recs, i), RecImage(h.recs, i));
    PtrAtField(RenderIdx(h), IdxOff(h.recs, i), h.recs[i].next);
  }

  /** What `_db_readidx` makes of a record: it ends the process at a key with a separator. */
  function FieldsAt(recs: seq<Rec>, i: nat): Exit<IdxFields>
    requires i < |recs|
  {
    if SEP in recs[i].key then Halted
    else Done(IdxFields(recs[i].next, |TextAt(recs, i)|, recs[i].key, DatOff(recs, i), |recs[i].data| + 1))
  }

  /** `_db_readidx` at the offset of a record returns that record, if its key has no separator. */
  lemma ReadRecord(h: Heap, i: nat)
    requires Good(h) && i < |h.recs|
    ensures ParseIdx(RenderIdx(h), IdxOff(h.recs, i)) == FieldsAt(h.recs, i)
  {
    RecordAt(h, i);
    assert GoodRec(h.recs, i);
    ReadBackRecord(RenderIdx(h), IdxOff(h.recs, i), h.recs[i].next, h.recs[i].key,
                   DatOff(h.recs, i), |h.recs[i].data| + 1);
  }

  /** The data records tile the data file, in the order of the index records. */
  lemma DataAt(recs: seq<Rec>, i: nat)
    requires i < |recs|
    ensures HasAt(RenderDat(recs), DatOff(recs, i), DatBytes(recs[i].data))
    ensures DatOff(recs, i + 1) == DatOff(recs, i) + |recs[i].data| + 1
    ensures DatOff(recs, |recs|) == |RenderDat(recs)| && DatOff(recs, 0) == 0
  {
    PartAt(DatParts(recs), i);
    StartOf(DatParts(recs), i);
  }

  /** `_db_readdat` at the offset of a record returns its data. */
  lemma ReadData(recs: seq<Rec>, i: nat)
    requires i < |recs|
    ensures var off, n := DatOff(recs, i), |recs[i].data|;
      && off + n + 1 <= |RenderDat(recs)| && RenderDat(recs)[off + n] == '\n'
      && RenderDat(recs)[off..off + n] == recs[i].data
  {
    hide RenderDat, DatOff;
    DataAt(recs, i);
    var off, n := DatOff(recs, i), |recs[i].data|;
    var b := DatBytes(recs[i].data);
    assert b[n] == '\n' && b[..n] == recs[i].data;
    SubSlice(RenderDat(recs), off, off + n + 1, 0, n);
    assert RenderDat(recs)[off..off + n + 1][n] == RenderDat(recs)[off + n];
  }

  // ---------- writing the images ----------

  lemma HeadBytes(heads: seq<nat>, l: nat, p: nat)
    requires GoodHeads(heads) && l <= NHASH && p <= PTR_MAX
    ensures |Pad(PTR_SZ, p)| == PTR_SZ && PTR_SZ * l + PTR_SZ <= |Header(heads)|
    ensures Pwrite(Header(heads), PTR_SZ * l, Pad(PTR_SZ, p)) == Header(heads[l := p])
  {
    var parts, w := HeadParts(heads), Pad(PTR_SZ, p);
    HeaderShape(heads);
    PtrWidth(p);
    assert HeadParts(heads[l := p]) == parts[l := w];
    SetPart(parts, l, w);
    PwritePrefix(Concat(parts), "\n", PTR_SZ * l, w);
  }

  lemma SetHead(h: Heap, j: nat, p: nat)
    requires Good(h) && j <= NHASH && p <= PTR_MAX
    ensures PTR_SZ * j + PTR_SZ <= |RenderIdx(h)| && |Pad(PTR_SZ, p)| == PTR_SZ
    ensures Good(h.(heads := h.heads[j := p]))
    ensures Pwrite(RenderIdx(h), PTR_SZ * j, Pad(PTR_SZ, p)) == RenderIdx(h.(heads := h.heads[j := p]))
  {
    HeadBytes(h.heads, j, p);
    PwritePrefix(Header(h.heads), Concat(IdxParts(h.recs)), PTR_SZ * j, Pad(PTR_SZ, p));
  }

  lemma SameData(recs: seq<Rec>, i: nat, r: Rec)
    requires i < |recs| && SameSize(r, recs[i])
    ensures forall j :: 0 <= j <= |recs| ==> DatOff(recs[i := r], j) == DatOff(recs, j)
  {
    var recs' := recs[i := r];
    forall j | 0 <= j <= |recs| ensures DatOff(recs', j) == DatOff(recs, j) {
      SameStarts(DatParts(recs), DatParts(recs'), j);
    }
  }

  lemma SameTexts(recs: seq<Rec>, i: nat, r: Rec)
    requires GoodRecs(recs) && i < |recs| && SameSize(r, recs[i])
    requires r.next <= PTR_MAX && Text(r.key) && DataText(r.data)
    ensures var recs' := recs[i := r];
      && GoodRecs(recs') && |RecImage(recs', i)| == |RecImage(recs, i)| && |TextAt(recs', i)| == |TextAt(recs, i)|
      && forall j :: 0 <= j < |recs| && j != i ==> RecImage(recs', j) == RecImage(recs, j)
  {
    hide DatOff;
    SameData(recs, i, r);
    var recs' := recs[i := r];
    forall j | 0 <= j < |recs| ensures GoodRec(recs', j) && |TextAt(recs', j)| == |TextAt(recs, j)| {
      assert GoodRec(recs, j);
    }
    assert GoodRec(recs, i) && GoodRec(recs', i);
    RecBytesParts(recs[i].next, recs[i].key, DatOff(recs, i), |recs[i].data| + 1);
    RecBytesParts(r.next, r.key, DatOff(recs, i), |r.data| + 1);
  }

  /** Replacing a record by one of the same size moves nothing in either file. */
  lemma SameLayout(recs: seq<Rec>, i: nat, r: Rec)
    requires GoodRecs(recs) && i < |recs| && SameSize(r, recs[i])
    requires r.next <= PTR_MAX && Text(r.key) && DataText(r.data)
    ensures var recs' := recs[i := r];
      && GoodRecs(recs')
      && (forall j :: 0 <= j <= |recs| ==> DatOff(recs', j) == DatOff(recs, j))
      && (forall j :: 0 <= j <= |recs| ==> IdxOff(recs', j) == IdxOff(recs, j))
      && IdxParts(recs') == IdxParts(recs)[i := RecImage(recs', i)]
      && |RecImage(recs', i)| == |RecImage(recs, i)|
      && |TextAt(recs', i)| == |TextAt(recs, i)|
  {
    hide DatOff, RecImage, TextAt, GoodRecs, Text, DataText;
    var recs' := recs[i := r];
    SameData(recs, i, r);
    SameTexts(recs, i, r);
    forall j | 0 <= j <= |recs| ensures IdxOff(recs', j) == IdxOff(recs, j) {
      SameStarts(IdxParts(recs), IdxParts(recs'), j);
    }
  }

  lemma PwriteShift(a: string, b: string, off: nat, w: string)
    requires off + |w| <= |b|
    ensures Pwrite(a + b, |a| + off, w) == a + Pwrite(b, off, w)
  {
    assert (a + b)[..|a| + off] == a + b[..off];
    assert off + |w| < |b| ==> (a + b)[|a| + off + |w|..] == b[off + |w|..];
  }

  lemma SetRecord(h: Heap, i: nat, r: Rec)
    requires Good(h) && i < |h.recs| && SameSize(r, h.recs[i])
    requires r.next <= PTR_MAX && Text(r.key) && DataText(r.data)
    ensures var h' := h.(recs := h.recs[i := r]);
      && Good(h')
      && IdxOff(h.recs, i) + |RecImage(h'.recs, i)| <= |RenderIdx(h)|
      && Pwrite(RenderIdx(h), IdxOff(h.recs, i), RecImage(h'.recs, i)) == RenderIdx(h')
  {
    var h' := h.(recs := h.recs[i := r]);
    var parts, w := IdxParts(h.recs), RecImage(h'.recs, i);
    SameLayout(h.recs, i, r);
    HeaderShape(h.heads);
    SetPart(parts, i, w);
    PwriteShift(Header(h.heads), Concat(parts), Start(parts, i), w);
  }

  lemma PwriteFront(s: string, off: nat, w: string, v: string, rest: string)
    requires HasAt(s, off, v + rest) && |w| == |v|
    ensures Pwrite(s, off, w) == Pwrite(s, off, w + rest)
  {
    var mid, end := off + |v|, off + |v| + |rest|;
    assert s[mid..end] == rest by {
      SubSlice(s, off, end, |v|, |v| + |rest|);
      assert (v + rest)[|v|..] == rest;
    }
    assert s[mid..] == rest + s[end..] by {
      assert s[mid..] == s[mid..end] + s[end..];
    }
    assert s[..off] + w + (rest + s[end..]) == s[..off] + (w + rest) + s[end..];
    assert end == |s| ==> s[end..] == "";
  }

  lemma WriteThrough(s: string, off: nat, w: string, v: string, rest: string, before: string, after: string)
    requires before == v + rest && after == w + rest && |w| == |v| && HasAt(s, off, before)
    ensures off + |w| <= |s| && Pwrite(s, off, w) == Pwrite(s, off, after)
  {
    PwriteFront(s, off, w, v, rest);
  }

  lemma Assoc(a: string, b: string, c: string)
    ensures (a + b) + c == a + (b + c)
  {
  }

  /** `_db_writeptr` at the offset of a record changes its chain pointer and nothing else. */
  lemma SetNext(h: Heap, i: nat, p: nat)
    requires Good(h) && i < |h.recs| && p <= PTR_MAX
    ensures var h' := h.(recs := h.recs[i := h.recs[i].(next := p)]);
      && Good(h')
      && IdxOff(h.recs, i) + PTR_SZ <= |RenderIdx(h)| && |Pad(PTR_SZ, p)| == PTR_SZ
      && Pwrite(RenderIdx(h), IdxOff(h.recs, i), Pad(PTR_SZ, p)) == RenderIdx(h')
  {
    var r' := h.recs[i].(next := p);
    assert GoodRec(h.recs, i);
    SetRecord(h, i, r');
    RecordAt(h, i);
    SameRest(h.recs, i, p);
    hide RecImage, AfterPtr, RenderIdx, Pad, IdxOff, Pwrite, GoodRecs;
    PtrInFront(h.recs, i);
    PtrInFront(h.recs[i := r'], i);
    WriteThrough(RenderIdx(h), IdxOff(h.recs, i), Pad(PTR_SZ, p), Pad(PTR_SZ, h.recs[i].next),
                 AfterPtr(h.recs, i), RecImage(h.recs, i), RecImage(h.recs[i := r'], i));
  }

  lemma SameRest(recs: seq<Rec>, i: nat, p: nat)
    requires GoodRecs(recs) && i < |recs| && p <= PTR_MAX
    ensures AfterPtr(recs[i := recs[i].(next := p)], i) == AfterPtr(recs, i)
    ensures |Pad(PTR_SZ, p)| == |Pad(PTR_SZ, recs[i].next)| == PTR_SZ
  {
    assert GoodRec(recs, i);
    PtrWidth(p);
    PtrWidth(recs[i].next);
    SameLayout(recs, i, recs[i].(next := p));
  }

  lemma SetData(recs: seq<Rec>, i: nat, r: Rec)
    requires i < |recs| && |r.data| == |recs[i].data|
    ensures DatOff(recs, i) + |DatBytes(r.data)| <= |RenderDat(recs)|
    ensures RenderDat(recs[i := r]) == Pwrite(RenderDat(recs), DatOff(recs, i), DatBytes(r.data))
  {
    SetPart(DatParts(recs), i, DatBytes(r.data));
    assert DatParts(recs[i := r]) == DatParts(recs)[i := DatBytes(r.data)];
  }

  /** Appending to both files adds one record at the end of each. */
  lemma Append(h: Heap, r: Rec)
    requires Good(h) && r.next <= PTR_MAX && Text(r.key) && DataText(r.data)
    requires IDXLEN_MIN <= |RecText(r.key, |RenderDat(h.recs)|, |r.data| + 1)| <= IDXLEN_MAX
    ensures var h' := h.(recs := h.recs + [r]);
      && Good(h')
      && RenderDat(h'.recs) == RenderDat(h.recs) + DatBytes(r.data)
      && RenderIdx(h') == RenderIdx(h) + RecBytes(r.next, r.key, |RenderDat(h.recs)|, |r.data| + 1)
      && (forall i :: 0 <= i <= |h.recs| ==> IdxOff(h'.recs, i) == IdxOff(h.recs, i))
      && (forall i :: 0 <= i <= |h.recs| ==> DatOff(h'.recs, i) == DatOff(h.recs, i))
      && IdxOff(h.recs, |h.recs|) == |RenderIdx(h)|
  {
    hide RecImage, Concat, TextAt, Text, AllDigits;
    var recs, recs' := h.recs, h.recs + [r];
    AppendData(recs, r);
    AppendRecords(recs, r);
    var w := RecImage(recs', |recs|);
    AppendPart(IdxParts(recs), w);
    assert IdxParts(recs)[..|recs|] == IdxParts(recs);
    HeaderShape(h.heads);
    Assoc(Header(h.heads), Concat(IdxParts(recs)), w);
  }

  lemma AppendRecords(recs: seq<Rec>, r: Rec)
    requires GoodRecs(recs) && r.next <= PTR_MAX && Text(r.key) && DataText(r.data)
    requires IDXLEN_MIN <= |RecText(r.key, |RenderDat(recs)|, |r.data| + 1)| <= IDXLEN_MAX
    ensures var recs' := recs + [r];
      && GoodRecs(recs')
      && RecImage(recs', |recs|) == RecBytes(r.next, r.key, |RenderDat(recs)|, |r.data| + 1)
      && IdxParts(recs') == IdxParts(recs) + [RecImage(recs', |recs|)]
  {
    hide RecBytes, RecText, Start, RenderDat;
    var recs' := recs + [r];
    AppendData(recs, r);
    forall i | 0 <= i < |recs| ensures RecImage(recs', i) == RecImage(recs, i) && GoodRec(recs', i) {
      assert GoodRec(recs, i);
    }
    assert GoodRec(recs', |recs|);
  }

  lemma AppendData(recs: seq<Rec>, r: Rec)
    ensures RenderDat(recs + [r]) == RenderDat(recs) + DatBytes(r.data)
    ensures forall i :: 0 <= i <= |recs| ==> DatOff(recs + [r], i) == DatOff(recs, i)
    ensures DatOff(recs, |recs|) == |RenderDat(recs)|
  {
    hide Concat, DatBytes;
    assert DatParts(recs + [r]) == DatParts(recs) + [DatBytes(r.data)];
    AppendPart(DatParts(recs), DatBytes(r.data));
    assert DatParts(recs)[..|recs|] == DatParts(recs);
  }
}
