/** The bytes of an index file that many processes append to: the header, and the records in the order in
    which they were appended. The data offset of a record is wherever its data was appended. */
module DbIndexFile {
  import opened CStrings
  import opened Sequences
  import opened Decimal
  import opened DbFormat
  import opened DbImage
  import opened DbLists

  /** `order` has the offsets of the records as they stand in the file, `off` their data offsets. */
  datatype Index = Index(heads: seq<nat>, recs: map<nat, Rec>, order: seq<nat>, off: map<nat, nat>)

  /** The text of a record with this data offset. */
  function TextOf(rec: Rec, off: nat): string {
    RecText(rec.key, off, |rec.data| + 1)
  }

  function Image(rec: Rec, off: nat): string {
    RecBytes(rec.next, rec.key, off, |rec.data| + 1)
  }

  function ImageAt(x: Index, r: nat): string {
    if r in x.recs && r in x.off then Image(x.recs[r], x.off[r]) else ""
  }

  function Parts(x: Index): (parts: seq<string>)
    ensures |parts| == |x.order|
  {
    seq(|x.order|, i requires 0 <= i < |x.order| => ImageAt(x, x.order[i]))
  }

  /** Within the limits of the format. */
  predicate FitsFields(rec: Rec, off: nat) {
    && rec.next <= PTR_MAX && Text(rec.key) && DataText(rec.data)
    && IDXLEN_MIN <= |TextOf(rec, off)| <= IDXLEN_MAX
  }

  predicate RecordStands(x: Index, i: nat)
    requires i < |x.order|
  {
    var r := x.order[i];
    r in x.recs && r in x.off && FitsFields(x.recs[r], x.off[r]) && r == BASE + Start(Parts(x), i)
  }

  ghost predicate Stands(x: Index) {
    var holds :=
      && GoodHeads(x.heads)
      && (forall i :: 0 <= i < |x.order| ==> RecordStands(x, i))
      && (forall r :: r in x.recs ==> r in x.order)
      && (forall r :: r in x.off ==> r in x.recs);
    holds
  }

  /** The bytes of the file. */
  function Render(x: Index): string {
    Header(x.heads) + Concat(Parts(x))
  }

  // ---------- reading ----------

  lemma ImageSize(rec: Rec, off: nat)
    requires FitsFields(rec, off)
    ensures |Image(rec, off)| == PTR_SZ + IDXLEN_SZ + |TextOf(rec, off)|
    ensures |Pad(PTR_SZ, rec.next)| == PTR_SZ && |Pad(IDXLEN_SZ, |TextOf(rec, off)|)| == IDXLEN_SZ
  {
    RecBytesParts(rec.next, rec.key, off, |rec.data| + 1);
    PtrWidth(rec.next);
    LenWidth(|TextOf(rec, off)|);
  }

  lemma HeadStands(x: Index, l: nat)
    requires Stands(x) && l <= NHASH
    ensures PtrAt(Render(x), PTR_SZ * l, x.heads[l])
  {
    hide Pad, Atol, Concat;
    HeaderShape(x.heads);
    var parts := HeadParts(x.heads);
    PartAt(parts, l);
    SliceOfPrefix(Concat(parts), "\n", PTR_SZ * l, PTR_SZ);
    SliceOfPrefix(Header(x.heads), Concat(Parts(x)), PTR_SZ * l, PTR_SZ);
    PtrAtField(Render(x), PTR_SZ * l, x.heads[l]);
  }

  /** Record number `i` of the file is at its offset; the next one follows it. */
  lemma NumberStands(x: Index, i: nat)
    requires Stands(x) && i < |x.order|
    ensures var r := x.order[i];
      && r in x.recs && r in x.off && FitsFields(x.recs[r], x.off[r]) && r == BASE + Start(Parts(x), i)
      && HasAt(Render(x), r, Image(x.recs[r], x.off[r]))
      && Start(Parts(x), i + 1) == Start(Parts(x), i) + |Image(x.recs[r], x.off[r])|
  {
    hide Pad, Concat, Image, FitsFields;
    assert RecordStands(x, i);
    HeaderShape(x.heads);
    PartAt(Parts(x), i);
    StartOf(Parts(x), i);
    HasAtShift(Header(x.heads), Concat(Parts(x)), Start(Parts(x), i), Parts(x)[i]);
  }

  lemma Stood(x: Index, r: nat) returns (i: nat)
    requires Stands(x) && r in x.recs
    ensures i < |x.order| && x.order[i] == r
  {
    assert r in x.order;
    i :| 0 <= i < |x.order| && x.order[i] == r;
  }

  /** A record stands at its offset, within the limits of its fields. */
  lemma HereItStands(x: Index, r: nat)
    requires Stands(x) && r in x.recs
    ensures r in x.off && FitsFields(x.recs[r], x.off[r]) && BASE <= r
    ensures HasAt(Render(x), r, Image(x.recs[r], x.off[r]))
    ensures r + PTR_SZ + IDXLEN_SZ + |TextOf(x.recs[r], x.off[r])| <= |Render(x)|
  {
    hide Stands, Render, Image, FitsFields;
    var i := Stood(x, r);
    NumberStands(x, i);
    ImageSize(x.recs[r], x.off[r]);
  }

  /** What the two reads of `_db_readidx` find at the offset of a record. */
  lemma ReadsBack(x: Index, r: nat)
    requires Stands(x) && r in x.recs
    ensures r in x.off && IdxText(Render(x), r) == Done((x.recs[r].next, TextOf(x.recs[r], x.off[r])))
    ensures ParseIdx(Render(x), r)
         == if SEP in x.recs[r].key then Halted
            else Done(IdxFields(x.recs[r].next, |TextOf(x.recs[r], x.off[r])|, x.recs[r].key, x.off[r], |x.recs[r].data| + 1))
  {
    hide Stands, Render, RecText, RecBytes, IdxText, ParseIdx, ParseText;
    HereItStands(x, r);
    var rec := x.recs[r];
    ReadBackText(Render(x), r, rec.next, rec.key, x.off[r], |rec.data| + 1);
    ReadBackRecord(Render(x), r, rec.next, rec.key, x.off[r], |rec.data| + 1);
  }

  lemma {:induction false} StartsGrow(parts: seq<string>, i: nat, j: nat)
    requires i <= j <= |parts|
    ensures Start(parts, i) <= Start(parts, j)
    decreases j - i
  {
    if i < j {
      StartsGrow(parts, i, j - 1);
      StartOf(parts, j - 1);
    }
  }

  /** No two records overlap. */
  lemma StandApart(x: Index, q: nat, r: nat)
    requires Stands(x) && q in x.recs && r in x.recs && q < r
    ensures q in x.off && q + PTR_SZ + IDXLEN_SZ + |TextOf(x.recs[q], x.off[q])| <= r
  {
    hide Stands, Render, Image, FitsFields, Parts;
    var i := Stood(x, q);
    var j := Stood(x, r);
    NumberStands(x, i);
    NumberStands(x, j);
    ImageSize(x.recs[q], x.off[q]);
    if j <= i {
      StartsGrow(Parts(x), j, i);
    } else {
      StartsGrow(Parts(x), i + 1, j);
    }
  }

  lemma AllSize(x: Index)
    requires Stands(x)
    ensures |Render(x)| == BASE + Start(Parts(x), |x.order|)
    ensures forall r :: r in x.recs ==> BASE <= r < |Render(x)|
  {
    hide FitsFields, Image;
    HeaderShape(x.heads);
    assert Parts(x)[..|x.order|] == Parts(x);
    hide Stands, Render;
    forall r | r in x.recs ensures BASE <= r < |Render(x)| {
      HereItStands(x, r);
    }
  }

  // ---------- writing ----------

  lemma HeadWritten(x: Index, l: nat, p: nat)
    requires Stands(x) && l <= NHASH && p <= PTR_MAX
    ensures var x' := x.(heads := x.heads[l := p]);
      && Stands(x') && PTR_SZ * l <= |Render(x)| && |Pad(PTR_SZ, p)| == PTR_SZ
      && Pwrite(Render(x), PTR_SZ * l, Pad(PTR_SZ, p)) == Render(x') && |Render(x')| == |Render(x)|
  {
    hide FitsFields;
    HeadBytes(x.heads, l, p);
    var x' := x.(heads := x.heads[l := p]);
    assert Parts(x') == Parts(x);
    forall i | 0 <= i < |x'.order| ensures RecordStands(x', i) {
      assert RecordStands(x, i);
    }
    PwritePrefix(Header(x.heads), Concat(Parts(x)), PTR_SZ * l, Pad(PTR_SZ, p));
  }

  /** A record has one place in the file. */
  lemma OnePlace(x: Index, i: nat, j: nat)
    requires Stands(x) && i < j < |x.order|
    ensures x.order[i] < x.order[j]
  {
    hide Stands, Render, Image, FitsFields, Parts;
    NumberStands(x, i);
    NumberStands(x, j);
    var r := x.order[i];
    ImageSize(x.recs[r], x.off[r]);
    StartsGrow(Parts(x), i + 1, j);
  }

  /** A record rewritten in its place, its image of the same length. */
  lemma RecordWritten(x: Index, r: nat, rec: Rec)
    requires Stands(x) && r in x.recs && r in x.off && FitsFields(rec, x.off[r])
    requires |TextOf(rec, x.off[r])| == |TextOf(x.recs[r], x.off[r])|
    ensures var x' := x.(recs := x.recs[r := rec]);
      && Stands(x') && r <= |Render(x)|
      && Pwrite(Render(x), r, Image(rec, x.off[r])) == Render(x') && |Render(x')| == |Render(x)|
  {
    var x' := x.(recs := x.recs[r := rec]);
    hide FitsFields, TextOf, Image;
    var i := Stood(x, r);
    NumberStands(x, i);
    ImageSize(x.recs[r], x.off[r]);
    ImageSize(rec, x.off[r]);
    OnePart(x, i, rec);
    OthersStand(x, i, rec);
    HeaderShape(x.heads);
    SetPart(Parts(x), i, Image(rec, x.off[r]));
    PwriteShift(Header(x.heads), Concat(Parts(x)), Start(Parts(x), i), Image(rec, x.off[r]));
  }

  lemma OnePart(x: Index, i: nat, rec: Rec)
    requires Stands(x) && i < |x.order| && x.order[i] in x.recs && x.order[i] in x.off
    ensures Parts(x.(recs := x.recs[x.order[i] := rec])) == Parts(x)[i := Image(rec, x.off[x.order[i]])]
  {
    hide Stands, Image;
    var x' := x.(recs := x.recs[x.order[i] := rec]);
    forall j | 0 <= j < |x.order| && j != i ensures x.order[j] != x.order[i] {
      if i < j { OnePlace(x, i, j); } else { OnePlace(x, j, i); }
    }
  }

  lemma OthersStand(x: Index, i: nat, rec: Rec)
    requires Stands(x) && i < |x.order| && x.order[i] in x.recs && x.order[i] in x.off
    requires FitsFields(rec, x.off[x.order[i]])
    requires |Image(rec, x.off[x.order[i]])| == |Image(x.recs[x.order[i]], x.off[x.order[i]])|
    ensures Stands(x.(recs := x.recs[x.order[i] := rec]))
  {
    hide Image, FitsFields;
    var r := x.order[i];
    var x' := x.(recs := x.recs[r := rec]);
    OnePart(x, i, rec);
    forall j | 0 <= j < |x'.order| ensures RecordStands(x', j) {
      assert RecordStands(x, j) && RecordStands(x, i);
      SameStarts(Parts(x), Parts(x'), j);
    }
  }

  /** `_db_writeptr` at the offset of a record changes its chain pointer and nothing else. */
  lemma NextWritten(x: Index, r: nat, p: nat)
    requires Stands(x) && r in x.recs && p <= PTR_MAX
    ensures var x' := x.(recs := x.recs[r := x.recs[r].(next := p)]);
      && Stands(x') && r <= |Render(x)| && Pwrite(Render(x), r, Pad(PTR_SZ, p)) == Render(x')
      && |Render(x')| == |Render(x)|
  {
    hide Stands, Render, RecText;
    HereItStands(x, r);
    var rec, off := x.recs[r], x.off[r];
    var rec' := rec.(next := p);
    RecordWritten(x, r, rec');
    ImageSize(rec, off);
    ImageSize(rec', off);
    hide Pad, Pwrite;
    var rest := Pad(IDXLEN_SZ, |TextOf(rec, off)|) + TextOf(rec, off);
    Assoc(Pad(PTR_SZ, p), Pad(IDXLEN_SZ, |TextOf(rec, off)|), TextOf(rec, off));
    Assoc(Pad(PTR_SZ, rec.next), Pad(IDXLEN_SZ, |TextOf(rec, off)|), TextOf(rec, off));
    WriteThrough(Render(x), r, Pad(PTR_SZ, p), Pad(PTR_SZ, rec.next), rest, Image(rec, off), Image(rec', off));
  }

  /** The index file says only how long the data of a record is. */
  lemma DataChanged(x: Index, r: nat, data: string)
    requires Stands(x) && r in x.recs && |data| == |x.recs[r].data| && DataText(data)
    ensures var x' := x.(recs := x.recs[r := x.recs[r].(data := data)]);
      Stands(x') && Render(x') == Render(x)
  {
    var x' := x.(recs := x.recs[r := x.recs[r].(data := data)]);
    assert Parts(x') == Parts(x);
    forall i | 0 <= i < |x'.order| ensures RecordStands(x', i) {
      assert RecordStands(x, i);
    }
  }

  /** The index with a record appended. */
  function Longer(x: Index, rec: Rec, off: nat): Index {
    var r := |Render(x)|;
    Index(x.heads, x.recs[r := rec], x.order + [r], x.off[r := off])
  }

  lemma PartsAppended(x: Index, rec: Rec, off: nat)
    requires Stands(x) && |Render(x)| !in x.recs
    ensures Parts(Longer(x, rec, off)) == Parts(x) + [Image(rec, off)]
  {
    hide FitsFields, Image;
    var x' := Longer(x, rec, off);
    forall i | 0 <= i < |x.order| ensures ImageAt(x', x.order[i]) == Parts(x)[i] {
      assert RecordStands(x, i);
    }
  }

  lemma RecordAppended(x: Index, rec: Rec, off: nat)
    requires Stands(x) && FitsFields(rec, off)
    ensures |Render(x)| !in x.recs
    ensures Stands(Longer(x, rec, off)) && Render(Longer(x, rec, off)) == Render(x) + Image(rec, off)
  {
    hide FitsFields, Image, TextOf, Parts;
    AllSize(x);
    var r, x' := |Render(x)|, Longer(x, rec, off);
    PartsAppended(x, rec, off);
    AppendPart(Parts(x), Image(rec, off));
    AppendedStands(x, rec, off);
    Assoc(Header(x.heads), Concat(Parts(x)), Image(rec, off));
  }

  lemma AppendedStands(x: Index, rec: Rec, off: nat)
    requires Stands(x) && FitsFields(rec, off) && |Render(x)| !in x.recs
    requires |Render(x)| == BASE + Start(Parts(x), |x.order|)
    requires forall i :: 0 <= i <= |x.order| ==> Start(Parts(Longer(x, rec, off)), i) == Start(Parts(x), i)
    ensures Stands(Longer(x, rec, off))
  {
    hide FitsFields, Render, Parts, Start;
    var r, x' := |Render(x)|, Longer(x, rec, off);
    forall i | 0 <= i < |x'.order| ensures RecordStands(x', i) {
      if i < |x.order| { assert RecordStands(x, i); }
    }
    forall q | q in x'.recs ensures q in x'.order {
      if q != r { assert q in x.order; }
      assert x'.order[|x.order|] == r;
    }
  }

  lemma NewStands(x: Index)
    requires x == Index(seq(NHASH + 1, _ => 0), map[], [], map[])
    ensures Stands(x) && Render(x) == Header(x.heads) && |Render(x)| == BASE
  {
    hide Pad;
    HeaderShape(x.heads);
    assert Parts(x) == [];
  }
}
