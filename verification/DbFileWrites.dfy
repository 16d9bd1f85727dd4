/** Steps that write to the files: over data, an index record or a pointer, and at the ends of both; and
    the end of a process whose append fails a check. */
module DbFileWrites {
  import opened Options
  import opened CStrings
  import opened Sequences
  import opened Decimal
  import opened DbFormat
  import opened DbImage
  import opened DbLists
  import opened Database
  import opened DbRuns
  import opened DbProcesses
  import opened DbProtocol
  import opened DbQuietSteps
  import opened DbInsertSteps
  import opened DbConcurrent
  import opened DbIndexFile
  import opened DbEffects
  import opened DbFiles
  import opened DbFileReads

  // ---------- writing over data ----------

  predicate RewritesData(pc: Pc) {
    pc == DelData || pc == FillDat || pc == Overwriting
  }

  /** What a process writes over the data of its record. */
  function NewData(x: Local): string {
    if x.pc == DelData then Spaces(x.len) else if x.op.StoreCall? then x.op.data else ""
  }

  lemma StoreIsText(s: Sys, q: nat)
    requires Inv(s) && q in s.procs
    ensures Text(Key(s.procs[q])) && (s.procs[q].op.StoreCall? ==> DataText(s.procs[q].op.data))
  {
    hide ListsHold, LocksHold, Agreement, History, ChainOf;
    assert Ready(s, q, s.procs[q]);
  }

  /** The record whose data is written over, and what it is to the new data. */
  lemma RewritePlace(f: Files, q: nat)
    requires FilesHold(f) && q in f.sys.procs && RewritesData(f.sys.procs[q].pc)
    ensures var x := f.sys.procs[q];
      && (x.pc != DelData ==> x.op.StoreCall?) && x.cur in f.sys.recs && x.cur in f.datoff && q in f.regs
      && f.regs[q].datoff == f.datoff[x.cur] && |NewData(x)| == |f.sys.recs[x.cur].data| && DataText(NewData(x))
      && HasAt(f.dat, f.datoff[x.cur], DatBytes(f.sys.recs[x.cur].data))
  {
    hide Inv, FilesHold, IndexHeld, SeekHeld, FrontHeld, PointersFit, TextFits;
    FilesParts(f);
    StoreIsText(f.sys, q);
    var x := f.sys.procs[q];
    assert RegsHeld(f, q) && SameLengths(f.sys, x);
    assert SlotHeld(f, OfRecord(x.cur));
    OldData(f, x.cur);
  }

  lemma OldData(f: Files, r: nat)
    requires IndexHeld(f) && r in f.sys.recs
    ensures r in f.datoff && FitsFields(f.sys.recs[r], f.datoff[r])
  {
    hide Stands, Render, FitsFields, TextOf;
    HereItStands(IndexOf(f), r);
  }

  lemma DataFollows(s: Sys, q: nat, s': Sys, end: nat)
    requires Shaped(s) && q in s.procs && RewritesData(s.procs[q].pc) && FilesFollow(s, s.procs[q], s', end)
    requires (s.procs[q].pc != DelData ==> s.procs[q].op.StoreCall?) && s.procs[q].cur in s.recs
    ensures s'.heads == s.heads
    ensures s'.recs == s.recs[s.procs[q].cur := s.recs[s.procs[q].cur].(data := NewData(s.procs[q]))]
  {
    hide ChainOf;
  }

  /** The ranges after one of them was written over. */
  lemma OneRange(f: Files, q: nat, f': Files, r: nat, data: string)
    requires DataHeld(f) && q in f.sys.procs && GoodMove(f.sys, q, f'.sys)
    requires f.sys.procs[q].pc != DatWrite && !Filed(f.sys.procs[q].pc)
    requires q in f.regs && f'.datoff == f.datoff && f'.regs == f.regs && r in f.sys.recs && r in f.datoff
    requires f'.sys.recs == f.sys.recs[r := f.sys.recs[r].(data := data)] && |data| == |f.sys.recs[r].data|
    requires f.datoff[r] <= |f.dat| && f'.dat == Pwrite(f.dat, f.datoff[r], DatBytes(data))
    ensures DataHeld(f') && |f'.dat| == |f.dat|
  {
    hide DataHeld, GoodMove, SlotSame, Pwrite;
    forall a: Slot | a != OfRecord(r) ensures SlotSame(f, f', a) {
      SlotKept(f, q, f', a);
    }
    DataRewritten(f, f', OfRecord(r), data);
  }

  lemma DataIndex(f: Files, f': Files, r: nat, data: string)
    requires IndexHeld(f) && r in f.sys.recs && |data| == |f.sys.recs[r].data| && DataText(data)
    requires f'.sys.heads == f.sys.heads && f'.sys.recs == f.sys.recs[r := f.sys.recs[r].(data := data)]
    requires f'.order == f.order && f'.datoff == f.datoff && f'.idx == f.idx
    ensures IndexHeld(f')
  {
    hide Stands, Render;
    DataChanged(IndexOf(f), r, data);
    assert IndexOf(f') == IndexOf(f).(recs := f'.sys.recs);
  }

  lemma DataWriting(f: Files, q: nat)
    requires FilesHold(f) && Shaped(f.sys) && q in f.sys.procs && q in f.regs && RewritesData(f.sys.procs[q].pc)
    requires Next(f.sys, q, |f.idx|).Some?
    ensures DataWritten(f, q, NewData(f.sys.procs[q])).Some?
    ensures var g := DataWritten(f, q, NewData(f.sys.procs[q])).value;
      FilesHold(g) && g.sys == Next(f.sys, q, |f.idx|).value
  {
    hide Inv, Frame, Next, SameLengths, FilesHold, DataHeld, IndexHeld, GoodMove, PointersFit, RegsHeld, Effect, FilesFollow, Pwrite, NewData;
    FilesParts(f);
    SysGood(f, q, |f.idx|);
    RewritePlace(f, q);
    var x, s' := f.sys.procs[q], Next(f.sys, q, |f.idx|).value;
    var data := NewData(x);
    var f' := f.(sys := s', dat := Pwrite(f.dat, f.regs[q].datoff, DatBytes(data)));
    assert DataWritten(f, q, data) == Some(f');
    DataFollows(f.sys, q, s', |f.idx|);
    DataIndex(f, f', x.cur, data);
    OneRange(f, q, f', x.cur, data);
    MoveEffect(f.sys, q, s');
    if q in s'.procs { OwnRegs(f, q, f'); }
    StepHeld(f, q, f');
  }

  // ---------- rewriting an index record ----------

  /** The pointer, the key and the data length a process writes over its record. */
  function NewNext(x: Local): nat {
    if x.pc == DelIdx then x.free else x.head
  }

  function NewKey(x: Local): string {
    if x.pc == DelIdx then Spaces(|Key(x)|) else Key(x)
  }

  function NewLength(x: Local): nat {
    if x.pc == DelIdx then x.len + 1 else if x.op.StoreCall? then |x.op.data| + 1 else 0
  }

  predicate RewritesRecord(pc: Pc) {
    pc == DelIdx || pc == FillIdx
  }

  lemma RecordFollows(s: Sys, q: nat, s': Sys, end: nat)
    requires Shaped(s) && q in s.procs && RewritesRecord(s.procs[q].pc) && FilesFollow(s, s.procs[q], s', end)
    requires s.procs[q].cur in s.recs
    ensures s'.heads == s.heads
    ensures var x := s.procs[q]; s'.recs == s.recs[x.cur := Rec(NewNext(x), NewKey(x), s.recs[x.cur].data)]
  {
    hide ChainOf;
  }

  lemma DeleterKnows(s: Sys, q: nat, x: Local)
    requires Shaped(s) && Ready(s, q, x) && x.pc == DelIdx
    ensures x.cur in s.recs && |s.recs[x.cur].key| == |Key(x)|
  {
    hide ChainOf, GoodCall;
  }

  lemma SameTextLength(a: Rec, b: Rec, off: nat)
    requires |a.key| == |b.key| && |a.data| == |b.data|
    ensures |TextOf(a, off)| == |TextOf(b, off)|
  {
  }

  lemma BlankText(n: nat)
    ensures Text(Spaces(n))
  {
  }

  /** What is written over an index record has its size, and fits its fields. */
  lemma RecordPlace(f: Files, q: nat)
    requires FilesHold(f) && q in f.sys.procs && RewritesRecord(f.sys.procs[q].pc)
    requires f.sys.procs[q].pc == FillIdx ==> f.sys.procs[q].op.StoreCall?
    ensures var x := f.sys.procs[q];
      && x.cur in f.sys.recs && x.cur in f.datoff && q in f.regs && f.regs[q].datoff == f.datoff[x.cur]
      && var rec := Rec(NewNext(x), NewKey(x), f.sys.recs[x.cur].data);
         && FitsFields(rec, f.datoff[x.cur]) && |rec.data| + 1 == NewLength(x)
         && |TextOf(rec, f.datoff[x.cur])| == |TextOf(f.sys.recs[x.cur], f.datoff[x.cur])|
  {
    hide Inv, FilesHold, DataHeld, IndexHeld, SeekHeld, FrontHeld, TextFits, RecText, Ready;
    FilesParts(f);
    StoreIsText(f.sys, q);
    var x := f.sys.procs[q];
    assert RegsHeld(f, q) && SameLengths(f.sys, x) && RegistersFit(x);
    ReadyIn(f.sys, q);
    if x.pc == DelIdx { DeleterKnows(f.sys, q, x); }
    OldData(f, x.cur);
    BlankText(|Key(x)|);
    SameTextLength(f.sys.recs[x.cur], Rec(NewNext(x), NewKey(x), f.sys.recs[x.cur].data), f.datoff[x.cur]);
  }

  lemma RecordIndex(f: Files, f': Files, r: nat, rec: Rec)
    requires IndexHeld(f) && r in f.sys.recs && r in f.datoff && FitsFields(rec, f.datoff[r])
    requires |TextOf(rec, f.datoff[r])| == |TextOf(f.sys.recs[r], f.datoff[r])|
    requires f'.sys.heads == f.sys.heads && f'.sys.recs == f.sys.recs[r := rec]
    requires f'.order == f.order && f'.datoff == f.datoff
    requires r <= |f.idx| ==> f'.idx == Pwrite(f.idx, r, Image(rec, f.datoff[r]))
    ensures r <= |f.idx| && IndexHeld(f') && |f'.idx| == |f.idx|
  {
    hide Stands, Render, Pwrite, Image, FitsFields, TextOf;
    RecordWritten(IndexOf(f), r, rec);
    assert IndexOf(f') == IndexOf(f).(recs := f'.sys.recs);
  }

  lemma RecordRewriting(f: Files, q: nat)
    requires FilesHold(f) && Shaped(f.sys) && q in f.sys.procs && q in f.regs && RewritesRecord(f.sys.procs[q].pc)
    requires f.sys.procs[q].pc == FillIdx ==> f.sys.procs[q].op.StoreCall?
    requires Next(f.sys, q, |f.idx|).Some?
    ensures var x := f.sys.procs[q];
      var g := RecordRewritten(f, q, NewNext(x), NewKey(x), NewLength(x));
      g.Some? && FilesHold(g.value) && g.value.sys == Next(f.sys, q, |f.idx|).value
  {
    hide Inv, Frame, Next, SameLengths, FilesHold, DataHeld, IndexHeld, GoodMove, PointersFit, RegsHeld, Effect, FilesFollow, Pwrite, NewNext, NewKey, NewLength, RecText, RecBytes;
    FilesParts(f);
    SysGood(f, q, |f.idx|);
    RecordPlace(f, q);
    var x, s' := f.sys.procs[q], Next(f.sys, q, |f.idx|).value;
    var rec := Rec(NewNext(x), NewKey(x), f.sys.recs[x.cur].data);
    RecordFollows(f.sys, q, s', |f.idx|);
    InIndex(f, x.cur);
    var f' := f.(sys := s', idx := Pwrite(f.idx, x.cur, Image(rec, f.datoff[x.cur])));
    RecordIndex(f, f', x.cur, rec);
    assert RecordRewritten(f, q, NewNext(x), NewKey(x), NewLength(x)) == Some(f');
    SameRanges(f, q, f');
    MoveEffect(f.sys, q, s');
    if q in s'.procs { OwnRegs(f, q, f'); }
    StepHeld(f, q, f');
  }

  lemma InIndex(f: Files, r: nat)
    requires IndexHeld(f) && r in f.sys.recs
    ensures BASE <= r <= |f.idx|
  {
    hide Stands, Render;
    AllSize(IndexOf(f));
  }

  // ---------- writing a pointer ----------

  predicate Relinks(pc: Pc) {
    pc == DelFree || pc == DelLink || pc == FreeTake || pc == LinkHead
  }

  /** The list, the record before and the pointer of a step that writes one. */
  function LinkList(x: Local): nat {
    if x.pc == DelLink || x.pc == LinkHead then Chain(x) else FREE
  }

  function LinkPrev(x: Local): nat {
    if x.pc == DelLink || x.pc == FreeTake then x.prev else 0
  }

  function LinkTo(x: Local): nat {
    if x.pc == DelLink || x.pc == FreeTake then x.val else x.cur
  }

  lemma LinkFollows(s: Sys, q: nat, s': Sys, end: nat)
    requires Shaped(s) && q in s.procs && Relinks(s.procs[q].pc) && FilesFollow(s, s.procs[q], s', end)
    requires LinkPrev(s.procs[q]) != 0 ==> LinkPrev(s.procs[q]) in s.recs
    ensures var x := s.procs[q];
      && LinkList(x) <= NHASH
      && if LinkPrev(x) == 0 then s'.recs == s.recs && s'.heads == s.heads[LinkList(x) := LinkTo(x)]
         else s'.heads == s.heads && s'.recs == s.recs[LinkPrev(x) := s.recs[LinkPrev(x)].(next := LinkTo(x))]
  {
    hide Bucket;
  }

  lemma LinkIndex(f: Files, f': Files, l: nat, prev: nat, v: nat)
    requires IndexHeld(f) && Shaped(f.sys) && l <= NHASH && v <= PTR_MAX && (prev != 0 ==> prev in f.sys.recs)
    requires if prev == 0 then f'.sys.recs == f.sys.recs && f'.sys.heads == f.sys.heads[l := v]
             else f'.sys.heads == f.sys.heads && f'.sys.recs == f.sys.recs[prev := f.sys.recs[prev].(next := v)]
    requires f'.order == f.order && f'.datoff == f.datoff
    requires LinkPlace(l, prev) <= |f.idx| ==> f'.idx == Pwrite(f.idx, LinkPlace(l, prev), Pad(PTR_SZ, v))
    ensures LinkPlace(l, prev) <= |f.idx| && IndexHeld(f') && |f'.idx| == |f.idx|
  {
    hide Stands, Render, Pwrite, Pad;
    if prev == 0 {
      HeadWritten(IndexOf(f), l, v);
      assert IndexOf(f') == IndexOf(f).(heads := f'.sys.heads);
    } else {
      NextWritten(IndexOf(f), prev, v);
      assert IndexOf(f') == IndexOf(f).(recs := f'.sys.recs);
    }
  }

  lemma PrevThere(s: Sys, q: nat, end: nat)
    requires Shaped(s) && q in s.procs && Relinks(s.procs[q].pc) && Next(s, q, end).Some?
    ensures LinkPrev(s.procs[q]) != 0 ==> LinkPrev(s.procs[q]) in s.recs
  {
    hide ChainOf, After;
  }

  lemma PointerFits(f: Files, q: nat)
    requires FilesHold(f) && q in f.sys.procs && Relinks(f.sys.procs[q].pc)
    requires f.sys.procs[q].pc == LinkHead ==> f.sys.procs[q].cur <= PTR_MAX
    ensures LinkTo(f.sys.procs[q]) <= PTR_MAX
  {
    hide Inv, FilesHold, DataHeld, IndexHeld, RegsHeld, ChainOf;
    FilesParts(f);
    assert RegistersFit(f.sys.procs[q]);
  }

  lemma PlaceInFile(f: Files, l: nat, prev: nat)
    requires IndexHeld(f) && Shaped(f.sys) && l <= NHASH && (prev != 0 ==> prev in f.sys.recs)
    ensures LinkPlace(l, prev) <= |f.idx|
  {
    hide Stands, Render, Pwrite, Pad;
    if prev == 0 { HeadWritten(IndexOf(f), l, 0); } else { NextWritten(IndexOf(f), prev, 0); }
  }

  lemma PointerWriting(f: Files, q: nat)
    requires FilesHold(f) && Shaped(f.sys) && q in f.sys.procs && q in f.regs && Relinks(f.sys.procs[q].pc)
    requires f.sys.procs[q].pc == LinkHead ==> f.sys.procs[q].cur <= PTR_MAX
    requires Next(f.sys, q, |f.idx|).Some?
    ensures var x := f.sys.procs[q];
      var g := PointerWritten(f, q, LinkPlace(LinkList(x), LinkPrev(x)), LinkTo(x));
      g.Some? && FilesHold(g.value) && g.value.sys == Next(f.sys, q, |f.idx|).value
  {
    hide Inv, Frame, Next, SameLengths, FilesHold, DataHeld, IndexHeld, GoodMove, PointersFit, RegsHeld, Effect, FilesFollow, Pwrite, Pad, LinkList, LinkPrev, LinkTo, LinkPlace;
    FilesParts(f);
    SysGood(f, q, |f.idx|);
    PrevThere(f.sys, q, |f.idx|);
    PointerFits(f, q);
    var x, s' := f.sys.procs[q], Next(f.sys, q, |f.idx|).value;
    LinkFollows(f.sys, q, s', |f.idx|);
    var at := LinkPlace(LinkList(x), LinkPrev(x));
    PlaceInFile(f, LinkList(x), LinkPrev(x));
    var f' := f.(sys := s', idx := Pwrite(f.idx, at, Pad(PTR_SZ, LinkTo(x))));
    LinkIndex(f, f', LinkList(x), LinkPrev(x), LinkTo(x));
    assert PointerWritten(f, q, at, LinkTo(x)) == Some(f');
    SameRanges(f, q, f');
    MoveEffect(f.sys, q, s');
    if q in s'.procs { OwnRegs(f, q, f'); }
    StepHeld(f, q, f');
  }

  // ---------- appending ----------

  lemma Appender(f: Files, q: nat)
    requires FilesHold(f) && q in f.sys.procs && InsertPc(f.sys.procs[q].pc)
    ensures f.sys.procs[q].op.StoreCall?
  {
    hide FilesHold, Inv, DataHeld, IndexHeld, PointersFit, RegsHeld, SameLengths;
    FilesParts(f);
    InCall(f.sys, q);
  }

  /** A process has sought nothing yet. */
  lemma Seeking(f: Files, q: nat, end: nat)
    requires FilesHold(f) && q in f.sys.procs && q in f.regs && f.regs[q].sought.None?
    requires (f.sys.procs[q].pc == DatWrite && end == |f.dat|) || (f.sys.procs[q].pc == IdxWrite && end == |f.idx|)
    ensures FilesHold(Seek(f, q, end))
  {
    hide FilesHold, Inv, DataHeld, IndexHeld, PointersFit, SameLengths, TextFits;
    FilesParts(f);
    assert RegsHeld(f, q);
    RegsChange(f, q, f.regs[q].(sought := Some(end)));
  }

  lemma AppendFollows(s: Sys, q: nat, end: nat)
    requires Shaped(s) && q in s.procs && s.procs[q].pc == DatWrite && Next(s, q, end).Some?
    ensures var s' := Next(s, q, end).value;
      && s'.heads == s.heads && s'.recs == s.recs && q in s'.procs && s'.procs[q].pc == DatUnlock
      && s'.procs[q].op == s.procs[q].op && s.procs[q].op.StoreCall?
  {
    hide ChainOf;
  }

  /** The registers of a process after it wrote at the end of the data file. */
  lemma DataRegs(f: Files, q: nat, f': Files)
    requires q in f.sys.procs && RegsHeld(f, q) && q in f'.sys.procs && f.sys.procs[q].pc == DatWrite
    requires q in f.regs && q in f'.regs && f'.sys.procs[q].pc == DatUnlock
    requires f'.regs[q].sought.None? && f'.regs[q].front == f.regs[q].front
    ensures RegsHeld(f', q)
  {
    hide TextFits, TextOf;
  }

  /** Data goes to the end of the file that was sought, past every range there is. */
  lemma DataAppending(f: Files, q: nat)
    requires FilesHold(f) && Shaped(f.sys) && q in f.sys.procs && q in f.regs && f.sys.procs[q].pc == DatWrite
    requires f.sys.procs[q].op.StoreCall? && f.regs[q].sought.Some? && Next(f.sys, q, |f.idx|).Some?
    ensures f.regs[q].sought.value == |f.dat|
    ensures var g := DataAppended(f, q, f.regs[q].sought.value, f.sys.procs[q].op.data);
      g.Some? && FilesHold(g.value) && g.value.sys == Next(f.sys, q, |f.idx|).value
  {
    hide Inv, Frame, Next, SameLengths, FilesHold, DataHeld, IndexHeld, GoodMove, PointersFit, Effect, FilesFollow, Pwrite, FrontHeld, HandleHeld;
    FilesParts(f);
    SysGood(f, q, |f.idx|);
    AppendFollows(f.sys, q, |f.idx|);
    assert RegsHeld(f, q);
    var x, s', off := f.sys.procs[q], Next(f.sys, q, |f.idx|).value, |f.dat|;
    var f' := f.(sys := s', dat := Pwrite(f.dat, off, DatBytes(x.op.data)),
                 regs := f.regs[q := f.regs[q].(datoff := off, sought := None)]);
    assert DataAppended(f, q, off, x.op.data) == Some(f');
    SameIndex(f, f');
    GrownRanges(f, q, f');
    MoveEffect(f.sys, q, s');
    DataRegs(f, q, f');
    StepHeld(f, q, f');
  }

  lemma GrownRanges(f: Files, q: nat, f': Files)
    requires DataHeld(f) && q in f.sys.procs && GoodMove(f.sys, q, f'.sys) && f.sys.procs[q].op.StoreCall?
    requires q in f'.sys.procs && f'.sys.procs[q].pc == DatUnlock && f'.sys.procs[q].op == f.sys.procs[q].op
    requires f'.sys.recs == f.sys.recs && f'.datoff == f.datoff && q in f.regs
    requires f'.regs == f.regs[q := f.regs[q].(datoff := |f.dat|, sought := None)]
    requires f'.dat == Pwrite(f.dat, |f.dat|, DatBytes(f.sys.procs[q].op.data))
    ensures DataHeld(f')
  {
    hide DataHeld, Inv, Frame, Effect, SameLengths, RegistersFit, Pwrite;
    forall a: Slot | a != OfProcess(q) ensures SlotSame(f, f', a) {
    }
    DataGrown(f, f', OfProcess(q));
  }

  lemma RecordStepOwn(s: Sys, q: nat, end: nat)
    requires Shaped(s) && q in s.procs && s.procs[q].pc == IdxWrite && Next(s, q, end).Some?
    ensures var s', x := Next(s, q, end).value, s.procs[q];
      && q in s'.procs && s'.procs[q].pc == IdxUnlock && end !in s.recs && x.op.StoreCall?
      && s'.heads == s.heads && s'.recs == s.recs[end := Rec(x.head, Key(x), x.op.data)]
  {
    hide ChainOf;
  }

  lemma RecordRegs(f: Files, q: nat, f': Files)
    requires q in f.sys.procs && RegsHeld(f, q) && q in f'.sys.procs && f.sys.procs[q].pc == IdxWrite
    requires q in f.regs && q in f'.regs && f'.sys.procs[q].pc == IdxUnlock
    requires f'.regs[q] == f.regs[q].(sought := None)
    ensures RegsHeld(f', q)
  {
    hide TextFits, TextOf;
  }

  /** The index and the ranges after a record was appended. */
  lemma AppendedIndex(f: Files, f': Files, rec: Rec, off: nat)
    requires IndexHeld(f) && FitsFields(rec, off)
    requires f'.sys.heads == f.sys.heads && f'.sys.recs == f.sys.recs[|f.idx| := rec]
    requires f'.order == f.order + [|f.idx|] && f'.datoff == f.datoff[|f.idx| := off]
    requires f'.idx == Pwrite(f.idx, |f.idx|, Image(rec, off))
    ensures IndexHeld(f')
  {
    hide Stands, Image, FitsFields, TextOf, Render;
    RecordAppended(IndexOf(f), rec, off);
    LongerIs(f, f', rec, off);
  }

  lemma LongerIs(f: Files, f': Files, rec: Rec, off: nat)
    requires f.idx == Render(IndexOf(f))
    requires f'.sys.heads == f.sys.heads && f'.sys.recs == f.sys.recs[|f.idx| := rec]
    requires f'.order == f.order + [|f.idx|] && f'.datoff == f.datoff[|f.idx| := off]
    requires f'.idx == Pwrite(f.idx, |f.idx|, Image(rec, off))
    ensures IndexOf(f') == Longer(IndexOf(f), rec, off) && f'.idx == f.idx + Image(rec, off)
  {
    hide Render, Image;
  }

  lemma PassedRanges(f: Files, q: nat, f': Files, e: nat)
    requires DataHeld(f) && q in f.sys.procs && GoodMove(f.sys, q, f'.sys) && f.sys.procs[q].op.StoreCall?
    requires f.sys.procs[q].pc == IdxWrite && q in f'.sys.procs && f'.sys.procs[q].pc == IdxUnlock && q in f.regs
    requires e !in f.sys.recs && f'.sys.recs == f.sys.recs[e := Rec(f.sys.procs[q].head, Key(f.sys.procs[q]), f.sys.procs[q].op.data)]
    requires f'.dat == f.dat && f'.datoff == f.datoff[e := f.regs[q].datoff]
    requires f'.regs == f.regs[q := f.regs[q].(sought := None)]
    ensures DataHeld(f')
  {
    hide DataHeld, Inv, Frame, Effect, SameLengths, RegistersFit;
    forall a: Slot | a != OfRecord(e) ensures SlotSame(f, f', a) {
    }
    DataPassedOn(f, f', OfProcess(q), OfRecord(e));
  }

  /** The record that is appended fits its fields. */
  lemma NewRecordFits(f: Files, q: nat)
    requires FilesHold(f) && q in f.sys.procs && f.sys.procs[q].pc == IdxWrite && f.sys.procs[q].op.StoreCall?
    ensures var x := f.sys.procs[q];
      q in f.regs && FitsFields(Rec(x.head, Key(x), x.op.data), f.regs[q].datoff)
  {
    hide Inv, FilesHold, DataHeld, IndexHeld, SeekHeld, FrontHeld, RecText;
    FilesParts(f);
    StoreIsText(f.sys, q);
    assert RegsHeld(f, q) && RegistersFit(f.sys.procs[q]);
  }

  /** The index record goes to the end of the file that was sought, past every record there is, and
      takes over the range of the data appended before. */
  lemma IndexAppending(f: Files, q: nat)
    requires FilesHold(f) && Shaped(f.sys) && q in f.sys.procs && q in f.regs && f.sys.procs[q].pc == IdxWrite
    requires f.sys.procs[q].op.StoreCall? && f.regs[q].sought.Some? && Next(f.sys, q, |f.idx|).Some?
    ensures f.regs[q].sought.value == |f.idx|
    ensures var g := IndexAppended(f, q, f.regs[q].sought.value);
      g.Some? && FilesHold(g.value) && g.value.sys == Next(f.sys, q, |f.idx|).value
  {
    hide Inv, Frame, Next, SameLengths, FilesHold, DataHeld, IndexHeld, GoodMove, PointersFit, Effect, FilesFollow, Pwrite, FrontHeld, HandleHeld, RecBytes, FitsFields;
    FilesParts(f);
    SysGood(f, q, |f.idx|);
    RecordStepOwn(f.sys, q, |f.idx|);
    NewRecordFits(f, q);
    assert RegsHeld(f, q);
    var x, s', e := f.sys.procs[q], Next(f.sys, q, |f.idx|).value, |f.idx|;
    var rec, off := Rec(x.head, Key(x), x.op.data), f.regs[q].datoff;
    var f' := f.(sys := s', idx := Pwrite(f.idx, e, Image(rec, off)), order := f.order + [e],
                 datoff := f.datoff[e := off], regs := f.regs[q := f.regs[q].(sought := None)]);
    assert IndexAppended(f, q, e) == Some(f');
    AppendedIndex(f, f', rec, off);
    PassedRanges(f, q, f', e);
    NotFiled(f, e);
    MoveEffect(f.sys, q, s');
    RecordRegs(f, q, f');
    StepHeld(f, q, f');
  }

  lemma NotFiled(f: Files, e: nat)
    requires IndexHeld(f) && e !in f.sys.recs
    ensures e !in f.datoff
  {
    hide Render;
  }

  // ---------- ending at a check ----------

  lemma EndingRegs(f: Files, q: nat, f': Files)
    requires q in f.sys.procs && RegsHeld(f, q) && q in f'.sys.procs && f'.sys.procs[q].pc == Ending
    requires f.sys.procs[q].pc == IdxLock || f.sys.procs[q].pc == LinkHead
    requires q in f.regs && q in f'.regs && f'.regs[q] == f.regs[q]
    ensures RegsHeld(f', q)
  {
    hide TextFits, TextOf;
    assert SeekHeld(f, q) && FrontHeld(f, q);
  }

  lemma Failing(f: Files, q: nat)
    requires FilesHold(f) && q in f.sys.procs && q in f.regs
    requires f.sys.procs[q].pc == IdxLock || f.sys.procs[q].pc == LinkHead
    ensures Fails(f, q).Some? && FilesHold(Fails(f, q).value) && Failed(f.sys, q) == Some(Fails(f, q).value.sys)
  {
    hide Inv, Frame, SameLengths, FilesHold, DataHeld, IndexHeld, GoodMove, PointersFit, RegsHeld, Effect, Failed;
    FilesParts(f);
    FailGood(f, q);
    var f' := f.(sys := Failed(f.sys, q).value);
    SameIndex(f, f');
    SameRanges(f, q, f');
    if q in f'.sys.procs { EndingRegs(f, q, f'); }
    StepHeld(f, q, f');
  }
}
