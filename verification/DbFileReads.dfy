/** Steps on the files that write nothing: reads, locks and decisions. */
module DbFileReads {
  import opened Options
  import opened CStrings
  import opened Sequences
  import opened Decimal
  import opened DbFormat
  import opened DbImage
  import opened DbLists
  import opened Database
  import opened DbRuns
  import opened DbProcesses
  import opened DbProtocol
  import opened DbQuietSteps
  import opened DbInsertSteps
  import opened DbConcurrent
  import opened DbIndexFile
  import opened DbEffects
  import opened DbFiles

  // ---------- steps that read a pointer, take a lock or decide ----------

  predicate PlainPc(pc: Pc) {
    LockPc(pc) || pc == ReadHead || pc == InsHead || pc == FreeHead || pc == DelRead || pc == Found || pc == NotFound
  }

  lemma PlainFollows(s: Sys, q: nat, s': Sys, end: nat)
    requires Shaped(s) && q in s.procs && PlainPc(s.procs[q].pc) && FilesFollow(s, s.procs[q], s', end)
    ensures s'.heads == s.heads && s'.recs == s.recs
  {
    hide ChainOf;
  }

  lemma SameIndex(f: Files, f': Files)
    requires IndexHeld(f) && f'.sys.heads == f.sys.heads && f'.sys.recs == f.sys.recs
    requires f'.order == f.order && f'.datoff == f.datoff && f'.idx == f.idx
    ensures IndexHeld(f')
  {
    hide Stands, Render;
    assert IndexOf(f') == IndexOf(f);
  }

  /** The data file after a step that does not write there. */
  lemma SameRanges(f: Files, q: nat, f': Files)
    requires DataHeld(f) && q in f.sys.procs && GoodMove(f.sys, q, f'.sys) && f.sys.procs[q].pc != DatWrite
    requires f'.datoff == f.datoff && f'.dat == f.dat && q in f.regs && f'.regs.Keys == f.regs.Keys
    requires forall p :: p in f.regs && p != q ==> f'.regs[p].datoff == f.regs[p].datoff
    requires Filed(f.sys.procs[q].pc) ==> f'.regs[q].datoff == f.regs[q].datoff
    requires forall r :: r in f'.sys.recs ==> r in f.sys.recs && f'.sys.recs[r].data == f.sys.recs[r].data
    ensures DataHeld(f')
  {
    hide DataHeld, GoodMove, SlotSame;
    forall a: Slot ensures SlotSame(f, f', a) {
      SlotKept(f, q, f', a);
    }
    DataKept(f, f');
  }

  lemma CheckedRegs(f: Files, q: nat, f': Files)
    requires q in f.sys.procs && RegsHeld(f, q) && q in f'.sys.procs && Effect(f.sys, q, f'.sys)
    requires q in f.regs && q in f'.regs && f'.regs[q] == f.regs[q] && f.sys.procs[q].pc == IdxLock
    requires f.sys.procs[q].op.StoreCall? ==>
      TextFits(Key(f.sys.procs[q]), f.regs[q].datoff, |f.sys.procs[q].op.data| + 1)
    ensures RegsHeld(f', q)
  {
    hide SameLengths, TextFits, TextOf;
  }

  /** A step that leaves both files as they are. */
  lemma PlainFiles(f: Files, q: nat)
    requires FilesHold(f) && Shaped(f.sys) && q in f.sys.procs && q in f.regs && Next(f.sys, q, |f.idx|).Some?
    requires PlainPc(f.sys.procs[q].pc)
    requires f.sys.procs[q].pc == IdxLock && f.sys.procs[q].op.StoreCall? ==>
      TextFits(Key(f.sys.procs[q]), f.regs[q].datoff, |f.sys.procs[q].op.data| + 1)
    ensures FilesHold(f.(sys := Next(f.sys, q, |f.idx|).value))
  {
    hide Inv, Frame, Next, SameLengths, FilesHold, DataHeld, IndexHeld, GoodMove, PointersFit, RegsHeld, Effect, FilesFollow, TextFits;
    FilesParts(f);
    SysGood(f, q, |f.idx|);
    var f' := f.(sys := Next(f.sys, q, |f.idx|).value);
    PlainFollows(f.sys, q, f'.sys, |f.idx|);
    SameIndex(f, f');
    SameRanges(f, q, f');
    MoveEffect(f.sys, q, f'.sys);
    if q in f'.sys.procs {
      if f.sys.procs[q].pc == IdxLock { CheckedRegs(f, q, f'); } else { OwnRegs(f, q, f'); }
    }
    StepHeld(f, q, f');
  }

  lemma MoveEffect(s: Sys, q: nat, s': Sys)
    requires q in s.procs && GoodMove(s, q, s')
    ensures Effect(s, q, s') && Inv(s')
  {
    hide Inv, Frame, SameLengths, RegistersFit, Effect;
  }

  lemma PointerIsRead(f: Files, q: nat, l: nat)
    requires FilesHold(f) && Shaped(f.sys) && q in f.sys.procs && l <= NHASH
    ensures PointerRead(f, q, PTR_SZ * l, f.sys.heads[l]) == Stepped(f, q, |f.idx|)
  {
    hide Inv, Next, SameLengths, FilesHold, DataHeld, PointersFit, RegsHeld, Render, Stands, PtrAt, Stepped;
    FilesParts(f);
    HeadStands(IndexOf(f), l);
  }

  lemma FoundAt(s: Sys, q: nat, x: Local)
    requires Shaped(s) && Ready(s, q, x) && x.pc == Found
    ensures x.cur in s.recs
  {
    hide ChainOf, GoodCall;
  }

  lemma DataIsRead(f: Files, q: nat)
    requires FilesHold(f) && Shaped(f.sys) && q in f.sys.procs && q in f.regs && f.sys.procs[q].pc == Found
    ensures f.sys.procs[q].cur in f.sys.recs
    ensures HasAt(f.dat, f.regs[q].datoff, DatBytes(f.sys.recs[f.sys.procs[q].cur].data))
    ensures DataRead(f, q) == Stepped(f, q, |f.idx|)
  {
    hide Inv, Next, SameLengths, FilesHold, IndexHeld, PointersFit, Ready, Stepped, SeekHeld, FrontHeld, TextFits;
    FilesParts(f);
    ReadyIn(f.sys, q);
    FoundAt(f.sys, q, f.sys.procs[q]);
    assert RegsHeld(f, q);
    assert SlotHeld(f, OfRecord(f.sys.procs[q].cur));
  }

  lemma PlainStepIs(f: Files, q: nat)
    requires FilesHold(f) && Shaped(f.sys) && q in f.sys.procs && q in f.regs && PlainPc(f.sys.procs[q].pc)
    requires f.sys.procs[q].pc != IdxLock
    ensures FileStep(f, q) == Stepped(f, q, |f.idx|)
  {
    hide FilesHold, Stepped, PointerRead, DataRead, ChainOf;
    var x := f.sys.procs[q];
    PointerIsRead(f, q, Chain(x));
    PointerIsRead(f, q, FREE);
    if x.pc == Found { DataIsRead(f, q); }
    match x.pc {
      case ReadHead => case InsHead => case FreeHead => case DelRead => case Found => case NotFound => case _ =>
    }
  }

  // ---------- reading a record ----------

  lemma FrontOfText(image: string, off: nat, next: int, text: string)
    requires IdxText(image, off) == Done((next, text))
    ensures FrontAt(image, off) == Some((next, |text|))
    ensures off + PTR_SZ + IDXLEN_SZ + |text| <= |image|
    ensures image[off + PTR_SZ + IDXLEN_SZ..off + PTR_SZ + IDXLEN_SZ + |text|] == text
    ensures ParseIdx(image, off) == ParseText(next, text)
  {
    hide Atol, ParseText;
  }

  /** What both reads of a record give. */
  lemma RecordIsRead(f: Files, r: nat)
    requires IndexHeld(f) && r in f.sys.recs
    ensures r in f.datoff
    ensures var rec, start := f.sys.recs[r], r + PTR_SZ + IDXLEN_SZ;
      var len := |TextOf(rec, f.datoff[r])|;
      && FrontAt(f.idx, r) == Some((rec.next, len)) && start + len <= |f.idx|
      && ParseText(rec.next, f.idx[start..start + len]) == ReadAs(f, r)
  {
    hide Stands, Render, IdxText, ParseIdx, ParseText, RecText;
    ReadsBack(IndexOf(f), r);
    FrontOfText(f.idx, r, f.sys.recs[r].next, TextOf(f.sys.recs[r], f.datoff[r]));
  }

  lemma WalkerThere(f: Files, q: nat)
    requires FilesHold(f) && q in f.sys.procs && (f.sys.procs[q].pc == Walking || f.sys.procs[q].pc == FreeWalk)
    ensures f.sys.procs[q].cur in f.sys.recs
  {
    hide FilesHold, Inv, DataHeld, IndexHeld, PointersFit, RegsHeld, SameLengths;
    FilesParts(f);
    InCall(f.sys, q);
  }

  /** A seek, or the first read of a record. */
  lemma RegsChange(f: Files, q: nat, g: Regs)
    requires FilesHold(f) && q in f.sys.procs && q in f.regs && g.datoff == f.regs[q].datoff
    requires RegsHeld(f.(regs := f.regs[q := g]), q)
    ensures FilesHold(f.(regs := f.regs[q := g]))
  {
    hide Inv, SameLengths, FilesHold, DataHeld, PointersFit, TextFits, TextOf, Stands, Render;
    FilesParts(f);
    var f' := f.(regs := f.regs[q := g]);
    forall a: Slot ensures SlotSame(f, f', a) {
    }
    DataKept(f, f');
    forall p | p in f'.sys.procs ensures RegsHeld(f', p) && SameLengths(f'.sys, f'.sys.procs[p]) {
      assert RegsHeld(f, p);
    }
    FilesTogether(f');
  }

  lemma FrontReading(f: Files, q: nat)
    requires FilesHold(f) && q in f.sys.procs && q in f.regs && f.regs[q].front.None?
    requires f.sys.procs[q].pc == Walking || f.sys.procs[q].pc == FreeWalk
    ensures FrontRead(f, q).Some? && FilesHold(FrontRead(f, q).value) && FrontRead(f, q).value.sys == f.sys
  {
    hide FilesHold, Inv, DataHeld, IndexHeld, PointersFit, SameLengths, FrontAt, TextOf, TextFits;
    FilesParts(f);
    WalkerThere(f, q);
    RecordIsRead(f, f.sys.procs[q].cur);
    assert RegsHeld(f, q);
    var g := f.regs[q].(front := FrontAt(f.idx, f.sys.procs[q].cur));
    RegsChange(f, q, g);
  }

  lemma TextReading(f: Files, q: nat)
    requires FilesHold(f) && Shaped(f.sys) && q in f.sys.procs && q in f.regs && f.regs[q].front.Some?
    requires f.sys.procs[q].pc == Walking || f.sys.procs[q].pc == FreeWalk
    requires Next(f.sys, q, |f.idx|).Some?
    ensures TextRead(f, q).Some? && FilesHold(TextRead(f, q).value)
    ensures TextRead(f, q).value.sys == Next(f.sys, q, |f.idx|).value
  {
    hide Inv, Frame, Next, SameLengths, FilesHold, DataHeld, IndexHeld, GoodMove, PointersFit, Effect, FilesFollow, ParseText, ReadAs, TextOf, TextFits, SeekHeld, HandleHeld, FrontAt;
    FilesParts(f);
    WalkerThere(f, q);
    var r := f.sys.procs[q].cur;
    RecordIsRead(f, r);
    assert RegsHeld(f, q) && FrontHeld(f, q);
    SysGood(f, q, |f.idx|);
    var s' := Next(f.sys, q, |f.idx|).value;
    var f' := f.(sys := s', regs := f.regs[q := f.regs[q].(datoff := f.datoff[r], front := None)]);
    assert TextRead(f, q) == Some(f');
    WalkFollowsSame(f.sys, q, s', |f.idx|);
    SameIndex(f, f');
    SameRanges(f, q, f');
    MoveEffect(f.sys, q, s');
    if q in s'.procs { ReaderRegs(f, q, f'); }
    StepHeld(f, q, f');
  }

  lemma WalkFollowsSame(s: Sys, q: nat, s': Sys, end: nat)
    requires Shaped(s) && q in s.procs && (s.procs[q].pc == Walking || s.procs[q].pc == FreeWalk)
    requires FilesFollow(s, s.procs[q], s', end)
    ensures s'.heads == s.heads && s'.recs == s.recs && !Filed(s.procs[q].pc)
  {
    hide ChainOf;
  }

  lemma ReaderRegs(f: Files, q: nat, f': Files)
    requires q in f.sys.procs && RegsHeld(f, q) && q in f'.sys.procs && Effect(f.sys, q, f'.sys)
    requires (f.sys.procs[q].pc == Walking || f.sys.procs[q].pc == FreeWalk) && f.sys.procs[q].cur in f.datoff
    requires f'.datoff == f.datoff && q in f.regs && q in f'.regs
    requires f'.regs[q] == f.regs[q].(datoff := f.datoff[f.sys.procs[q].cur], front := None)
    ensures RegsHeld(f', q)
  {
    hide SameLengths, TextFits, TextOf;
  }
}
