/** Runs of many processes on the bytes of both files. */
module DbFileRuns {
  import opened Options
  import opened CStrings
  import opened Sequences
  import opened Decimal
  import opened DbFormat
  import opened DbImage
  import opened DbLists
  import opened Database
  import opened DbRuns
  import opened DbProcesses
  import opened DbProtocol
  import opened DbQuietSteps
  import opened DbInsertSteps
  import opened DbConcurrent
  import opened DbIndexFile
  import opened DbEffects
  import opened DbFiles
  import opened DbFileReads
  import opened DbFileWrites

  // ---------- every step ----------

  /** A step of the database, at an end of the index file, or the failure of a check. */
  ghost predicate DatabaseStep(s: Sys, p: nat, s': Sys)
    requires Shaped(s) && p in s.procs
  {
    var holds :=
      || s' == s || Failed(s, p) == Some(s')
      || exists end: nat :: end != 0 && end !in s.recs && Next(s, p, end) == Some(s');
    holds
  }

  lemma StepsDatabase(s: Sys, p: nat, s': Sys, end: nat)
    requires Shaped(s) && p in s.procs && end != 0 && end !in s.recs && Next(s, p, end) == Some(s')
    ensures DatabaseStep(s, p, s')
  {
    hide Next, Failed;
  }

  /** The step is defined, keeps the files and is a step of the database. */
  ghost predicate GoodFileStep(f: Files, p: nat, g: Option<Files>)
    requires Shaped(f.sys) && p in f.sys.procs
  {
    g.Some? && FilesHold(g.value) && DatabaseStep(f.sys, p, g.value.sys)
  }

  lemma StoreStepGood(f: Files, p: nat)
    requires FilesHold(f) && Shaped(f.sys) && p in f.sys.procs && p in f.regs && Stores(f.sys.procs[p].pc)
    requires f.sys.procs[p].op.StoreCall?
    ensures f.sys.procs[p].pc != IdxLock ==> GoodFileStep(f, p, StoreStep(f, p))
    ensures f.sys.procs[p].pc == IdxLock && StoreStep(f, p).Some? ==> GoodFileStep(f, p, StoreStep(f, p))
  {
    hide Inv, GoodStep, Next, SameLengths, FilesHold, DataHeld, IndexHeld, PointersFit, RegsHeld, DatabaseStep, Failed, TextFits,
      DataWritten, RecordRewritten, DataAppended, IndexAppended, Fails;
    FilesParts(f);
    StepGood(f.sys, p, |f.idx|);
    var x, next := f.sys.procs[p], Next(f.sys, p, |f.idx|);
    if next.Some? { StepsDatabase(f.sys, p, next.value, |f.idx|); }
    SameIsDatabase(f.sys, p);
    match x.pc {
      case FillDat => DataWriting(f, p);
      case Overwriting => DataWriting(f, p);
      case FillIdx => RecordRewriting(f, p);
      case DatWrite =>
        if f.regs[p].sought.None? { Seeking(f, p, |f.dat|); } else { DataAppending(f, p); }
      case IdxWrite =>
        if f.regs[p].sought.None? { Seeking(f, p, |f.idx|); } else { IndexAppending(f, p); }
      case IdxLock =>
        if !TextFits(Key(x), f.regs[p].datoff, |x.op.data| + 1) {
          Failing(f, p);
          FailIsDatabase(f.sys, p);
        } else if next.Some? {
          PlainFiles(f, p);
        }
    }
  }

  lemma SameIsDatabase(s: Sys, p: nat)
    requires Shaped(s) && p in s.procs
    ensures DatabaseStep(s, p, s)
  {
    hide Next, Failed;
  }

  lemma FailIsDatabase(s: Sys, p: nat)
    requires Shaped(s) && p in s.procs && Failed(s, p).Some?
    ensures DatabaseStep(s, p, Failed(s, p).value)
  {
    hide Next, Failed;
  }

  lemma OtherStepGood(f: Files, p: nat)
    requires FilesHold(f) && Shaped(f.sys) && p in f.sys.procs && p in f.regs
    requires var pc := f.sys.procs[p].pc; !Stores(pc) && !PlainPc(pc)
    ensures GoodFileStep(f, p, FileStep(f, p))
  {
    hide Inv, GoodStep, Next, SameLengths, FilesHold, DataHeld, IndexHeld, PointersFit, RegsHeld, DatabaseStep, Failed, TextFits, ChainOf,
      DataWritten, RecordRewritten, PointerWritten, FrontRead, TextRead, Fails, LinkPlace;
    FilesParts(f);
    StepGood(f.sys, p, |f.idx|);
    var x, next := f.sys.procs[p], Next(f.sys, p, |f.idx|);
    StepsDatabase(f.sys, p, next.value, |f.idx|);
    SameIsDatabase(f.sys, p);
    HeadPlaces();
    match x.pc {
      case Walking => if f.regs[p].front.None? { FrontReading(f, p); } else { TextReading(f, p); }
      case FreeWalk => if f.regs[p].front.None? { FrontReading(f, p); } else { TextReading(f, p); }
      case DelData => DataWriting(f, p);
      case DelIdx => RecordRewriting(f, p);
      case DelFree => PointerWriting(f, p);
      case DelLink => PointerWriting(f, p);
      case FreeTake => PointerWriting(f, p);
      case LinkHead =>
        if x.cur > PTR_MAX {
          Failing(f, p);
          FailIsDatabase(f.sys, p);
        } else {
          PointerWriting(f, p);
        }
    }
  }

  lemma HeadPlaces()
    ensures forall l: nat :: LinkPlace(l, 0) == PTR_SZ * l
  {
  }

  /** Every step keeps the files, is one of the database or only a read or a seek, and only a lock call can
      be unable to go on: what is read is always what the database goes by, and what is written fits. */
  lemma FileStepGood(f: Files, p: nat)
    requires FilesHold(f) && p in f.sys.procs
    ensures Shaped(f.sys) && p in f.regs
    ensures !Waits(f.sys.procs[p].pc) ==> FileStep(f, p).Some?
    ensures FileStep(f, p).Some? ==>
      FilesHold(FileStep(f, p).value) && DatabaseStep(f.sys, p, FileStep(f, p).value.sys)
  {
    hide Inv, GoodStep, Next, SameLengths, FilesHold, DataHeld, IndexHeld, PointersFit, FileStep, StoreStep, DatabaseStep;
    FilesParts(f);
    assert RegsHeld(f, p);
    var pc := f.sys.procs[p].pc;
    if Stores(pc) {
      StorersStore(f, p);
      StoreIsStep(f, p);
      StoreStepGood(f, p);
    } else if PlainPc(pc) {
      PlainStepIs(f, p);
      StepGood(f.sys, p, |f.idx|);
      if Next(f.sys, p, |f.idx|).Some? {
        PlainFiles(f, p);
        StepsDatabase(f.sys, p, Next(f.sys, p, |f.idx|).value, |f.idx|);
      }
    } else {
      OtherStepGood(f, p);
    }
  }

  lemma StorersStore(f: Files, p: nat)
    requires FilesHold(f) && p in f.sys.procs && Stores(f.sys.procs[p].pc)
    ensures f.sys.procs[p].op.StoreCall?
  {
    hide FilesHold, Inv, DataHeld, IndexHeld, PointersFit, RegsHeld, SameLengths;
    FilesParts(f);
    if f.sys.procs[p].pc == Overwriting { RewritePlace(f, p); } else { Appender(f, p); }
  }

  lemma StoreIsStep(f: Files, p: nat)
    requires Shaped(f.sys) && p in f.sys.procs && p in f.regs && Stores(f.sys.procs[p].pc) && f.sys.procs[p].op.StoreCall?
    ensures FileStep(f, p) == StoreStep(f, p)
  {
    hide StoreStep, ChainOf;
    match f.sys.procs[p].pc {
      case FillDat => case Overwriting => case FillIdx => case DatWrite => case IdxLock => case IdxWrite => case _ =>
    }
  }

  // ---------- runs ----------

  datatype FileMove = Opens(p: nat, op: Call) | Takes(p: nat)

  predicate FileMoves(f: Files, m: FileMove, f': Files) {
    && Shaped(f.sys)
    && match m
       case Opens(p, op) => p !in f.sys.procs && Startable(op) && f' == FileBegin(f, p, op)
       case Takes(p) => p in f.sys.procs && p in f.regs && FileStep(f, p) == Some(f')
  }

  ghost predicate IsFileRun(files: seq<Files>, moves: seq<FileMove>) {
    && |files| == |moves| + 1 && files[0] == NewFiles()
    && forall i :: 0 <= i < |moves| ==> FileMoves(files[i], moves[i], files[i + 1])
  }

  lemma BeginRegs(f: Files, p: nat, op: Call, q: nat)
    requires q in FileBegin(f, p, op).sys.procs && (q in f.sys.procs && q != p ==> RegsHeld(f, q))
    ensures RegsHeld(FileBegin(f, p, op), q)
  {
    hide TextFits, TextOf;
  }

  lemma FileBeginKeeps(f: Files, p: nat, op: Call)
    requires FilesHold(f) && p !in f.sys.procs && Startable(op)
    ensures FilesHold(FileBegin(f, p, op))
  {
    hide Inv, FilesHold, DataHeld, IndexHeld, Startable, RegsHeld, SameLengths, RegistersFit;
    FilesParts(f);
    BeginInv(f.sys, p, op);
    var f' := FileBegin(f, p, op);
    SameIndex(f, f');
    forall a: Slot ensures SlotSame(f, f', a) {
    }
    DataKept(f, f');
    forall q | q in f'.sys.procs ensures RegsHeld(f', q) && SameLengths(f'.sys, f'.sys.procs[q]) && RegistersFit(f'.sys.procs[q]) {
      BeginRegs(f, p, op, q);
      BeginFits(f.sys, p, op, q);
    }
    FilesTogether(f');
  }

  lemma BeginFits(s: Sys, p: nat, op: Call, q: nat)
    requires q in Begin(s, p, op).procs && PointersFit(s) && (q in s.procs ==> SameLengths(s, s.procs[q]))
    ensures RegistersFit(Begin(s, p, op).procs[q]) && SameLengths(Begin(s, p, op), Begin(s, p, op).procs[q])
  {
  }

  lemma NewFilesHold()
    ensures FilesHold(NewFiles())
  {
    hide Inv, Stands, Render;
    InitialInv();
    NewStands(IndexOf(NewFiles()));
  }

  /** In every state of every run the files hold: the index file is its header and its records with no gap,
      every record within the limits of its fields; no two ranges of the data file overlap, and each holds
      the data of its record; an end that was sought is still the end. */
  lemma {:induction false} FilesKeep(files: seq<Files>, moves: seq<FileMove>, i: nat)
    requires IsFileRun(files, moves) && i < |files|
    ensures FilesHold(files[i])
  {
    hide FilesHold, FileStep, FileBegin, Startable, DatabaseStep;
    if i == 0 {
      NewFilesHold();
    } else {
      FilesKeep(files, moves, i - 1);
      assert FileMoves(files[i - 1], moves[i - 1], files[i]);
      match moves[i - 1] {
        case Opens(p, op) => FileBeginKeeps(files[i - 1], p, op);
        case Takes(p) => FileStepGood(files[i - 1], p);
      }
    }
  }

  /** A run on the files is a run of the database, seeks and first reads aside: what is proved of those
      holds here. */
  lemma {:induction false} FilesRunDatabase(files: seq<Files>, moves: seq<FileMove>, i: nat)
    returns (states: seq<Sys>, steps: seq<Move>)
    requires IsFileRun(files, moves) && i < |files|
    ensures IsRun(states, steps) && states[|steps|] == files[i].sys
  {
    hide FilesHold, FileStep, Startable, Next, Failed, DatabaseStep;
    if i == 0 {
      states, steps := [Initial()], [];
    } else {
      states, steps := FilesRunDatabase(files, moves, i - 1);
      FilesKeep(files, moves, i - 1);
      var f, f' := files[i - 1], files[i];
      assert FileMoves(f, moves[i - 1], f');
      match moves[i - 1] {
        case Opens(p, op) =>
          states, steps := RunGoesOn(states, steps, Start(p, op), f'.sys);
        case Takes(p) =>
          FileStepGood(f, p);
          if f'.sys != f.sys {
            var m := MoveOf(f.sys, p, f'.sys);
            states, steps := RunGoesOn(states, steps, m, f'.sys);
          }
      }
    }
  }

  lemma MoveOf(s: Sys, p: nat, s': Sys) returns (m: Move)
    requires Shaped(s) && p in s.procs && DatabaseStep(s, p, s') && s' != s
    ensures Moves(s, m, s')
  {
    hide Next, Failed;
    if Failed(s, p) == Some(s') {
      m := Fail(p);
    } else {
      var end: nat :| end != 0 && end !in s.recs && Next(s, p, end) == Some(s');
      m := Step(p, end);
    }
  }

  lemma RunGoesOn(states: seq<Sys>, steps: seq<Move>, m: Move, s: Sys) returns (states': seq<Sys>, steps': seq<Move>)
    requires IsRun(states, steps) && Moves(states[|steps|], m, s)
    ensures IsRun(states', steps') && states'[|steps'|] == s
  {
    hide Moves;
    states', steps' := states + [s], steps + [m];
    forall i | 0 <= i < |steps'| ensures Moves(states'[i], steps'[i], states'[i + 1]) {
      if i < |steps| { assert Moves(states[i], steps[i], states[i + 1]); }
    }
  }

  // ---------- what the files are ----------

  /** The index file, byte for byte: the header with the pointers of the lists, and the records in the order
      in which they were appended, each once. */
  lemma IndexIsRendered(files: seq<Files>, moves: seq<FileMove>, i: nat)
    requires IsFileRun(files, moves) && i < |files|
    ensures var f := files[i];
      && f.idx == Header(f.sys.heads) + Concat(Parts(IndexOf(f)))
      && (forall r :: r in f.sys.recs <==> r in f.order)
      && forall j, k :: 0 <= j < k < |f.order| ==> f.order[j] < f.order[k]
  {
    hide IsFileRun, Inv, DataHeld, RegsHeld, SameLengths, PointersFit;
    var f := files[i];
    FilesKeep(files, moves, i);
    forall j, k | 0 <= j < k < |f.order| ensures f.order[j] < f.order[k] {
      OnePlace(IndexOf(f), j, k);
    }
    forall r | r in f.order ensures r in f.sys.recs {
      var j :| 0 <= j < |f.order| && f.order[j] == r;
      assert RecordStands(IndexOf(f), j);
    }
  }

  /** Reading the index file at the head of a list or at a record gives what the database goes by there. */
  lemma IndexReads(files: seq<Files>, moves: seq<FileMove>, i: nat, l: nat, r: nat)
    requires IsFileRun(files, moves) && i < |files| && l <= NHASH
    ensures Shaped(files[i].sys) && PtrAt(files[i].idx, PTR_SZ * l, files[i].sys.heads[l])
    ensures r in files[i].sys.recs ==> r in files[i].datoff && ParseIdx(files[i].idx, r) == ReadAs(files[i], r)
  {
    hide IsFileRun, Inv, DataHeld, RegsHeld, SameLengths, PointersFit, Stands, Render, ParseIdx, PtrAt;
    FilesKeep(files, moves, i);
    FilesParts(files[i]);
    HeadStands(IndexOf(files[i]), l);
    if r in files[i].sys.recs { ReadsBack(IndexOf(files[i]), r); }
  }

  // ---------- what the locks are for ----------

  /** The end of a file that an append sought under its lock is still the end when it writes. */
  lemma SoughtIsTheEnd(files: seq<Files>, moves: seq<FileMove>, i: nat, p: nat)
    requires IsFileRun(files, moves) && i < |files| && p in files[i].sys.procs
    ensures p in files[i].regs
    ensures files[i].regs[p].sought.Some? ==>
      files[i].regs[p].sought.value == if files[i].sys.procs[p].pc == DatWrite then |files[i].dat| else |files[i].idx|
  {
    hide IsFileRun, Inv, DataHeld, IndexHeld, SameLengths, PointersFit, FrontHeld, HandleHeld;
    FilesKeep(files, moves, i);
    assert RegsHeld(files[i], p);
  }

  /** The pointer and the length that were read before the text of a record are still those of the record
      when the text is read: the lock of the list keeps every writer away between the two reads. */
  lemma FrontIsTheRecord(files: seq<Files>, moves: seq<FileMove>, i: nat, p: nat)
    requires IsFileRun(files, moves) && i < |files| && p in files[i].sys.procs
    ensures p in files[i].regs
    ensures files[i].regs[p].front.Some? ==> files[i].regs[p].front == FrontAt(files[i].idx, files[i].sys.procs[p].cur)
  {
    hide IsFileRun, Inv, DataHeld, IndexHeld, SameLengths, PointersFit, SeekHeld, HandleHeld, FrontAt, ParseText, ReadAs, TextOf;
    FilesKeep(files, moves, i);
    var f := files[i];
    assert RegsHeld(f, p) && FrontHeld(f, p);
    if f.regs[p].front.Some? { RecordIsRead(f, f.sys.procs[p].cur); }
  }

  /** Two index records, and the data they name, never overlap, whichever processes wrote them. */
  lemma RecordsApart(files: seq<Files>, moves: seq<FileMove>, i: nat, q: nat, r: nat)
    requires IsFileRun(files, moves) && i < |files|
    requires q in files[i].sys.recs && r in files[i].sys.recs && q < r
    ensures var f := files[i];
      && q in f.datoff && r in f.datoff
      && q + PTR_SZ + IDXLEN_SZ + |TextOf(f.sys.recs[q], f.datoff[q])| <= r
      && r + PTR_SZ + IDXLEN_SZ + |TextOf(f.sys.recs[r], f.datoff[r])| <= |f.idx|
      && (f.datoff[q] + |f.sys.recs[q].data| + 1 <= f.datoff[r] || f.datoff[r] + |f.sys.recs[r].data| + 1 <= f.datoff[q])
  {
    hide IsFileRun, Inv, SameLengths, PointersFit, RegsHeld, Stands, Render, TextOf, FitsFields;
    var f := files[i];
    FilesKeep(files, moves, i);
    StandApart(IndexOf(f), q, r);
    HereItStands(IndexOf(f), q);
    HereItStands(IndexOf(f), r);
    assert SlotsApart(f, OfRecord(q), OfRecord(r));
  }

  /** The bytes a fetch reads, at the offset in its handle, are the data of the record it found, and a
      newline. */
  lemma FetchReadsData(files: seq<Files>, moves: seq<FileMove>, i: nat, p: nat)
    requires IsFileRun(files, moves) && i < |files|
    requires p in files[i].sys.procs && files[i].sys.procs[p].pc == Found
    ensures var f, x := files[i], files[i].sys.procs[p];
      && p in f.regs && x.cur in f.sys.recs && HasAt(f.dat, f.regs[p].datoff, DatBytes(f.sys.recs[x.cur].data))
  {
    hide IsFileRun, FilesHold, HasAt;
    FilesKeep(files, moves, i);
    FilesParts(files[i]);
    assert RegsHeld(files[i], p);
    DataIsRead(files[i], p);
  }

  /** Some process can always take its next step on the files. */
  lemma FilesNoDeadlock(f: Files)
    requires FilesHold(f) && f.sys.procs != map[]
    ensures exists p :: p in f.sys.procs && Shaped(f.sys) && p in f.regs && FileStep(f, p).Some?
  {
    hide FilesHold, Inv, FileStep, Next, DatabaseStep, IndexHeld, DataHeld, PointersFit, RegsHeld, SameLengths;
    FilesParts(f);
    NoDeadlock(f.sys, |f.idx|);
    var p :| CanMove(f.sys, p, |f.idx|);
    FileStepGood(f, p);
    if Waits(f.sys.procs[p].pc) { WaiterGoes(f, p); }
  }

  lemma WaiterGoes(f: Files, p: nat)
    requires FilesHold(f) && Shaped(f.sys) && p in f.sys.procs && p in f.regs && Waits(f.sys.procs[p].pc)
    requires Next(f.sys, p, |f.idx|).Some?
    ensures FileStep(f, p).Some?
  {
    hide FilesHold, Next, StoreStep, ChainOf;
    if f.sys.procs[p].pc == IdxLock {
      StorersStore(f, p);
      StoreIsStep(f, p);
      CheckedOrFails(f, p);
    } else {
      PlainStepIs(f, p);
    }
  }

  lemma CheckedOrFails(f: Files, p: nat)
    requires Shaped(f.sys) && p in f.sys.procs && p in f.regs && f.sys.procs[p].pc == IdxLock
    requires f.sys.procs[p].op.StoreCall? && Next(f.sys, p, |f.idx|).Some?
    ensures StoreStep(f, p).Some?
  {
    hide Next, TextFits;
  }
}
