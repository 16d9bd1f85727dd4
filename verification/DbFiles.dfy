/** The files below the interleaved database: the bytes of both, read and written as the library reads and
    writes them, an index record in two reads and an append as a seek and a write. */
module DbFiles {
  import opened Options
  import opened CStrings
  import opened Sequences
  import opened Decimal
  import opened DbFormat
  import opened DbImage
  import opened DbLists
  import opened Database
  import opened DbRuns
  import opened DbProcesses
  import opened DbProtocol
  import opened DbQuietSteps
  import opened DbInsertSteps
  import opened DbConcurrent
  import opened DbIndexFile
  import opened DbEffects

  /** What a process keeps for its next read or write: the data offset in its handle, the end of a file it
      sought and has not written at yet, and the pointer and length it read before the text of a record. */
  datatype Regs = Regs(datoff: nat, sought: Option<nat>, front: Option<(int, int)>)

  /** `order` and `datoff` are history: the records as they stand in the index file, and their data
      offsets. */
  datatype Files = Files(sys: Sys, idx: string, dat: string, order: seq<nat>, datoff: map<nat, nat>, regs: map<nat, Regs>)

  function IndexOf(f: Files): Index {
    Index(f.sys.heads, f.sys.recs, f.order, f.datoff)
  }

  // ---------- steps ----------

  /** The step of the database; an appended record gets offset `end`. */
  function Stepped(f: Files, p: nat, end: nat): Option<Files>
    requires Shaped(f.sys) && p in f.sys.procs
  {
    var next := Next(f.sys, p, end);
    if next.Some? then Some(f.(sys := next.value)) else None
  }

  /** The process ends at a check of its append. */
  function Fails(f: Files, p: nat): Option<Files>
    requires p in f.sys.procs
  {
    var failed := Failed(f.sys, p);
    if failed.Some? then Some(f.(sys := failed.value)) else None
  }

  /** `lseek` to the end of a file. */
  function Seek(f: Files, p: nat, end: nat): Files
    requires p in f.regs
  {
    f.(regs := f.regs[p := f.regs[p].(sought := Some(end))])
  }

  /** A step that goes by the pointer at `at`. */
  function PointerRead(f: Files, p: nat, at: nat, v: nat): Option<Files>
    requires Shaped(f.sys) && p in f.sys.procs
  {
    if PtrAt(f.idx, at, v) then Stepped(f, p, |f.idx|) else None
  }

  /** The first read of `_db_readidx`: the pointer and the length. */
  function FrontAt(image: string, off: nat): Option<(int, int)> {
    if off + PTR_SZ + IDXLEN_SZ > |image| then None else
    var start := off + PTR_SZ + IDXLEN_SZ;
    var len := Atol(image[off + PTR_SZ..start]);
    if len < IDXLEN_MIN || len > IDXLEN_MAX then None else Some((Atol(image[off..off + PTR_SZ]), len))
  }

  function FrontRead(f: Files, p: nat): Option<Files>
    requires p in f.sys.procs && p in f.regs
  {
    var front := FrontAt(f.idx, f.sys.procs[p].cur);
    if front.None? then None else Some(f.(regs := f.regs[p := f.regs[p].(front := front)]))
  }

  /** What the database goes by at a record. */
  function ReadAs(f: Files, r: nat): Exit<IdxFields>
    requires r in f.sys.recs && r in f.datoff
  {
    var rec := f.sys.recs[r];
    if SEP in rec.key then Halted
    else Done(IdxFields(rec.next, |TextOf(rec, f.datoff[r])|, rec.key, f.datoff[r], |rec.data| + 1))
  }

  /** The second read: the text, and what it says. */
  function TextRead(f: Files, p: nat): Option<Files>
    requires Shaped(f.sys) && p in f.sys.procs && p in f.regs && f.regs[p].front.Some?
  {
    var r, (next, len) := f.sys.procs[p].cur, f.regs[p].front.value;
    var start := r + PTR_SZ + IDXLEN_SZ;
    if len < 0 || start + len > |f.idx| || r !in f.sys.recs || r !in f.datoff then None
    else if ParseText(next, f.idx[start..start + len]) != ReadAs(f, r) then None
    else
      var g := Stepped(f, p, |f.idx|);
      if g.None? then None
      else Some(g.value.(regs := f.regs[p := f.regs[p].(datoff := f.datoff[r], front := None)]))
  }

  /** The data a fetch found is read at the offset in the handle. */
  function DataRead(f: Files, p: nat): Option<Files>
    requires Shaped(f.sys) && p in f.sys.procs && p in f.regs
  {
    var x := f.sys.procs[p];
    if x.cur in f.sys.recs && HasAt(f.dat, f.regs[p].datoff, DatBytes(f.sys.recs[x.cur].data))
    then Stepped(f, p, |f.idx|) else None
  }

  /** Data is written over the data at the offset in the handle. */
  function DataWritten(f: Files, p: nat, data: string): Option<Files>
    requires Shaped(f.sys) && p in f.sys.procs && p in f.regs
  {
    var g := Stepped(f, p, |f.idx|);
    if g.None? || f.regs[p].datoff > |f.dat| then None
    else Some(g.value.(dat := Pwrite(f.dat, f.regs[p].datoff, DatBytes(data))))
  }

  /** `_db_writeptr`. */
  function PointerWritten(f: Files, p: nat, at: nat, v: nat): Option<Files>
    requires Shaped(f.sys) && p in f.sys.procs
  {
    var g := Stepped(f, p, |f.idx|);
    if g.None? || at > |f.idx| || v > PTR_MAX then None
    else Some(g.value.(idx := Pwrite(f.idx, at, Pad(PTR_SZ, v))))
  }

  predicate TextFits(key: string, datoff: nat, datlen: nat) {
    IDXLEN_MIN <= |RecText(key, datoff, datlen)| <= IDXLEN_MAX
  }

  /** `_db_writeidx` over the record at `cur`. */
  function RecordRewritten(f: Files, p: nat, next: nat, key: string, datlen: nat): Option<Files>
    requires Shaped(f.sys) && p in f.sys.procs && p in f.regs
  {
    var g, r, off := Stepped(f, p, |f.idx|), f.sys.procs[p].cur, f.regs[p].datoff;
    if g.None? || r > |f.idx| || next > PTR_MAX || !TextFits(key, off, datlen) then None
    else Some(g.value.(idx := Pwrite(f.idx, r, RecBytes(next, key, off, datlen))))
  }

  /** Data is written at the end that was sought. */
  function DataAppended(f: Files, p: nat, off: nat, data: string): Option<Files>
    requires Shaped(f.sys) && p in f.sys.procs && p in f.regs
  {
    var g := Stepped(f, p, |f.idx|);
    if g.None? || off > |f.dat| then None
    else Some(g.value.(dat := Pwrite(f.dat, off, DatBytes(data)), regs := f.regs[p := f.regs[p].(datoff := off, sought := None)]))
  }

  /** An index record is written at the end that was sought. */
  function IndexAppended(f: Files, p: nat, off: nat): Option<Files>
    requires Shaped(f.sys) && p in f.sys.procs && p in f.regs && f.sys.procs[p].op.StoreCall?
  {
    var x, g := f.sys.procs[p], Stepped(f, p, off);
    var bytes := RecBytes(x.head, Key(x), f.regs[p].datoff, |x.op.data| + 1);
    if g.None? || off > |f.idx| then None
    else Some(g.value.(idx := Pwrite(f.idx, off, bytes), order := f.order + [off],
                       datoff := f.datoff[off := f.regs[p].datoff], regs := f.regs[p := f.regs[p].(sought := None)]))
  }

  /** Where the pointer to the record after `prev` stands; `prev` is 0 for the head of list `l`. */
  function LinkPlace(l: nat, prev: nat): nat {
    if prev == 0 then PTR_SZ * l else prev
  }

  /** The steps of a store that need to know its data. */
  function StoreStep(f: Files, p: nat): Option<Files>
    requires Shaped(f.sys) && p in f.sys.procs && p in f.regs && f.sys.procs[p].op.StoreCall?
  {
    var x, g := f.sys.procs[p], f.regs[p];
    match x.pc
    case FillDat => DataWritten(f, p, x.op.data)
    case Overwriting => DataWritten(f, p, x.op.data)
    case FillIdx => RecordRewritten(f, p, x.head, Key(x), |x.op.data| + 1)
    case DatWrite => if g.sought.None? then Some(Seek(f, p, |f.dat|)) else DataAppended(f, p, g.sought.value, x.op.data)
    case IdxLock => if TextFits(Key(x), g.datoff, |x.op.data| + 1) then Stepped(f, p, |f.idx|) else Fails(f, p)
    case IdxWrite => if g.sought.None? then Some(Seek(f, p, |f.idx|)) else IndexAppended(f, p, g.sought.value)
    case _ => None
  }

  predicate Stores(pc: Pc) {
    pc == FillDat || pc == Overwriting || pc == FillIdx || pc == DatWrite || pc == IdxLock || pc == IdxWrite
  }

  /** The next step of a process. It is undefined when the process waits for a lock, and would be if what it
      read were not what the database goes by, or if it wrote something that does not fit its field. */
  function FileStep(f: Files, p: nat): Option<Files>
    requires Shaped(f.sys) && p in f.sys.procs && p in f.regs
  {
    var x, g := f.sys.procs[p], f.regs[p];
    match x.pc
    case ReadHead => PointerRead(f, p, PTR_SZ * Chain(x), f.sys.heads[Chain(x)])
    case InsHead => PointerRead(f, p, PTR_SZ * Chain(x), f.sys.heads[Chain(x)])
    case FreeHead => PointerRead(f, p, PTR_SZ * FREE, f.sys.heads[FREE])
    case DelRead => PointerRead(f, p, PTR_SZ * FREE, f.sys.heads[FREE])
    case Walking => if g.front.None? then FrontRead(f, p) else TextRead(f, p)
    case FreeWalk => if g.front.None? then FrontRead(f, p) else TextRead(f, p)
    case Found => if x.op.FetchCall? then DataRead(f, p) else Stepped(f, p, |f.idx|)
    case DelData => DataWritten(f, p, Spaces(x.len))
    case DelIdx => RecordRewritten(f, p, x.free, Spaces(|Key(x)|), x.len + 1)
    case DelFree => PointerWritten(f, p, PTR_SZ * FREE, x.cur)
    case DelLink => PointerWritten(f, p, LinkPlace(Chain(x), x.prev), x.val)
    case FreeTake => PointerWritten(f, p, LinkPlace(FREE, x.prev), x.val)
    case LinkHead => if x.cur > PTR_MAX then Fails(f, p) else PointerWritten(f, p, PTR_SZ * Chain(x), x.cur)
    case _ => if !Stores(x.pc) then Stepped(f, p, |f.idx|) else if x.op.StoreCall? then StoreStep(f, p) else None
  }

  function FileBegin(f: Files, p: nat, op: Call): Files {
    f.(sys := Begin(f.sys, p, op), regs := f.regs[p := Regs(0, None, None)])
  }

  /** Empty files: the header, and no data. */
  function NewFiles(): Files {
    Files(Initial(), Header(Initial().heads), "", [], map[], map[])
  }

  // ---------- the ranges of the data file ----------

  /** What owns a range of the data file: an index record, or an append whose record is not written yet. */
  datatype Slot = OfRecord(r: nat) | OfProcess(p: nat)

  predicate HasSlot(f: Files, a: Slot) {
    match a
    case OfRecord(r) => r in f.sys.recs && r in f.datoff
    case OfProcess(p) =>
      p in f.sys.procs && p in f.regs && Filed(f.sys.procs[p].pc) && f.sys.procs[p].op.StoreCall?
  }

  function Off(f: Files, a: Slot): nat
    requires HasSlot(f, a)
  {
    match a case OfRecord(r) => f.datoff[r] case OfProcess(p) => f.regs[p].datoff
  }

  function Content(f: Files, a: Slot): string
    requires HasSlot(f, a)
  {
    match a case OfRecord(r) => f.sys.recs[r].data case OfProcess(p) => f.sys.procs[p].op.data
  }

  function SlotEnd(f: Files, a: Slot): nat
    requires HasSlot(f, a)
  {
    Off(f, a) + |Content(f, a)| + 1
  }

  predicate SlotHeld(f: Files, a: Slot)
    requires HasSlot(f, a)
  {
    HasAt(f.dat, Off(f, a), DatBytes(Content(f, a)))
  }

  predicate SlotsApart(f: Files, a: Slot, b: Slot)
    requires HasSlot(f, a) && HasSlot(f, b)
  {
    SlotEnd(f, a) <= Off(f, b) || SlotEnd(f, b) <= Off(f, a)
  }

  /** Every range holds its owner's data, and no two overlap. */
  ghost predicate DataHeld(f: Files) {
    && (forall a: Slot :: HasSlot(f, a) ==> SlotHeld(f, a))
    && (forall a: Slot, b: Slot :: HasSlot(f, a) && HasSlot(f, b) && a != b ==> SlotsApart(f, a, b))
  }

  // ---------- the rest of the invariant ----------

  /** The bytes of the index file are its header and the records in their order. */
  ghost predicate IndexHeld(f: Files) {
    Stands(IndexOf(f)) && f.idx == Render(IndexOf(f))
  }

  /** An end that was sought is still the end. */
  predicate SeekHeld(f: Files, p: nat)
    requires p in f.sys.procs && p in f.regs
  {
    f.regs[p].sought.Some? ==>
      || (f.sys.procs[p].pc == DatWrite && f.regs[p].sought.value == |f.dat|)
      || (f.sys.procs[p].pc == IdxWrite && f.regs[p].sought.value == |f.idx|)
  }

  /** A pointer and a length that were read are still those of the record. */
  predicate FrontHeld(f: Files, p: nat)
    requires p in f.sys.procs && p in f.regs
  {
    var x := f.sys.procs[p];
    f.regs[p].front.Some? ==>
      && (x.pc == Walking || x.pc == FreeWalk) && x.cur in f.sys.recs && x.cur in f.datoff
      && f.regs[p].front.value == (f.sys.recs[x.cur].next, |TextOf(f.sys.recs[x.cur], f.datoff[x.cur])|)
  }

  /** The handle has the data offset of the record it describes, and a record to be appended fits. */
  predicate HandleHeld(f: Files, p: nat)
    requires p in f.sys.procs && p in f.regs
  {
    var x := f.sys.procs[p];
    && (Described(x) ==> x.cur in f.datoff && f.regs[p].datoff == f.datoff[x.cur])
    && (x.pc == IdxWrite && x.op.StoreCall? ==> TextFits(Key(x), f.regs[p].datoff, |x.op.data| + 1))
  }

  predicate RegsHeld(f: Files, p: nat)
    requires p in f.sys.procs
  {
    var holds :=
      p in f.regs && SeekHeld(f, p) && FrontHeld(f, p) && HandleHeld(f, p);
    holds
  }

  ghost predicate FilesHold(f: Files) {
    var holds :=
      && Inv(f.sys) && PointersFit(f.sys) && DataHeld(f) && IndexHeld(f)
      && forall p :: p in f.sys.procs ==> RegsHeld(f, p) && SameLengths(f.sys, f.sys.procs[p]);
    holds
  }

  // ---------- the ranges, as a step leaves them ----------

  /** A slot of the later state is one of the earlier, with the same place and data. */
  predicate SlotSame(f: Files, f': Files, a: Slot) {
    HasSlot(f', a) ==> HasSlot(f, a) && Off(f', a) == Off(f, a) && Content(f', a) == Content(f, a)
  }

  lemma DataKept(f: Files, f': Files)
    requires DataHeld(f) && f'.dat == f.dat && forall a: Slot :: SlotSame(f, f', a)
    ensures DataHeld(f')
  {
    forall a: Slot | HasSlot(f', a) ensures SlotHeld(f', a) {
      assert SlotSame(f, f', a);
    }
    forall a: Slot, b: Slot | HasSlot(f', a) && HasSlot(f', b) && a != b ensures SlotsApart(f', a, b) {
      assert SlotSame(f, f', a) && SlotSame(f, f', b);
    }
  }

  /** Writing where nothing of the range at `off` is. */
  lemma ElsewhereKept(dat: string, at: nat, b: string, off: nat, c: string)
    requires HasAt(dat, off, c) && at <= |dat| && (at + |b| <= off || off + |c| <= at)
    ensures HasAt(Pwrite(dat, at, b), off, c)
  {
    assert forall i :: off <= i < off + |c| ==> Pwrite(dat, at, b)[i] == dat[i];
    assert Pwrite(dat, at, b)[off..off + |c|] == dat[off..off + |c|];
  }

  lemma WrittenHere(dat: string, at: nat, b: string)
    requires at <= |dat|
    ensures HasAt(Pwrite(dat, at, b), at, b)
  {
  }

  /** One range gets new data of the same length. */
  lemma DataRewritten(f: Files, f': Files, a0: Slot, data: string)
    requires DataHeld(f) && HasSlot(f, a0) && |data| == |Content(f, a0)| && Off(f, a0) <= |f.dat|
    requires f'.dat == Pwrite(f.dat, Off(f, a0), DatBytes(data)) && HasSlot(f', a0)
    requires Off(f', a0) == Off(f, a0) && Content(f', a0) == data
    requires forall a: Slot :: a != a0 ==> SlotSame(f, f', a)
    ensures DataHeld(f') && |f'.dat| == |f.dat|
  {
    assert SlotHeld(f, a0);
    forall a: Slot | HasSlot(f', a) ensures SlotHeld(f', a) {
      if a == a0 {
        WrittenHere(f.dat, Off(f, a0), DatBytes(data));
      } else {
        assert SlotSame(f, f', a) && SlotHeld(f, a) && SlotsApart(f, a, a0);
        ElsewhereKept(f.dat, Off(f, a0), DatBytes(data), Off(f, a), DatBytes(Content(f, a)));
      }
    }
    forall a: Slot, b: Slot | HasSlot(f', a) && HasSlot(f', b) && a != b ensures SlotsApart(f', a, b) {
      assert (a != a0 ==> SlotSame(f, f', a)) && (b != a0 ==> SlotSame(f, f', b));
      assert SlotsApart(f, a, b);
    }
  }

  /** A new range at the end of the file. */
  lemma DataGrown(f: Files, f': Files, a0: Slot)
    requires DataHeld(f) && HasSlot(f', a0) && Off(f', a0) == |f.dat|
    requires f'.dat == Pwrite(f.dat, |f.dat|, DatBytes(Content(f', a0)))
    requires forall a: Slot :: a != a0 ==> SlotSame(f, f', a)
    ensures DataHeld(f')
  {
    forall a: Slot | HasSlot(f', a) ensures SlotHeld(f', a) {
      if a == a0 {
        WrittenHere(f.dat, |f.dat|, DatBytes(Content(f', a0)));
      } else {
        assert SlotSame(f, f', a) && SlotHeld(f, a);
        ElsewhereKept(f.dat, |f.dat|, DatBytes(Content(f', a0)), Off(f, a), DatBytes(Content(f, a)));
      }
    }
    GrownApart(f, f', a0);
  }

  lemma GrownApart(f: Files, f': Files, a0: Slot)
    requires DataHeld(f) && HasSlot(f', a0) && Off(f', a0) == |f.dat|
    requires forall a: Slot :: a != a0 ==> SlotSame(f, f', a)
    ensures forall a: Slot, b: Slot :: HasSlot(f', a) && HasSlot(f', b) && a != b ==> SlotsApart(f', a, b)
  {
    forall a: Slot, b: Slot | HasSlot(f', a) && HasSlot(f', b) && a != b ensures SlotsApart(f', a, b) {
      if a != a0 { assert SlotSame(f, f', a) && SlotHeld(f, a); }
      if b != a0 { assert SlotSame(f, f', b) && SlotHeld(f, b); }
    }
  }

  /** The range of an append passes to its new index record. */
  lemma DataPassedOn(f: Files, f': Files, a0: Slot, b0: Slot)
    requires DataHeld(f) && f'.dat == f.dat && HasSlot(f, a0) && !HasSlot(f', a0) && HasSlot(f', b0)
    requires Off(f', b0) == Off(f, a0) && Content(f', b0) == Content(f, a0)
    requires forall a: Slot :: a != b0 ==> SlotSame(f, f', a)
    ensures DataHeld(f')
  {
    forall a: Slot | HasSlot(f', a) ensures SlotHeld(f', a) {
      assert if a == b0 then SlotHeld(f, a0) else SlotSame(f, f', a);
    }
    forall a: Slot, b: Slot | HasSlot(f', a) && HasSlot(f', b) && a != b ensures SlotsApart(f', a, b) {
      var a1, b1 := if a == b0 then a0 else a, if b == b0 then a0 else b;
      assert (a != b0 ==> SlotSame(f, f', a)) && (b != b0 ==> SlotSame(f, f', b));
      assert SlotsApart(f, a1, b1);
    }
  }

  // ---------- a step of the database under the files ----------

  lemma FilesParts(f: Files)
    requires FilesHold(f)
    ensures Inv(f.sys) && Shaped(f.sys) && PointersFit(f.sys) && DataHeld(f) && IndexHeld(f)
    ensures forall p :: p in f.sys.procs ==> RegsHeld(f, p) && SameLengths(f.sys, f.sys.procs[p])
    ensures |f.idx| != 0 && |f.idx| !in f.sys.recs
  {
    hide Inv, PointersFit, DataHeld, RegsHeld, SameLengths, Stands, Render;
    ShapeOf(f.sys);
    AllSize(IndexOf(f));
  }

  /** The state a process leaves keeps what the others and the process itself rely on. */
  ghost predicate GoodMove(s: Sys, q: nat, s': Sys)
    requires q in s.procs
  {
    var holds :=
      && Inv(s') && Frame(s, s', q) && Effect(s, q, s')
      && (forall p :: p in s'.procs ==> p in s.procs && SameLengths(s', s'.procs[p]))
      && (forall p :: p in s'.procs && p != q ==> s'.procs[p] == s.procs[p])
      && (forall p :: p in s.procs && p != q ==> p in s'.procs)
      && (q in s'.procs ==> RegistersFit(s'.procs[q]));
    holds
  }

  lemma FrameOf(s: Sys, s': Sys, q: nat)
    requires q in s.procs && GoodStep(s, s', q)
    ensures Frame(s, s', q)
    ensures forall p :: p in s'.procs ==> p in s.procs
    ensures forall p :: p in s.procs && p != q ==> p in s'.procs && s'.procs[p] == s.procs[p]
  {
    hide ListsHold, LocksHold, Agreement, History, Ready;
  }

  lemma StepIsGood(s: Sys, q: nat, s': Sys)
    requires Inv(s) && q in s.procs && GoodStep(s, s', q) && Effect(s, q, s')
    requires forall p :: p in s.procs ==> SameLengths(s, s.procs[p])
    requires q in s'.procs ==> RegistersFit(s'.procs[q]) && SameLengths(s', s'.procs[q])
    ensures GoodMove(s, q, s')
  {
    hide Inv, GoodStep, Frame, Effect, SameLengths, RegistersFit;
    GoodStepKeeps(s, s', q);
    FrameOf(s, s', q);
    forall p | p in s'.procs ensures SameLengths(s', s'.procs[p]) {
      if p != q { LengthsKept(s, s', q, p); }
    }
  }

  /** A step of the database that the files allow. */
  lemma SysGood(f: Files, q: nat, end: nat)
    requires FilesHold(f) && q in f.sys.procs && end != 0 && end !in f.sys.recs && Shaped(f.sys) && Next(f.sys, q, end).Some?
    ensures var s' := Next(f.sys, q, end).value; GoodMove(f.sys, q, s') && FilesFollow(f.sys, f.sys.procs[q], s', end)
  {
    hide Inv, GoodStep, GoodMove, Frame, Next, SameLengths, PointersFit, RegistersFit, FilesHold, FilesFollow, IndexHeld;
    FilesParts(f);
    var s' := Next(f.sys, q, end).value;
    StepGood(f.sys, q, end);
    NextEffect(f.sys, q, end);
    NextFollows(f.sys, q, end);
    NextFits(f.sys, q, end);
    if q in s'.procs { EffectLengths(f.sys.procs[q], s', s'.procs[q]); }
    StepIsGood(f.sys, q, s');
  }

  lemma EffectLengths(x: Local, s': Sys, y: Local)
    requires OwnEffect(x, s', y)
    ensures SameLengths(s', y) && y.op == x.op
  {
    hide SameLengths;
  }

  lemma FailGood(f: Files, q: nat)
    requires FilesHold(f) && q in f.sys.procs && (f.sys.procs[q].pc == IdxLock || f.sys.procs[q].pc == LinkHead)
    ensures Failed(f.sys, q).Some?
    ensures var s' := Failed(f.sys, q).value;
      && GoodMove(f.sys, q, s') && s'.heads == f.sys.heads && s'.recs == f.sys.recs
      && (q in s'.procs ==> s'.procs[q].pc == Ending)
  {
    hide Inv, GoodStep, GoodMove, Frame, PointersFit, RegistersFit, FilesHold, IndexHeld, Effect;
    FilesParts(f);
    FailKeeps(f.sys, q);
    FailShape(f.sys, q);
    StepIsGood(f.sys, q, Failed(f.sys, q).value);
  }

  lemma EndingEffect(x: Local, s': Sys, y: Local)
    requires y == x.(pc := Ending, gone := false, at := y.at) && RegistersFit(x)
    ensures OwnEffect(x, s', y) && RegistersFit(y) && SameLengths(s', y)
  {
  }

  lemma EffectOf(s: Sys, q: nat, s': Sys)
    requires q in s.procs && q in s'.procs && OwnEffect(s.procs[q], s', s'.procs[q])
    ensures Effect(s, q, s')
  {
    hide OwnEffect;
  }

  lemma FailShape(s: Sys, q: nat)
    requires q in s.procs && (s.procs[q].pc == IdxLock || s.procs[q].pc == LinkHead) && PointersFit(s) && Failed(s, q).Some?
    ensures var s' := Failed(s, q).value;
      && s'.heads == s.heads && s'.recs == s.recs && Effect(s, q, s')
      && (q in s'.procs ==> s'.procs[q].pc == Ending && RegistersFit(s'.procs[q]) && SameLengths(s', s'.procs[q]))
  {
    hide Failed, PlaceLeft, Effect, SameLengths, RegistersFit;
    FailedShape(s, q);
    ItFits(s, q);
    var s' := Failed(s, q).value;
    EndingEffect(s.procs[q], s', s'.procs[q]);
    EffectOf(s, q, s');
  }

  // ---------- what other processes rely on ----------

  lemma OtherFront(f: Files, q: nat, f': Files, p: nat)
    requires Inv(f.sys) && q in f.sys.procs && p in f.sys.procs && p != q && Frame(f.sys, f'.sys, q)
    requires p in f'.sys.procs && f'.sys.procs[p] == f.sys.procs[p]
    requires p in f.regs && p in f'.regs && f'.regs[p] == f.regs[p] && FrontHeld(f, p)
    requires forall r :: r in f.datoff ==> r in f'.datoff && f'.datoff[r] == f.datoff[r]
    ensures FrontHeld(f', p)
  {
    hide Inv, ListsHold, LocksHold, Frame, ChainOf, Ready, TextOf;
    var s, s', x := f.sys, f'.sys, f.sys.procs[p];
    if f.regs[p].front.Some? {
      ReadyIn(s, p);
      WalkersAt(s, p, x);
      if x.pc == Walking {
        LocksApart(s, p, q, Chain(x));
        AtKept(s, s', q, x, Chain(x));
      } else {
        LocksApart(s, p, q, FREE);
        AtKept(s, s', q, x, FREE);
      }
    }
  }

  lemma WalkersAt(s: Sys, p: nat, x: Local)
    requires Shaped(s) && Ready(s, p, x)
    ensures x.pc == Walking ==> At(s, x, Chain(x))
    ensures x.pc == FreeWalk ==> At(s, x, FREE) && x.op.StoreCall?
  {
    hide ChainOf, GoodCall;
  }

  lemma OtherRegs(f: Files, q: nat, f': Files, p: nat)
    requires Inv(f.sys) && q in f.sys.procs && p in f.sys.procs && p != q && Frame(f.sys, f'.sys, q)
    requires p in f'.sys.procs && f'.sys.procs[p] == f.sys.procs[p] && RegsHeld(f, p)
    requires p in f'.regs && (p in f.regs ==> f'.regs[p] == f.regs[p])
    requires forall r :: r in f.datoff ==> r in f'.datoff && f'.datoff[r] == f.datoff[r]
    requires |f'.dat| == |f.dat| || f.sys.procs[p].pc != DatWrite
    requires |f'.idx| == |f.idx| || f.sys.procs[p].pc != IdxWrite
    ensures RegsHeld(f', p)
  {
    hide Inv, Frame, FrontHeld, TextFits;
    OtherFront(f, q, f', p);
  }

  /** Everything together, after a step of `q`. */
  lemma StepHeld(f: Files, q: nat, f': Files)
    requires FilesHold(f) && q in f.sys.procs && GoodMove(f.sys, q, f'.sys)
    requires DataHeld(f') && IndexHeld(f')
    requires f'.regs.Keys == f.regs.Keys && forall p :: p in f.regs && p != q ==> f'.regs[p] == f.regs[p]
    requires forall r :: r in f.datoff ==> r in f'.datoff && f'.datoff[r] == f.datoff[r]
    requires |f'.dat| == |f.dat| || f.sys.procs[q].pc == DatWrite
    requires |f'.idx| == |f.idx| || f.sys.procs[q].pc == IdxWrite
    requires q in f'.sys.procs ==> RegsHeld(f', q)
    ensures FilesHold(f')
  {
    hide Inv, Frame, FilesHold, DataHeld, RegsHeld, SameLengths, PointersFit, RegistersFit, Effect, Stands, Render;
    FilesParts(f);
    forall p | p in f'.sys.procs ensures RegsHeld(f', p) {
      if p != q {
        OneAppends(f, q, p);
        HasRegs(f, p);
        OtherRegs(f, q, f', p);
      }
    }
    forall p | p in f'.sys.procs ensures RegistersFit(f'.sys.procs[p]) {
      if p != q { ItFits(f.sys, p); }
    }
    IndexPointersFit(f');
    AllFit(f'.sys);
    FilesTogether(f');
  }

  lemma HasRegs(f: Files, p: nat)
    requires p in f.sys.procs && RegsHeld(f, p)
    ensures p in f.regs
  {
  }

  lemma ItFits(s: Sys, p: nat)
    requires PointersFit(s) && p in s.procs
    ensures RegistersFit(s.procs[p])
  {
  }

  lemma IndexPointersFit(f: Files)
    requires IndexHeld(f)
    ensures forall l :: 0 <= l < |f.sys.heads| ==> f.sys.heads[l] <= PTR_MAX
    ensures forall r :: r in f.sys.recs ==> f.sys.recs[r].next <= PTR_MAX
  {
    hide Render, TextOf;
    forall r | r in f.sys.recs ensures f.sys.recs[r].next <= PTR_MAX {
      HereItStands(IndexOf(f), r);
    }
  }

  lemma AllFit(s: Sys)
    requires forall l :: 0 <= l < |s.heads| ==> s.heads[l] <= PTR_MAX
    requires forall r :: r in s.recs ==> s.recs[r].next <= PTR_MAX
    requires forall p :: p in s.procs ==> RegistersFit(s.procs[p])
    ensures PointersFit(s)
  {
    hide RegistersFit;
  }

  lemma FilesTogether(f: Files)
    requires Inv(f.sys) && PointersFit(f.sys) && DataHeld(f) && IndexHeld(f)
    requires forall p :: p in f.sys.procs ==> RegsHeld(f, p) && SameLengths(f.sys, f.sys.procs[p])
    ensures FilesHold(f)
  {
    hide Inv, PointersFit, DataHeld, IndexHeld, RegsHeld, SameLengths;
  }

  /** No other process is between its seek to the end of a file and the unlocking. */
  lemma OneAppends(f: Files, q: nat, p: nat)
    requires FilesHold(f) && q in f.sys.procs && p in f.sys.procs && p != q
    ensures f.sys.procs[q].pc == DatWrite ==> f.sys.procs[p].pc != DatWrite
    ensures f.sys.procs[q].pc == IdxWrite ==> f.sys.procs[p].pc != IdxWrite
  {
    hide Inv, FilesHold, ChainOf, IndexHeld, DataHeld;
    FilesParts(f);
    ReadyIn(f.sys, q);
    if f.sys.procs[q].pc == DatWrite { LocksApart(f.sys, q, p, DAT_END); }
    if f.sys.procs[q].pc == IdxWrite { LocksApart(f.sys, q, p, IDX_END); }
  }

  // ---------- the registers of the process itself ----------

  /** After a step that is not a read of a record, nor a check or a write of an append. */
  lemma OwnRegs(f: Files, q: nat, f': Files)
    requires q in f.sys.procs && RegsHeld(f, q) && q in f'.sys.procs && Effect(f.sys, q, f'.sys)
    requires q in f.regs && q in f'.regs && f'.regs[q] == f.regs[q]
    requires var pc := f.sys.procs[q].pc; pc != DatWrite && pc != IdxWrite && pc != IdxLock && pc != Walking && pc != FreeWalk
    requires forall r :: r in f.datoff ==> r in f'.datoff && f'.datoff[r] == f.datoff[r]
    ensures RegsHeld(f', q)
  {
    hide SameLengths, TextFits, TextOf;
  }

  /** A slot of the later state is one of the earlier, unless the step made it. */
  lemma SlotKept(f: Files, q: nat, f': Files, a: Slot)
    requires q in f.sys.procs && GoodMove(f.sys, q, f'.sys) && f.sys.procs[q].pc != DatWrite && f'.datoff == f.datoff
    requires forall p :: p in f'.regs && p != q ==> p in f.regs && f'.regs[p].datoff == f.regs[p].datoff
    requires q in f.regs && (Filed(f.sys.procs[q].pc) ==> q in f'.regs && f'.regs[q].datoff == f.regs[q].datoff)
    requires a.OfRecord? && a.r in f'.sys.recs ==> a.r in f.sys.recs && f'.sys.recs[a.r].data == f.sys.recs[a.r].data
    ensures SlotSame(f, f', a)
  {
    hide Inv, Frame, SameLengths, RegistersFit;
  }
}
