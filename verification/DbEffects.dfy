/** What each step of the interleaved database does to the pointers, the records and its own registers:
    what the bytes of the files have to follow. */
module DbEffects {
  import opened Options
  import opened Decimal
  import opened DbFormat
  import opened DbImage
  import opened DbLists
  import opened Database
  import opened DbRuns
  import opened DbProcesses
  import opened DbProtocol
  import opened DbQuietSteps
  import opened DbInsertSteps
  import opened DbConcurrent

  // ---------- pointers and records ----------

  /** Where a step writes a pointer: the head of a list, or the record before. */
  function HeadsAfter(s: Sys, x: Local): seq<nat>
    requires Shaped(s)
  {
    match x.pc
    case DelFree => s.heads[FREE := x.cur]
    case DelLink => if x.prev == 0 then s.heads[Chain(x) := x.val] else s.heads
    case FreeTake => if x.prev == 0 then s.heads[FREE := x.val] else s.heads
    case LinkHead => s.heads[Chain(x) := x.cur]
    case _ => s.heads
  }

  function Relinked(recs: map<nat, Rec>, r: nat, next: nat): map<nat, Rec> {
    if r in recs then recs[r := recs[r].(next := next)] else recs
  }

  function Refilled(recs: map<nat, Rec>, r: nat, data: string): map<nat, Rec> {
    if r in recs then recs[r := recs[r].(data := data)] else recs
  }

  function Rekeyed(recs: map<nat, Rec>, r: nat, next: nat, key: string): map<nat, Rec> {
    if r in recs then recs[r := Rec(next, key, recs[r].data)] else recs
  }

  /** The records after a step of a process with registers `x`, an appended one at `end`. */
  function RecsAfter(s: Sys, x: Local, end: nat): map<nat, Rec> {
    match x.pc
    case DelData => Refilled(s.recs, x.cur, Spaces(x.len))
    case DelIdx => Rekeyed(s.recs, x.cur, x.free, Spaces(|Key(x)|))
    case DelLink => if x.prev == 0 then s.recs else Relinked(s.recs, x.prev, x.val)
    case FreeTake => if x.prev == 0 then s.recs else Relinked(s.recs, x.prev, x.val)
    case FillDat => if x.op.StoreCall? then Refilled(s.recs, x.cur, x.op.data) else s.recs
    case Overwriting => if x.op.StoreCall? then Refilled(s.recs, x.cur, x.op.data) else s.recs
    case FillIdx => Rekeyed(s.recs, x.cur, x.head, Key(x))
    case IdxWrite => if x.op.StoreCall? then s.recs[end := Rec(x.head, Key(x), x.op.data)] else s.recs
    case _ => s.recs
  }

  predicate FilesFollow(s: Sys, x: Local, s': Sys, end: nat)
    requires Shaped(s)
  {
    var holds :=
      s'.heads == HeadsAfter(s, x) && s'.recs == RecsAfter(s, x, end);
    holds
  }

  lemma LockFollows(s: Sys, q: nat, end: nat)
    requires Shaped(s) && q in s.procs && LockStep(s, q).Some? && LockPc(s.procs[q].pc)
    ensures FilesFollow(s, s.procs[q], LockStep(s, q).value, end)
  {
    hide LockStep, AfterLock, ChainOf;
    LockedShape(s, q);
  }

  lemma WalkFollows(s: Sys, q: nat, end: nat)
    requires Shaped(s) && q in s.procs && WalkStep(s, q).Some?
    ensures FilesFollow(s, s.procs[q], WalkStep(s, q).value, end)
  {
    hide ChainOf;
    match s.procs[q].pc { case ReadHead => case Walking => case FreeHead => case FreeWalk => case _ => }
  }

  lemma DecideFollows(s: Sys, q: nat, end: nat)
    requires Shaped(s) && q in s.procs && DecideStep(s, q).Some?
    requires DecidePc(s.procs[q].pc)
    ensures FilesFollow(s, s.procs[q], DecideStep(s, q).value, end)
  {
    hide ChainOf, DecideStep;
    DecidedShape(s, q);
  }

  lemma DeleteFollows(s: Sys, q: nat, end: nat)
    requires Shaped(s) && q in s.procs && DeleteStep(s, q).Some?
    ensures FilesFollow(s, s.procs[q], DeleteStep(s, q).value, end)
  {
    hide ChainOf, After;
    match s.procs[q].pc { case DelData => case DelRead => case DelIdx => case DelFree => case DelLink => case _ => }
  }

  lemma InsertFollows(s: Sys, q: nat, end: nat)
    requires Shaped(s) && q in s.procs && InsertStep(s, q, end).Some?
    ensures FilesFollow(s, s.procs[q], InsertStep(s, q, end).value, end)
  {
    hide ChainOf, After;
    match s.procs[q].pc {
      case InsHead => case FreeTake => case FillDat => case FillIdx => case DatWrite => case IdxWrite =>
      case LinkHead => case _ =>
    }
  }

  lemma NextFollows(s: Sys, q: nat, end: nat)
    requires Shaped(s) && q in s.procs && Next(s, q, end).Some?
    ensures FilesFollow(s, s.procs[q], Next(s, q, end).value, end)
  {
    hide LockStep, WalkStep, DecideStep, DeleteStep, InsertStep, FilesFollow;
    var pc := s.procs[q].pc;
    if LockPc(pc) { LockFollows(s, q, end); }
    else if WalkPc(pc) { WalkFollows(s, q, end); }
    else if DecidePc(pc) { DecideFollows(s, q, end); }
    else if DeletePc(pc) { DeleteFollows(s, q, end); }
    else { InsertFollows(s, q, end); }
  }

  // ---------- pointers that fit their field ----------

  /** The offsets in the registers fit a pointer, but for that of a record just appended. */
  predicate RegistersFit(x: Local) {
    && x.val <= PTR_MAX && x.free <= PTR_MAX && x.head <= PTR_MAX
    && (x.cur <= PTR_MAX || x.pc == IdxUnlock || x.pc == LinkHead || Leaves(x.pc))
  }

  ghost predicate PointersFit(s: Sys) {
    && (forall l :: 0 <= l < |s.heads| ==> s.heads[l] <= PTR_MAX)
    && (forall r :: r in s.recs ==> s.recs[r].next <= PTR_MAX)
    && (forall p :: p in s.procs ==> RegistersFit(s.procs[p]))
  }

  lemma LockFits(s: Sys, q: nat)
    requires Shaped(s) && q in s.procs && LockStep(s, q).Some? && PointersFit(s)
    requires LockPc(s.procs[q].pc)
    ensures var s' := LockStep(s, q).value; q in s'.procs ==> RegistersFit(s'.procs[q])
  {
    hide LockStep;
    LockedShape(s, q);
  }

  lemma WalkFits(s: Sys, q: nat)
    requires Shaped(s) && q in s.procs && WalkStep(s, q).Some? && PointersFit(s)
    ensures var s' := WalkStep(s, q).value; q in s'.procs ==> RegistersFit(s'.procs[q])
  {
    hide ChainOf;
    match s.procs[q].pc { case ReadHead => case Walking => case FreeHead => case FreeWalk => case _ => }
  }

  lemma DecideFits(s: Sys, q: nat)
    requires Shaped(s) && q in s.procs && DecideStep(s, q).Some? && PointersFit(s)
    requires DecidePc(s.procs[q].pc)
    ensures var s' := DecideStep(s, q).value; q in s'.procs ==> RegistersFit(s'.procs[q])
  {
    hide ChainOf, DecideStep;
    DecidedShape(s, q);
  }

  lemma DeleteFits(s: Sys, q: nat)
    requires Shaped(s) && q in s.procs && DeleteStep(s, q).Some? && PointersFit(s)
    ensures var s' := DeleteStep(s, q).value; q in s'.procs ==> RegistersFit(s'.procs[q])
  {
    hide ChainOf, After;
    match s.procs[q].pc { case DelData => case DelRead => case DelIdx => case DelFree => case DelLink => case _ => }
  }

  lemma InsertFits(s: Sys, q: nat, end: nat)
    requires Shaped(s) && q in s.procs && InsertStep(s, q, end).Some? && PointersFit(s)
    ensures var s' := InsertStep(s, q, end).value; q in s'.procs ==> RegistersFit(s'.procs[q])
  {
    hide ChainOf, InsertStep;
    InsertedShape(s, q, end);
    InsertsIn(s, q, end);
  }

  lemma NextFits(s: Sys, q: nat, end: nat)
    requires Shaped(s) && q in s.procs && Next(s, q, end).Some? && PointersFit(s)
    ensures var s' := Next(s, q, end).value; q in s'.procs ==> RegistersFit(s'.procs[q])
  {
    hide LockStep, WalkStep, DecideStep, DeleteStep, InsertStep, PointersFit, RegistersFit;
    var pc := s.procs[q].pc;
    if LockPc(pc) { LockFits(s, q); }
    else if WalkPc(pc) { WalkFits(s, q); }
    else if DecidePc(pc) { DecideFits(s, q); }
    else if DeletePc(pc) { DeleteFits(s, q); }
    else { InsertFits(s, q, end); }
  }

  // ---------- lengths ----------

  predicate Fits(s: Sys, x: Local) {
    x.op.StoreCall? && x.cur in s.recs && |s.recs[x.cur].key| == |Key(x)| && |s.recs[x.cur].data| == |x.op.data|
  }

  /** A record that a process is about to rewrite has the lengths of what will be written. */
  predicate SameLengths(s: Sys, x: Local) {
    match x.pc
    case FreeTake => Fits(s, x)
    case FreeUnlock => x.cur != 0 ==> Fits(s, x)
    case FillDat => Fits(s, x)
    case FillIdx => Fits(s, x)
    case Overwriting => x.op.StoreCall? && x.cur in s.recs && |s.recs[x.cur].data| == |x.op.data|
    case DelLock => x.cur in s.recs && |s.recs[x.cur].data| == x.len
    case DelData => x.cur in s.recs && |s.recs[x.cur].data| == x.len
    case DelRead => x.cur in s.recs && |s.recs[x.cur].data| == x.len
    case DelIdx => x.cur in s.recs && |s.recs[x.cur].data| == x.len
    case _ => true
  }

  // ---------- a step and its own registers ----------

  predicate Filed(pc: Pc) {
    pc == DatUnlock || pc == IdxLock || pc == IdxWrite
  }

  /** The handle describes the record at `cur`. */
  predicate Described(x: Local) {
    || x.pc == Found || x.pc == Overwriting || x.pc == DelLock || x.pc == DelData || x.pc == DelRead
    || x.pc == DelIdx || x.pc == FreeTake || (x.pc == FreeUnlock && x.cur != 0) || x.pc == FillDat || x.pc == FillIdx
  }

  predicate OwnEffect(x: Local, s': Sys, y: Local) {
    var holds :=
      && y.op == x.op && (Filed(y.pc) ==> x.pc == DatWrite || x.pc == DatUnlock || x.pc == IdxLock)
      && (y.pc == IdxWrite ==> x.pc == IdxLock)
      && (Described(y) ==> y.cur == x.cur && (Described(x) || x.pc == Walking || x.pc == FreeWalk))
      && SameLengths(s', y);
    holds
  }

  predicate Effect(s: Sys, q: nat, s': Sys)
    requires q in s.procs
  {
    q in s'.procs ==> OwnEffect(s.procs[q], s', s'.procs[q])
  }

  lemma LockOwnEffect(s: Sys, x: Local, s': Sys)
    requires s'.recs == s.recs && LockPc(x.pc) && !Leaves(x.pc) && SameLengths(s, x)
    ensures OwnEffect(x, s', AfterLock(x))
  {
    match x.pc {
      case Locking => case DelLock => case DelUnlock => case FreeLock => case FreeUnlock => case DatLock =>
      case DatUnlock => case IdxLock => case IdxUnlock => case _ =>
    }
  }

  lemma LockEffect(s: Sys, q: nat)
    requires Shaped(s) && q in s.procs && LockPc(s.procs[q].pc) && LockStep(s, q).Some? && SameLengths(s, s.procs[q])
    ensures Effect(s, q, LockStep(s, q).value)
  {
    hide LockStep, OwnEffect, AfterLock, SameLengths;
    LockedShape(s, q);
    if !Leaves(s.procs[q].pc) { LockOwnEffect(s, s.procs[q], LockStep(s, q).value); }
  }

  lemma HeadEffect(s: Sys, q: nat)
    requires Shaped(s) && q in s.procs && WalkStep(s, q).Some? && (s.procs[q].pc == ReadHead || s.procs[q].pc == FreeHead)
    ensures Effect(s, q, WalkStep(s, q).value)
  {
    hide ChainOf;
    match s.procs[q].pc { case ReadHead => case FreeHead => case _ => }
  }

  lemma WalkerOnRecord(s: Sys, q: nat)
    requires Shaped(s) && q in s.procs && s.procs[q].pc == Walking && WalkStep(s, q).Some?
    ensures s.procs[q].cur in s.recs
  {
    hide ChainOf, AfterRecord;
  }

  lemma RecordEffect(x: Local, r: Rec, s': Sys)
    requires x.pc == Walking
    ensures OwnEffect(x, s', AfterRecord(x, r))
  {
  }

  lemma ChainEffect(s: Sys, q: nat)
    requires Shaped(s) && q in s.procs && WalkStep(s, q).Some? && s.procs[q].pc == Walking
    ensures Effect(s, q, WalkStep(s, q).value)
  {
    hide ChainOf, WalkStep, AfterRecord, OwnEffect;
    var x := s.procs[q];
    WalkerOnRecord(s, q);
    WalkingIs(s, q);
    RecordEffect(x, s.recs[x.cur], WalkStep(s, q).value);
  }

  lemma FreeEffect(s: Sys, q: nat)
    requires Shaped(s) && q in s.procs && WalkStep(s, q).Some? && s.procs[q].pc == FreeWalk
    ensures Effect(s, q, WalkStep(s, q).value)
  {
    hide ChainOf;
  }

  lemma WalkEffect(s: Sys, q: nat)
    requires Shaped(s) && q in s.procs && WalkStep(s, q).Some?
    ensures Effect(s, q, WalkStep(s, q).value)
  {
    hide WalkStep, Effect;
    WalksIn(s, q);
    match s.procs[q].pc {
      case ReadHead => HeadEffect(s, q);
      case FreeHead => HeadEffect(s, q);
      case Walking => ChainEffect(s, q);
      case FreeWalk => FreeEffect(s, q);
    }
  }

  lemma WalksIn(s: Sys, q: nat)
    requires Shaped(s) && q in s.procs && WalkStep(s, q).Some?
    ensures WalkPc(s.procs[q].pc)
  {
    hide ChainOf;
  }

  lemma DecideEffect(s: Sys, q: nat)
    requires Shaped(s) && q in s.procs && DecideStep(s, q).Some? && Ready(s, q, s.procs[q])
    requires DecidePc(s.procs[q].pc)
    ensures Effect(s, q, DecideStep(s, q).value)
  {
    hide ChainOf, DecideStep, Ready;
    DecidedShape(s, q);
    if s.procs[q].pc == Found { ReadyDecides(s, q); }
  }

  lemma ReadyDecides(s: Sys, q: nat)
    requires Shaped(s) && q in s.procs && Ready(s, q, s.procs[q]) && s.procs[q].pc == Found
    ensures s.procs[q].cur in s.recs && s.procs[q].len == |s.recs[s.procs[q].cur].data|
  {
    hide ChainOf, GoodCall, Logged;
  }

  lemma BlankEffect(s: Sys, q: nat)
    requires Shaped(s) && q in s.procs && DeleteStep(s, q).Some? && SameLengths(s, s.procs[q])
    requires s.procs[q].pc == DelData || s.procs[q].pc == DelRead
    ensures Effect(s, q, DeleteStep(s, q).value)
  {
    hide ChainOf;
    match s.procs[q].pc { case DelData => case DelRead => case _ => }
  }

  lemma BypassEffect(s: Sys, q: nat)
    requires Shaped(s) && q in s.procs && DeleteStep(s, q).Some?
    requires s.procs[q].pc == DelIdx || s.procs[q].pc == DelFree || s.procs[q].pc == DelLink
    ensures Effect(s, q, DeleteStep(s, q).value)
  {
    hide ChainOf, After, CutList, WriteLink;
    match s.procs[q].pc { case DelIdx => case DelFree => case DelLink => RelinkedProcs(s, q); case _ => }
  }

  lemma RelinkedProcs(s: Sys, q: nat)
    requires Shaped(s) && q in s.procs && (s.procs[q].prev != 0 ==> s.procs[q].prev in s.recs)
    ensures WriteLink(s, Chain(s.procs[q]), s.procs[q].prev, s.procs[q].val).procs == s.procs
  {
    hide Bucket;
  }

  lemma DeleteEffect(s: Sys, q: nat)
    requires Shaped(s) && q in s.procs && DeleteStep(s, q).Some? && SameLengths(s, s.procs[q]) && DeletePc(s.procs[q].pc)
    ensures Effect(s, q, DeleteStep(s, q).value)
  {
    hide DeleteStep, Effect, SameLengths;
    if s.procs[q].pc == DelData || s.procs[q].pc == DelRead { BlankEffect(s, q); } else { BypassEffect(s, q); }
  }

  lemma TakeEffect(s: Sys, q: nat, end: nat)
    requires Shaped(s) && q in s.procs && InsertStep(s, q, end).Some? && s.procs[q].pc == FreeTake
    requires SameLengths(s, s.procs[q])
    ensures Effect(s, q, InsertStep(s, q, end).value)
  {
    hide ChainOf;
  }

  lemma FillEffect(s: Sys, q: nat, end: nat)
    requires Shaped(s) && q in s.procs && InsertStep(s, q, end).Some? && SameLengths(s, s.procs[q])
    requires s.procs[q].pc == FillDat || s.procs[q].pc == FillIdx || s.procs[q].pc == IdxWrite
    ensures Effect(s, q, InsertStep(s, q, end).value)
  {
    hide ChainOf;
    match s.procs[q].pc { case FillDat => case FillIdx => case IdxWrite => case _ => }
  }

  lemma LinkEffect(s: Sys, q: nat, end: nat)
    requires Shaped(s) && q in s.procs && InsertStep(s, q, end).Some?
    requires s.procs[q].pc == InsHead || s.procs[q].pc == DatWrite || s.procs[q].pc == LinkHead
    ensures Effect(s, q, InsertStep(s, q, end).value)
  {
    hide ChainOf, InsertStep;
    InsertedShape(s, q, end);
  }

  lemma NextEffect(s: Sys, q: nat, end: nat)
    requires Inv(s) && Shaped(s) && q in s.procs && SameLengths(s, s.procs[q]) && Next(s, q, end).Some?
    ensures Effect(s, q, Next(s, q, end).value)
  {
    hide Inv, Ready, Effect, SameLengths, LockStep, WalkStep, DecideStep, DeleteStep, InsertStep;
    ReadyIn(s, q);
    var pc := s.procs[q].pc;
    if LockPc(pc) { LockEffect(s, q); }
    else if WalkPc(pc) { WalkEffect(s, q); }
    else if DecidePc(pc) { DecideEffect(s, q); }
    else if DeletePc(pc) { DeleteEffect(s, q); }
    else if pc == FreeTake { TakeEffect(s, q, end); }
    else if pc == FillDat || pc == FillIdx || pc == IdxWrite { FillEffect(s, q, end); }
    else { LinkEffect(s, q, end); }
  }

  lemma ReadyIn(s: Sys, p: nat)
    requires Inv(s) && p in s.procs
    ensures Shaped(s) && Ready(s, p, s.procs[p]) && ListsHold(s) && LocksHold(s)
  {
    hide Ready, ListsHold, LocksHold, Agreement, History;
  }

  /** The lengths other processes rely on. */
  lemma LengthsKept(s: Sys, s': Sys, q: nat, p: nat)
    requires Inv(s) && q in s.procs && p in s.procs && p != q && Frame(s, s', q) && SameLengths(s, s.procs[p])
    ensures SameLengths(s', s.procs[p])
  {
    hide Inv, Frame, ListsHold, LocksHold, Located, Holding, ChainOf, Startable, Logged, Bypassing, Inserting;
    var x := s.procs[p];
    ReadyIn(s, p);
    match x.pc {
      case FreeTake =>
        LocksApart(s, p, q, FREE);
        AtKept(s, s', q, x, FREE);
      case FreeUnlock => if x.cur != 0 { HoldingKept(s, s', q, p, x); }
      case FillDat => HoldingKept(s, s', q, p, x);
      case FillIdx => HoldingKept(s, s', q, p, x);
      case Overwriting => LengthsLocated(s, s', q, p);
      case DelLock => LengthsLocated(s, s', q, p);
      case DelData => LengthsLocated(s, s', q, p);
      case DelRead => LengthsLocated(s, s', q, p);
      case DelIdx => LengthsLocated(s, s', q, p);
      case _ =>
    }
  }

  lemma LengthsLocated(s: Sys, s': Sys, q: nat, p: nat)
    requires ListsHold(s) && LocksHold(s) && Shaped(s) && q in s.procs && p in s.procs && p != q && Frame(s, s', q)
    requires Located(s, s.procs[p]) && !s.procs[p].op.FetchCall? && s.procs[p].pc != Locking
    ensures s.procs[p].cur in s'.recs && s'.recs[s.procs[p].cur] == s.recs[s.procs[p].cur]
  {
    hide ListsHold, LocksHold, Frame, ChainOf;
    LocksApart(s, p, q, Chain(s.procs[p]));
    LocatedKept(s, s', q, s.procs[p]);
  }
}
