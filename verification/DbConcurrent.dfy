/** The database under any interleaving of any number of processes. */
module DbConcurrent {
  import opened Options
  import opened DbFormat
  import opened DbLists
  import opened Database
  import opened DbRuns
  import opened DbHistory
  import opened DbProcesses
  import opened DbProtocol
  import opened DbQuietSteps
  import opened DbLogSteps
  import opened DbListMoves
  import opened DbWriteSteps
  import opened DbInsertSteps

  // ---------- one step ----------

  /** Every step a process can take is a good one, and only a lock call can be unable to go on. */
  lemma StepGood(s: Sys, p: nat, end: nat)
    requires Inv(s) && p in s.procs && end != 0 && end !in s.recs
    ensures !Waits(s.procs[p].pc) ==> Next(s, p, end).Some?
    ensures Next(s, p, end).Some? ==> GoodStep(s, Next(s, p, end).value, p)
  {
    hide Inv, GoodStep, LockStep, WalkStep, DecideStep, DeleteStep, InsertStep;
    ShapeOf(s);
    if LockPc(s.procs[p].pc) {
      LockGood(s, p);
    } else if WalkPc(s.procs[p].pc) {
      WalkKeeps(s, p);
    } else if s.procs[p].pc == Overwriting {
      OverwriteKeeps(s, p);
    } else if DecidePc(s.procs[p].pc) {
      DecideKeeps(s, p);
    } else if DeletePc(s.procs[p].pc) {
      DeleteGood(s, p);
    } else {
      InsertGood(s, p, end);
    }
  }

  lemma LockGood(s: Sys, p: nat)
    requires Inv(s) && Shaped(s) && p in s.procs && LockPc(s.procs[p].pc)
    ensures !Waits(s.procs[p].pc) ==> LockStep(s, p).Some?
    ensures LockStep(s, p).Some? ==> GoodStep(s, LockStep(s, p).value, p)
  {
    hide Inv, GoodStep, ChainOf;
    if Leaves(s.procs[p].pc) {
      LeaveKeeps(s, p);
    } else if LockStep(s, p).Some? {
      LockKeeps(s, p);
    }
  }

  lemma DeleteGood(s: Sys, p: nat)
    requires Inv(s) && Shaped(s) && p in s.procs && DeletePc(s.procs[p].pc)
    ensures DeleteStep(s, p).Some? && GoodStep(s, DeleteStep(s, p).value, p)
  {
    hide Inv, GoodStep, DeleteStep;
    match s.procs[p].pc {
      case DelData => DelDataKeeps(s, p);
      case DelRead => DelReadKeeps(s, p);
      case DelIdx => DelIdxKeeps(s, p);
      case DelFree => DelFreeKeeps(s, p);
      case DelLink => DelLinkKeeps(s, p);
    }
  }

  lemma InsertGood(s: Sys, p: nat, end: nat)
    requires Inv(s) && Shaped(s) && p in s.procs && end != 0 && end !in s.recs
    requires InsertPc(s.procs[p].pc) && !LockPc(s.procs[p].pc) && !WalkPc(s.procs[p].pc)
    ensures InsertStep(s, p, end).Some? && GoodStep(s, InsertStep(s, p, end).value, p)
  {
    hide Inv, GoodStep, InsertStep;
    match s.procs[p].pc {
      case InsHead => InsHeadKeeps(s, p);
      case DatWrite => InsHeadKeeps(s, p);
      case FreeTake => FreeTakeKeeps(s, p);
      case FillDat => FillKeeps(s, p);
      case FillIdx => FillKeeps(s, p);
      case IdxWrite => IdxWriteKeeps(s, p, end);
      case LinkHead => LinkHeadKeeps(s, p);
    }
  }

  lemma GoodStepKeeps(s: Sys, s': Sys, q: nat)
    requires Inv(s) && q in s.procs && GoodStep(s, s', q)
    ensures Inv(s')
  {
    hide Ready, ListsHold, LocksHold, Agreement, History;
    forall p | p in s'.procs ensures Ready(s', p, s'.procs[p]) {
      if p != q { ReadyKept(s, s', q, p); }
    }
  }

  // ---------- who waits ----------

  /** `q` is where the lock that `p` wants keeps `p` out: on the same chain unless both fetch, at the free
      list, or at the end of the same file. */
  predicate InTheWay(s: Sys, p: nat, q: nat)
    requires p in s.procs
  {
    && q in s.procs
    && var x, y := s.procs[p], s.procs[q];
       match x.pc
       case Locking =>
         y.pc != Locking && ChainOf(y.op.key) == ChainOf(x.op.key) && !(x.op.FetchCall? && y.op.FetchCall?)
       case DatLock => y.pc == DatWrite || y.pc == DatUnlock
       case IdxLock => y.pc == IdxWrite || y.pc == IdxUnlock
       case _ =>
         y.pc in {DelData, DelRead, DelIdx, DelFree, DelLink, DelUnlock, FreeHead, FreeWalk, FreeTake, FreeUnlock}
  }

  /** A lock call waits if and only if another process is in the way. */
  lemma WhoWaits(s: Sys, p: nat, end: nat)
    requires Inv(s) && Shaped(s) && p in s.procs && Waits(s.procs[p].pc)
    ensures Next(s, p, end) == Option.None <==> exists q :: InTheWay(s, p, q)
  {
    hide Inv, ListsHold, Agreement, History, Ready, Bucket;
    LocksOf(s);
    var x := s.procs[p];
    var l := if x.pc == Locking then Chain(x) else if x.pc == DatLock then DAT_END
             else if x.pc == IdxLock then IDX_END else FREE;
    assert LockHeld(s, l);
    LockTaken(s, p, l, end);
    match s.locks[l]
    case Exclusive(o) => assert InTheWay(s, p, o);
    case Shared(readers) =>
      if readers != {} && !(x.pc == Locking && x.op.FetchCall?) {
        var q :| q in readers;
        assert InTheWay(s, p, q);
      }
  }

  lemma LockTaken(s: Sys, p: nat, l: nat, end: nat)
    requires Shaped(s) && p in s.procs && Waits(s.procs[p].pc)
    requires var x := s.procs[p];
      l == if x.pc == Locking then Chain(x) else if x.pc == DatLock then DAT_END
           else if x.pc == IdxLock then IDX_END else FREE
    ensures Next(s, p, end) == Option.None <==>
      var x := s.procs[p]; !CanTake(s.locks[l], !(x.pc == Locking && x.op.FetchCall?))
  {
    hide Bucket;
  }

  // ---------- runs ----------

  /** What happens next: an idle process starts a call, or a process in a call takes its next step
      (an index record it appends gets offset `end`), or its append fails a check. */
  datatype Move = Start(p: nat, op: Call) | Step(p: nat, end: nat) | Fail(p: nat)

  predicate Moves(s: Sys, m: Move, s': Sys) {
    && Shaped(s)
    && match m
       case Start(p, op) => p !in s.procs && Startable(op) && s' == Begin(s, p, op)
       case Step(p, end) =>
         p in s.procs && end != 0 && end !in s.recs && Next(s, p, end) == Option.Some(s')
       case Fail(p) => p in s.procs && Failed(s, p) == Option.Some(s')
  }

  ghost predicate IsRun(states: seq<Sys>, moves: seq<Move>) {
    && |states| == |moves| + 1 && states[0] == Initial()
    && forall i :: 0 <= i < |moves| ==> Moves(states[i], moves[i], states[i + 1])
  }

  lemma InitialInv()
    ensures Inv(Initial())
  {
    hide Bucket;
    var s := Initial();
    forall l | 0 <= l < LOCKS ensures LockHeld(s, l) {
    }
    assert Calls(s.log) == [] && Answers(s.log) == [];
  }

  lemma BeginLists(s: Sys, p: nat, op: Call)
    requires Inv(s) && p !in s.procs
    ensures ListsHold(Begin(s, p, op))
  {
    hide Ready, LocksHold, Agreement, History, Blank, Bucket;
    var s' := Begin(s, p, op);
    LocksOf(s);
    forall l | 0 <= l <= NHASH ensures ListPlaced(s', l) && ListLinked(s', l) {
      PlacedAt(s, l);
      OwnerIn(s, l);
      SameList(s, s', l);
    }
    forall r | r in s'.recs ensures RecordHeld(s', r) {
      assert RecordHeld(s, r);
    }
    forall key | key in s'.loc ensures KeyHeld(s', key) {
      assert KeyHeld(s, key);
    }
  }

  lemma OwnerIn(s: Sys, l: nat)
    requires LocksHold(s) && l < LOCKS
    ensures s.locks[l].Exclusive? ==> s.locks[l].owner in s.procs
  {
    assert LockHeld(s, l);
  }

  lemma BeginInv(s: Sys, p: nat, op: Call)
    requires Inv(s) && p !in s.procs && Startable(op)
    ensures Inv(Begin(s, p, op))
  {
    hide ListsHold, History, Agreement, Bucket, GoodCall;
    var s' := Begin(s, p, op);
    BeginLists(s, p, op);
    forall l | 0 <= l < LOCKS ensures LockHeld(s', l) {
      assert LockHeld(s, l);
    }
    BeginAgreement(s, p, op);
    SameHistory(s, s');
    forall q | q in s'.procs ensures Ready(s', q, s'.procs[q]) {
      if q != p { ReadyBegin(s, p, op, q); }
    }
  }

  lemma BeginAgreement(s: Sys, p: nat, op: Call)
    requires LocksHold(s) && Agreement(s) && p !in s.procs
    ensures Agreement(Begin(s, p, op))
  {
    hide Bucket;
    var s' := Begin(s, p, op);
    forall key | !Torn(s', key) ensures Agrees(s', key) {
      OwnerIn(s, ChainOf(key));
      assert !Torn(s, key) && Agrees(s, key);
    }
  }

  lemma ReadyBegin(s: Sys, p: nat, op: Call, q: nat)
    requires Shaped(s) && q in s.procs && q != p && Ready(s, q, s.procs[q])
    ensures Ready(Begin(s, p, op), q, s.procs[q])
  {
    hide GoodCall, ChainOf, Blank;
  }

  lemma MoveKeeps(s: Sys, m: Move, s': Sys)
    requires Inv(s) && Moves(s, m, s')
    ensures Inv(s')
    ensures !m.Start? ==> m.p in s.procs && GoodStep(s, s', m.p)
  {
    hide Inv, GoodStep, Next, Begin, Startable, Ended;
    match m
    case Start(p, op) =>
      BeginInv(s, p, op);
    case Step(p, end) =>
      StepGood(s, p, end);
      GoodStepKeeps(s, s', p);
    case Fail(p) =>
      FailKeeps(s, p);
      GoodStepKeeps(s, s', p);
  }

  /** Every state of every run satisfies the invariant. */
  lemma {:induction false} RunKeeps(states: seq<Sys>, moves: seq<Move>, i: nat)
    requires IsRun(states, moves) && i < |states|
    ensures Inv(states[i])
  {
    hide Inv, Moves, Initial;
    if i == 0 {
      InitialInv();
    } else {
      RunKeeps(states, moves, i - 1);
      assert Moves(states[i - 1], moves[i - 1], states[i]);
      MoveKeeps(states[i - 1], moves[i - 1], states[i]);
    }
  }

  // ---------- the answers are those of calls made one at a time ----------

  /** The call has taken effect, or will not; all that is left is to give up locks. */
  predicate TookEffect(x: Local) {
    Leaves(x.pc) || (x.pc == DelUnlock && x.op.DeleteCall?)
  }

  /** A call in progress has taken effect at most once since it began, and where its register says. */
  predicate OneEffect(s: Sys) {
    var holds :=
      forall p, i {:trigger s.procs[p], s.log[i]} :: p in s.procs && s.procs[p].since <= i < |s.log| && s.log[i].p == p ==>
        TookEffect(s.procs[p]) && i == s.procs[p].at;
    holds
  }

  /** How far a call is from its end: the phase first, then the records left to walk over. */
  function Phase(pc: Pc): nat {
    match pc
    case Locking => 28 case ReadHead => 27 case Walking => 26 case Found => 25 case NotFound => 25
    case Overwriting => 24 case DelLock => 24 case DelData => 23 case DelRead => 22 case DelIdx => 21
    case DelFree => 20 case DelLink => 19 case DelUnlock => 18 case InsHead => 17 case FreeLock => 16
    case FreeHead => 15 case FreeWalk => 14 case FreeTake => 13 case FreeUnlock => 12 case FillDat => 11
    case FillIdx => 10 case DatLock => 9 case DatWrite => 8 case DatUnlock => 7 case IdxLock => 6
    case IdxWrite => 5 case IdxUnlock => 4 case LinkHead => 3 case Unlocking => 2 case Ending => 2
  }

  lemma EarlyPhases()
    ensures Phase(Locking) == 28 && Phase(ReadHead) == 27 && Phase(Walking) == 26 && Phase(Found) == 25 && Phase(NotFound) == 25
    ensures Phase(Overwriting) == 24 && Phase(DelLock) == 24 && Phase(DelData) == 23 && Phase(DelRead) == 22 && Phase(DelIdx) == 21
  {
  }

  lemma MiddlePhases()
    ensures Phase(DelFree) == 20 && Phase(DelLink) == 19 && Phase(DelUnlock) == 18 && Phase(InsHead) == 17 && Phase(FreeLock) == 16
    ensures Phase(FreeHead) == 15 && Phase(FreeWalk) == 14 && Phase(FreeTake) == 13 && Phase(FreeUnlock) == 12 && Phase(FillDat) == 11
  {
  }

  lemma LatePhases()
    ensures Phase(FillIdx) == 10 && Phase(DatLock) == 9 && Phase(DatWrite) == 8 && Phase(DatUnlock) == 7 && Phase(IdxLock) == 6
    ensures Phase(IdxWrite) == 5 && Phase(IdxUnlock) == 4 && Phase(LinkHead) == 3 && Phase(Unlocking) == 2 && Phase(Ending) == 2
  {
  }

  lemma Phases()
    ensures Phase(Locking) == 28 && Phase(ReadHead) == 27 && Phase(Walking) == 26 && Phase(Found) == 25 && Phase(NotFound) == 25
    ensures Phase(Overwriting) == 24 && Phase(DelLock) == 24 && Phase(DelData) == 23 && Phase(DelRead) == 22 && Phase(DelIdx) == 21
    ensures Phase(DelFree) == 20 && Phase(DelLink) == 19 && Phase(DelUnlock) == 18 && Phase(InsHead) == 17 && Phase(FreeLock) == 16
    ensures Phase(FreeHead) == 15 && Phase(FreeWalk) == 14 && Phase(FreeTake) == 13 && Phase(FreeUnlock) == 12 && Phase(FillDat) == 11
    ensures Phase(FillIdx) == 10 && Phase(DatLock) == 9 && Phase(DatWrite) == 8 && Phase(DatUnlock) == 7 && Phase(IdxLock) == 6
    ensures Phase(IdxWrite) == 5 && Phase(IdxUnlock) == 4 && Phase(LinkHead) == 3 && Phase(Unlocking) == 2 && Phase(Ending) == 2
  {
    hide Phase;
    EarlyPhases();
    MiddlePhases();
    LatePhases();
  }

  function Left(s: Sys, x: Local): int
    requires Shaped(s)
  {
    if x.pc == Walking then |s.lists[Chain(x)]| - x.k
    else if x.pc == FreeWalk then |s.lists[FREE]| - x.k
    else 0
  }

  predicate Nearer(s: Sys, x: Local, s': Sys, y: Local)
    requires Shaped(s) && Shaped(s')
  {
    var holds :=
      Phase(y.pc) < Phase(x.pc) || (Phase(y.pc) == Phase(x.pc) && Left(s', y) < Left(s, x));
    holds
  }

  /** A step changes no other process, and logs at most one event, of its own process and only when
      its call takes effect. */
  predicate OwnStep(s: Sys, p: nat, s': Sys)
    requires p in s.procs
  {
    var holds :=
      || (s'.procs == s.procs - {p} && s'.log == s.log)
      || (p in s'.procs && s'.procs == s.procs[p := s'.procs[p]] && OwnLog(s, p, s', s.procs[p], s'.procs[p]));
    holds
  }

  predicate OneEvent(s: Sys, p: nat, s': Sys) {
    |s'.log| == |s.log| + 1 && s'.log[..|s.log|] == s.log && s'.log[|s.log|].p == p
  }

  predicate OwnLog(s: Sys, p: nat, s': Sys, x: Local, y: Local) {
    var holds :=
      && y.since == x.since && y.op == x.op
      && if s'.log == s.log then y.at == x.at && (TookEffect(x) ==> TookEffect(y))
         else !TookEffect(x) && TookEffect(y) && y.at == |s.log| && OneEvent(s, p, s');
    holds
  }

  lemma CutShape(s: Sys, l: nat, k: nat)
    requires Shaped(s) && l <= NHASH
    ensures |CutList(s, l, k)| == |s.lists|
  {
  }

  lemma RelinkShape(s: Sys, l: nat, prev: nat, v: nat)
    requires Shaped(s) && l <= NHASH && (prev != 0 ==> prev in s.recs)
    ensures var s' := WriteLink(s, l, prev, v);
      |s'.heads| == |s.heads| && s'.lists == s.lists && s'.locks == s.locks && s'.procs == s.procs && s'.log == s.log
  {
  }

  lemma LockOwn(s: Sys, p: nat)
    requires Shaped(s) && p in s.procs && LockStep(s, p).Some?
    requires LockPc(s.procs[p].pc)
    ensures Shaped(LockStep(s, p).value) && OwnStep(s, p, LockStep(s, p).value)
  {
    hide ChainOf, LockStep;
    LockedShape(s, p);
  }

  lemma LockNearer(s: Sys, p: nat)
    requires Shaped(s) && p in s.procs && LockStep(s, p).Some? && Shaped(LockStep(s, p).value)
    requires p in LockStep(s, p).value.procs
    requires LockPc(s.procs[p].pc)
    ensures Nearer(s, s.procs[p], LockStep(s, p).value, LockStep(s, p).value.procs[p])
  {
    hide Phase, ChainOf, LockStep;
    Phases();
    LockedShape(s, p);
  }

  lemma WalkOwn(s: Sys, p: nat)
    requires Shaped(s) && p in s.procs && WalkStep(s, p).Some?
    ensures Shaped(WalkStep(s, p).value) && OwnStep(s, p, WalkStep(s, p).value)
  {
    hide ChainOf;
    match s.procs[p].pc {
      case ReadHead =>
      case Walking =>
      case FreeHead =>
      case FreeWalk =>
      case _ =>
    }
  }

  lemma WalkNearer(s: Sys, p: nat)
    requires Shaped(s) && p in s.procs && WalkStep(s, p).Some? && Shaped(WalkStep(s, p).value)
    requires p in WalkStep(s, p).value.procs
    ensures Nearer(s, s.procs[p], WalkStep(s, p).value, WalkStep(s, p).value.procs[p])
  {
    hide Phase, ChainOf;
    Phases();
    match s.procs[p].pc {
      case ReadHead =>
      case Walking =>
      case FreeHead =>
      case FreeWalk =>
      case _ =>
    }
  }

  /** Where a call goes on after its decision. */
  predicate GoesOnTo(x: Local, pc: Pc) {
    || (x.pc == Found && pc == DelLock)
    || (x.pc == Found && pc == Overwriting && x.op.StoreCall? && |x.op.data| == x.len)
    || (x.pc == NotFound && pc == InsHead)
  }

  /** A decision ends the work of a call and logs it, or the call goes on. */
  predicate Decided(s: Sys, p: nat, s': Sys)
    requires p in s.procs
  {
    var holds :=
      var x := s.procs[p];
      && p in s'.procs
      && var y := s'.procs[p];
         && s'.procs == s.procs[p := y] && s'.heads == s.heads && s'.lists == s.lists && s'.locks == s.locks
         && s'.recs == (if x.pc == Overwriting && x.op.StoreCall? && x.cur in s.recs
                        then s.recs[x.cur := s.recs[x.cur].(data := x.op.data)] else s.recs)
         && if s'.log == s.log then y == x.(pc := y.pc) && GoesOnTo(x, y.pc)
            else y == x.(pc := Unlocking, gone := false, ans := y.ans, at := |s.log|)
                 && s'.log == s.log + [Event(p, x.op, y.ans)];
    holds
  }

  lemma DecidedFound(s: Sys, p: nat)
    requires Shaped(s) && p in s.procs && DecideStep(s, p).Some? && s.procs[p].pc == Found
    ensures Decided(s, p, DecideStep(s, p).value)
  {
    hide ChainOf, After;
    match s.procs[p].op { case FetchCall(_) => case DeleteCall(_) => case StoreCall(_, _, _) => }
  }

  lemma DecidedNotFound(s: Sys, p: nat)
    requires Shaped(s) && p in s.procs && DecideStep(s, p).Some? && s.procs[p].pc == NotFound
    ensures Decided(s, p, DecideStep(s, p).value)
  {
    hide ChainOf, After;
    match s.procs[p].op { case FetchCall(_) => case DeleteCall(_) => case StoreCall(_, _, _) => }
  }

  lemma DecidedOverwriting(s: Sys, p: nat)
    requires Shaped(s) && p in s.procs && DecideStep(s, p).Some? && s.procs[p].pc == Overwriting
    ensures Decided(s, p, DecideStep(s, p).value)
  {
    hide ChainOf, After;
  }

  lemma DecidedShape(s: Sys, p: nat)
    requires Shaped(s) && p in s.procs && DecideStep(s, p).Some? && DecidePc(s.procs[p].pc)
    ensures Decided(s, p, DecideStep(s, p).value)
  {
    hide DecideStep, Decided;
    match s.procs[p].pc {
      case Found => DecidedFound(s, p);
      case NotFound => DecidedNotFound(s, p);
      case Overwriting => DecidedOverwriting(s, p);
    }
  }

  lemma DecideOwn(s: Sys, p: nat)
    requires Shaped(s) && p in s.procs && DecideStep(s, p).Some?
    requires DecidePc(s.procs[p].pc)
    ensures Shaped(DecideStep(s, p).value) && OwnStep(s, p, DecideStep(s, p).value)
  {
    hide ChainOf, DecideStep;
    DecidedShape(s, p);
  }

  lemma DecideNearer(s: Sys, p: nat)
    requires Shaped(s) && p in s.procs && DecideStep(s, p).Some? && Shaped(DecideStep(s, p).value)
    requires p in DecideStep(s, p).value.procs
    requires DecidePc(s.procs[p].pc)
    ensures Nearer(s, s.procs[p], DecideStep(s, p).value, DecideStep(s, p).value.procs[p])
  {
    hide Phase, ChainOf, DecideStep;
    Phases();
    DecidedShape(s, p);
  }

  lemma BlankOwn(s: Sys, p: nat)
    requires Shaped(s) && p in s.procs && DeleteStep(s, p).Some? && (s.procs[p].pc == DelData || s.procs[p].pc == DelRead)
    ensures Shaped(DeleteStep(s, p).value) && OwnStep(s, p, DeleteStep(s, p).value)
  {
    hide ChainOf;
    match s.procs[p].pc { case DelData => case DelRead => case _ => }
  }

  lemma MoveOwn(s: Sys, p: nat)
    requires Shaped(s) && p in s.procs && DeleteStep(s, p).Some? && (s.procs[p].pc == DelIdx || s.procs[p].pc == DelFree)
    ensures Shaped(DeleteStep(s, p).value) && OwnStep(s, p, DeleteStep(s, p).value)
  {
    hide ChainOf, CutList;
    CutShape(s, Chain(s.procs[p]), s.procs[p].k);
    match s.procs[p].pc { case DelIdx => case DelFree => case _ => }
  }

  lemma BypassOwn(s: Sys, p: nat)
    requires Shaped(s) && p in s.procs && DeleteStep(s, p).Some? && s.procs[p].pc == DelLink
    ensures Shaped(DeleteStep(s, p).value) && OwnStep(s, p, DeleteStep(s, p).value)
  {
    hide ChainOf, After, WriteLink;
    var x := s.procs[p];
    if x.prev != 0 ==> x.prev in s.recs { RelinkShape(s, Chain(x), x.prev, x.val); }
  }

  lemma DeleteOwn(s: Sys, p: nat)
    requires Shaped(s) && p in s.procs && DeleteStep(s, p).Some? && DeletePc(s.procs[p].pc)
    ensures Shaped(DeleteStep(s, p).value) && OwnStep(s, p, DeleteStep(s, p).value)
  {
    hide DeleteStep, OwnStep;
    match s.procs[p].pc {
      case DelData => BlankOwn(s, p);
      case DelRead => BlankOwn(s, p);
      case DelIdx => MoveOwn(s, p);
      case DelFree => MoveOwn(s, p);
      case DelLink => BypassOwn(s, p);
    }
  }

  lemma DeleteNearer(s: Sys, p: nat)
    requires Shaped(s) && p in s.procs && DeleteStep(s, p).Some? && Shaped(DeleteStep(s, p).value)
    requires p in DeleteStep(s, p).value.procs
    ensures Nearer(s, s.procs[p], DeleteStep(s, p).value, DeleteStep(s, p).value.procs[p])
  {
    hide Phase, ChainOf, After, CutList, WriteLink;
    Phases();
    var x := s.procs[p];
    CutShape(s, Chain(x), x.k);
    if x.prev != 0 ==> x.prev in s.recs { RelinkShape(s, Chain(x), x.prev, x.val); }
    match s.procs[p].pc {
      case DelData =>
      case DelRead =>
      case DelIdx =>
      case DelFree =>
      case DelLink =>
      case _ =>
    }
  }

  lemma InsertOwn(s: Sys, p: nat, end: nat)
    requires Shaped(s) && p in s.procs && InsertStep(s, p, end).Some?
    ensures Shaped(InsertStep(s, p, end).value) && OwnStep(s, p, InsertStep(s, p, end).value)
  {
    hide ChainOf, After, CutList, WriteLink;
    var x := s.procs[p];
    CutShape(s, FREE, x.k);
    if x.prev != 0 ==> x.prev in s.recs { RelinkShape(s, FREE, x.prev, x.val); }
    match s.procs[p].pc {
      case InsHead =>
      case FreeTake =>
      case FillDat =>
      case FillIdx =>
      case DatWrite =>
      case IdxWrite =>
      case LinkHead =>
      case _ =>
    }
  }

  lemma InsertNearer(s: Sys, p: nat, end: nat)
    requires Shaped(s) && p in s.procs && InsertStep(s, p, end).Some? && Shaped(InsertStep(s, p, end).value)
    requires p in InsertStep(s, p, end).value.procs
    ensures Nearer(s, s.procs[p], InsertStep(s, p, end).value, InsertStep(s, p, end).value.procs[p])
  {
    hide Phase, ChainOf, After, CutList, WriteLink;
    Phases();
    var x := s.procs[p];
    CutShape(s, FREE, x.k);
    if x.prev != 0 ==> x.prev in s.recs { RelinkShape(s, FREE, x.prev, x.val); }
    match s.procs[p].pc {
      case InsHead =>
      case FreeTake =>
      case FillDat =>
      case FillIdx =>
      case DatWrite =>
      case IdxWrite =>
      case LinkHead =>
      case _ =>
    }
  }

  function AfterInsert(x: Local): Pc {
    match x.pc
    case InsHead => if x.gone then DatLock else FreeLock
    case FreeTake => FreeUnlock
    case FillDat => FillIdx
    case FillIdx => LinkHead
    case DatWrite => DatUnlock
    case IdxWrite => IdxUnlock
    case _ => Unlocking
  }

  /** The registers and the log after a step of a store that inserts. */
  predicate Inserted(s: Sys, p: nat, end: nat, s': Sys)
    requires Shaped(s) && p in s.procs
  {
    var holds :=
      var x := s.procs[p];
      && p in s'.procs
      && var y := s'.procs[p];
         && s'.procs == s.procs[p := y] && x.op.StoreCall?
         && y == x.(pc := AfterInsert(x), cur := if x.pc == IdxWrite then end else x.cur,
                    head := if x.pc == InsHead then s.heads[Chain(x)] else x.head,
                    gone := y.gone, ans := y.ans, at := y.at)
         && if x.pc == LinkHead then !y.gone && y.at == |s.log| && s'.log == s.log + [Event(p, x.op, y.ans)]
            else s'.log == s.log && y.gone == x.gone && y.at == x.at;
    holds
  }

  lemma InsertedFirst(s: Sys, p: nat, end: nat)
    requires Shaped(s) && p in s.procs && InsertStep(s, p, end).Some?
    requires s.procs[p].pc == InsHead || s.procs[p].pc == FillDat || s.procs[p].pc == FillIdx || s.procs[p].pc == DatWrite
    ensures Inserted(s, p, end, InsertStep(s, p, end).value)
  {
    hide ChainOf;
    match s.procs[p].pc { case InsHead => case FillDat => case FillIdx => case DatWrite => case _ => }
  }

  lemma InsertedTaken(s: Sys, p: nat, end: nat)
    requires Shaped(s) && p in s.procs && InsertStep(s, p, end).Some? && s.procs[p].pc == FreeTake
    ensures Inserted(s, p, end, InsertStep(s, p, end).value)
  {
    hide ChainOf, CutList, WriteLink;
    RelinkShape(s, FREE, s.procs[p].prev, s.procs[p].val);
  }

  lemma InsertedLast(s: Sys, p: nat, end: nat)
    requires Shaped(s) && p in s.procs && InsertStep(s, p, end).Some?
    requires s.procs[p].pc == IdxWrite || s.procs[p].pc == LinkHead
    ensures Inserted(s, p, end, InsertStep(s, p, end).value)
  {
    hide ChainOf, After;
    match s.procs[p].pc { case IdxWrite => case LinkHead => case _ => }
  }

  lemma InsertsIn(s: Sys, p: nat, end: nat)
    requires Shaped(s) && p in s.procs && InsertStep(s, p, end).Some?
    ensures InsertPc(s.procs[p].pc) && !LockPc(s.procs[p].pc) && !WalkPc(s.procs[p].pc)
  {
    hide ChainOf, After, CutList, WriteLink;
  }

  lemma InsertedShape(s: Sys, p: nat, end: nat)
    requires Shaped(s) && p in s.procs && InsertStep(s, p, end).Some?
    ensures Inserted(s, p, end, InsertStep(s, p, end).value)
  {
    hide InsertStep, Inserted;
    InsertsIn(s, p, end);
    match s.procs[p].pc {
      case FreeTake => InsertedTaken(s, p, end);
      case IdxWrite => InsertedLast(s, p, end);
      case LinkHead => InsertedLast(s, p, end);
      case _ => InsertedFirst(s, p, end);
    }
  }

  lemma NextOwn(s: Sys, p: nat, end: nat)
    requires Shaped(s) && p in s.procs && Next(s, p, end).Some?
    ensures Shaped(Next(s, p, end).value) && OwnStep(s, p, Next(s, p, end).value)
  {
    hide OwnStep, LockStep, WalkStep, DecideStep, DeleteStep, InsertStep;
    var pc := s.procs[p].pc;
    if LockPc(pc) { LockOwn(s, p); }
    else if WalkPc(pc) { WalkOwn(s, p); }
    else if DecidePc(pc) { DecideOwn(s, p); }
    else if DeletePc(pc) { DeleteOwn(s, p); }
    else { InsertOwn(s, p, end); }
  }

  lemma NextNearer(s: Sys, p: nat, end: nat)
    requires Shaped(s) && p in s.procs && Next(s, p, end).Some? && Shaped(Next(s, p, end).value)
    requires p in Next(s, p, end).value.procs
    ensures Nearer(s, s.procs[p], Next(s, p, end).value, Next(s, p, end).value.procs[p])
  {
    hide Nearer, LockStep, WalkStep, DecideStep, DeleteStep, InsertStep;
    var pc := s.procs[p].pc;
    if LockPc(pc) { LockNearer(s, p); }
    else if WalkPc(pc) { WalkNearer(s, p); }
    else if DecidePc(pc) { DecideNearer(s, p); }
    else if DeletePc(pc) { DeleteNearer(s, p); }
    else { InsertNearer(s, p, end); }
  }

  lemma {:induction false} EffectsOnce(states: seq<Sys>, moves: seq<Move>, i: nat)
    requires IsRun(states, moves) && i < |states|
    ensures OneEffect(states[i])
  {
    hide Inv, Moves;
    if i > 0 {
      EffectsOnce(states, moves, i - 1);
      RunKeeps(states, moves, i - 1);
      assert Moves(states[i - 1], moves[i - 1], states[i]);
      EffectsOnceStep(states[i - 1], moves[i - 1], states[i]);
    }
  }

  lemma EffectsOnceStep(s: Sys, m: Move, s': Sys)
    requires Inv(s) && Moves(s, m, s') && OneEffect(s)
    ensures OneEffect(s')
  {
    hide Inv, Next, TookEffect, Startable, Nearer;
    match m
    case Start(p, op) =>
    case Step(p, end) => NextOwn(s, p, end);
    case Fail(p) => FailOwn(s, p);
  }

  lemma FailOwn(s: Sys, p: nat)
    requires Inv(s) && p in s.procs && Failed(s, p).Some?
    ensures OwnStep(s, p, Failed(s, p).value)
  {
    hide Inv, ChainOf;
    InCall(s, p);
  }

  /** Linearizability: the calls of a run, in the order in which they took effect, get the answers
      one table gives them one after the other; a call that returns took effect exactly once, after
      it began, with the answer it returns. */
  lemma Linearizable(states: seq<Sys>, moves: seq<Move>, i: nat, p: nat)
    requires IsRun(states, moves) && i < |states| && p in states[i].procs && states[i].procs[p].pc == Unlocking
    ensures var s, x := states[i], states[i].procs[p];
      && Answers(s.log) == Replies(map[], Calls(s.log))
      && x.since <= x.at < |s.log| && s.log[x.at] == Event(p, x.op, x.ans)
      && forall j :: x.since <= j < |s.log| && s.log[j].p == p ==> j == x.at
  {
    hide ListsHold, LocksHold, Agreement, Replies, AfterAll, Moves, Initial, Startable;
    RunKeeps(states, moves, i);
    EffectsOnce(states, moves, i);
    assert Ready(states[i], p, states[i].procs[p]);
  }

  /** The answers in a run are those the calls that took effect before call for. */
  lemma AnswersInRuns(states: seq<Sys>, moves: seq<Move>, i: nat, n: nat)
    requires IsRun(states, moves) && i < |states| && n < |states[i].log|
    ensures Truthful(Calls(states[i].log), Answers(states[i].log), n)
  {
    hide ListsHold, LocksHold, Agreement, Replies, AfterAll, Moves, Initial, Truthful, Ready;
    RunKeeps(states, moves, i);
    AnswersAreTrue(Calls(states[i].log), n);
  }

  /** A step leaves what was logged, and what a call in progress was started as. */
  lemma StepGoesOn(s: Sys, m: Move, s': Sys, p: nat)
    requires Inv(s) && Moves(s, m, s')
    ensures s.log <= s'.log
    ensures p in s.procs && p in s'.procs ==>
      s'.procs[p].since == s.procs[p].since && s'.procs[p].op == s.procs[p].op
  {
    hide Inv, Next, TookEffect, Startable, Nearer, Failed;
    match m
    case Start(q, op) =>
    case Step(q, end) => NextOwn(s, q, end);
    case Fail(q) => FailOwn(s, q);
  }

  lemma Starts(s: Sys, m: Move, s': Sys)
    requires Moves(s, m, s') && m.Start?
    ensures m.p in s'.procs && s'.log == s.log && s'.procs[m.p].since == |s.log| && s'.procs[m.p].op == m.op
  {
  }

  lemma MoveAt(states: seq<Sys>, moves: seq<Move>, i: nat)
    requires IsRun(states, moves) && i < |moves|
    ensures |states| == |moves| + 1 && Moves(states[i], moves[i], states[i + 1])
  {
    hide Moves;
  }

  lemma {:induction false} GoesOn(states: seq<Sys>, moves: seq<Move>, k: nat, i: nat, p: nat)
    requires IsRun(states, moves) && k < i <= |moves| < |states| && moves[k].Start? && moves[k].p == p
    requires forall j :: k < j <= i ==> p in states[j].procs
    ensures states[k].log <= states[i].log
    ensures states[i].procs[p].since == |states[k].log| && states[i].procs[p].op == moves[k].op
    decreases i
  {
    hide Inv, Moves, IsRun;
    MoveAt(states, moves, i - 1);
    if i - 1 == k {
      Starts(states[k], moves[k], states[i]);
    } else {
      RunKeeps(states, moves, i - 1);
      GoesOn(states, moves, k, i - 1, p);
      StepGoesOn(states[i - 1], moves[i - 1], states[i], p);
    }
  }

  /** A call that returns took effect, as the call it was started as and with the answer it returns, after
      everything that had taken effect when it was started: calls that do not overlap take effect in
      their order in time. */
  lemma TakesEffectInTime(states: seq<Sys>, moves: seq<Move>, k: nat, i: nat, p: nat) returns (at: nat)
    requires IsRun(states, moves) && k < i <= |moves| < |states| && moves[k].Start? && moves[k].p == p
    requires forall j :: k < j <= i ==> p in states[j].procs
    requires states[i].procs[p].pc == Unlocking
    ensures |states[k].log| <= at < |states[i].log| && states[k].log <= states[i].log
    ensures states[i].log[at] == Event(p, moves[k].op, states[i].procs[p].ans)
  {
    hide IsRun;
    GoesOn(states, moves, k, i, p);
    Linearizable(states, moves, i, p);
    at := states[i].procs[p].at;
  }

  /** When no process is in a call, the chains hold exactly the table those calls made. */
  lemma QuietFilesHoldTable(s: Sys, key: string)
    requires Inv(s) && s.procs == map[]
    ensures s.abs == AfterAll(map[], Calls(s.log))
    ensures key in s.abs <==> exists k :: 0 <= k < |s.lists[ChainOf(key)]| && RecordOf(s, key, s.lists[ChainOf(key)][k])
    ensures key in s.abs ==> s.loc.Keys >= {key} && s.loc[key] in s.recs && s.recs[s.loc[key]].data == s.abs[key]
  {
    hide Ready, Bucket, AfterAll, Replies, ListsHold, LocksHold;
    LocksOf(s);
    OwnerIn(s, ChainOf(key));
    assert !Torn(s, key) && Agrees(s, key);
    var list := s.lists[ChainOf(key)];
    if key in s.loc {
      KeyInList(s, key);
      var k :| 0 <= k < |list| && list[k] == s.loc[key];
      assert RecordOf(s, key, list[k]);
    }
    forall k | 0 <= k < |list| && RecordOf(s, key, list[k]) ensures key in s.loc {
      ChainRecord(s, ChainOf(key), k);
    }
  }

  predicate RecordOf(s: Sys, key: string, r: nat) {
    r in s.recs && s.recs[r].key == key
  }

  // ---------- where the records are ----------

  /** The first `n` records reached by following pointers from `ptr`. */
  function Trail(s: Sys, ptr: nat, n: nat): seq<nat>
    decreases n
  {
    if n == 0 || ptr == 0 || ptr !in s.recs then [] else [ptr] + Trail(s, s.recs[ptr].next, n - 1)
  }

  lemma {:induction false} TrailFrom(s: Sys, l: nat, k: nat, n: nat)
    requires ListsHold(s) && Shaped(s) && l <= NHASH && !Bent(s, l) && k <= |s.lists[l]| <= k + n
    ensures Trail(s, Node(s.lists[l], k), n) == s.lists[l][k..]
    decreases n
  {
    hide ListsHold, Bent;
    if k < |s.lists[l]| {
      NextNode(s, l, k);
      TrailFrom(s, l, k + 1, n - 1);
      assert s.lists[l][k..] == [s.lists[l][k]] + s.lists[l][k + 1..];
    }
  }

  /** Unless a deletion is rewriting it, a list is what its pointers lead through, to the end. */
  lemma FollowingPointers(s: Sys, l: nat, n: nat)
    requires Inv(s) && l <= NHASH && !Bent(s, l) && |s.lists[l]| <= n
    ensures Trail(s, s.heads[l], n) == s.lists[l]
  {
    hide ListsHold, LocksHold, Ready, Bent;
    ReadyAtHead(s, l);
    TrailFrom(s, l, 0, n);
  }

  /** A chain is being rewritten only by a process with the write locks of that chain and of the
      free list. */
  lemma RewriterHoldsBoth(s: Sys, l: nat)
    requires Inv(s) && l <= NHASH && Bent(s, l)
    ensures s.locks[l].Exclusive? && s.locks[FREE] == s.locks[l]
  {
    hide ListsHold, Agreement, History;
    var o := s.locks[l].owner;
    assert LockHeld(s, l) && LockHeld(s, FREE);
    assert Ready(s, o, s.procs[o]) && Writes(s.procs[o], FREE);
  }

  predicate LeftBehind(s: Sys, r: nat)
    requires Shaped(s)
  {
    forall l :: 0 <= l <= NHASH ==> r !in s.lists[l]
  }

  predicate OnOneList(s: Sys, r: nat, l: nat)
    requires Shaped(s) && r in s.recs
  {
    && l <= NHASH && r in s.lists[l]
    && (if l == FREE then Blank(s.recs[r].key) else ChainOf(s.recs[r].key) == l)
    && forall m :: 0 <= m <= NHASH && m != l ==> r !in s.lists[m]
  }

  predicate BeingMoved(s: Sys, r: nat, p: nat)
    requires Shaped(s)
  {
    var holds :=
      && p in s.procs && InHand(s.procs[p], r) && s.locks[Chain(s.procs[p])] == Exclusive(p)
      && forall l :: 0 <= l <= NHASH ==> r !in s.lists[l];
    holds
  }

  /** Every record is on exactly one list, the chain of its key or the free list, or it is the one
      record that the writer of a chain is moving, or it was left behind by a process that ended before
      it could link it. */
  lemma WhereRecordsAre(s: Sys, r: nat)
    requires Inv(s) && r in s.recs
    ensures r in s.place
    ensures if s.place[r] == Lost then LeftBehind(s, r)
            else (exists l :: OnOneList(s, r, l)) || (exists p :: BeingMoved(s, r, p))
  {
    hide LocksHold, Agreement, History, Bucket, Blank, ListLinked;
    assert RecordHeld(s, r);
    forall l | 0 <= l <= NHASH && r in s.lists[l] ensures s.place[r] == On(l) {
      assert ListPlaced(s, l);
    }
    match s.place[r] {
      case Lost =>
      case On(l) =>
        assert OnOneList(s, r, l);
      case Hand(p) =>
        LocksOf(s);
        InHandStores(s, p, r);
        OwnChain(s, p);
        assert BeingMoved(s, r, p);
    }
  }

  lemma InHandStores(s: Sys, p: nat, r: nat)
    requires Inv(s) && p in s.procs && InHand(s.procs[p], r)
    ensures !s.procs[p].op.FetchCall? && s.procs[p].pc != Locking
  {
    hide ListsHold, LocksHold, Agreement, History, ChainOf, GoodCall;
    assert Ready(s, p, s.procs[p]);
  }

  lemma FrameList(s: Sys, s': Sys, q: nat, l: nat)
    requires ListsHold(s) && q in s.procs && Frame(s, s', q) && l <= NHASH && !Writes(s.procs[q], l)
    ensures Shaped(s) && Shaped(s') && s'.heads[l] == s.heads[l] && s'.lists[l] == s.lists[l]
    ensures forall r :: r in s.lists[l] ==> r in s.recs && r in s'.recs && s'.recs[r] == s.recs[r]
    ensures forall p :: p in s.procs && p != q ==> p in s'.procs && s'.procs[p] == s.procs[p]
  {
    hide Writes, ListLinked, RecordHeld, KeyHeld, ChainOf;
    assert ListKept(s, s', l) && ListPlaced(s, l);
    forall r | r in s.lists[l] ensures r in s.recs && r in s'.recs && s'.recs[r] == s.recs[r] {
      assert RecordKept(s, s', r);
    }
  }

  /** What a process that holds the lock of a list sees there, no other process changes. */
  lemma ListStable(s: Sys, p: nat, m: Move, s': Sys, l: nat)
    requires Inv(s) && p in s.procs && Moves(s, m, s') && !m.Start? && p != m.p && l <= NHASH
    requires Writes(s.procs[p], l) || Reads(s.procs[p], l)
    ensures
      && Shaped(s') && s'.heads[l] == s.heads[l] && s'.lists[l] == s.lists[l]
      && p in s'.procs && s'.procs[p] == s.procs[p]
      && forall r :: r in s.lists[l] ==> r in s.recs && r in s'.recs && s'.recs[r] == s.recs[r]
  {
    hide Inv, Moves, Writes, Reads, ListsHold, LocksHold, Frame, Agreement, History, Ready;
    MoveKeeps(s, m, s');
    InCall(s, p);
    LocksOf(s);
    LocksApart(s, p, m.p, l);
    FrameList(s, s', m.p, l);
  }

  /** A process that is in no call, because its call returned or the process ended, holds no lock. */
  lemma NoLocksLeft(s: Sys, p: nat, l: nat)
    requires Inv(s) && p !in s.procs && l < LOCKS
    ensures l < |s.locks| && s.locks[l] != Exclusive(p) && (s.locks[l].Shared? ==> p !in s.locks[l].readers)
  {
    hide Inv;
    LocksOf(s);
    assert LockHeld(s, l);
  }

  // ---------- progress ----------

  predicate CanMove(s: Sys, p: nat, end: nat)
    requires Shaped(s)
  {
    p in s.procs && Next(s, p, end).Some?
  }

  /** No holder of the free list's lock, or of one of the append locks, ever waits. */
  lemma NoWaitHolding(s: Sys, p: nat, l: nat)
    requires Inv(s) && p in s.procs && l < LOCKS && (Writes(s.procs[p], l) || Reads(s.procs[p], l))
    requires l == FREE || l > NHASH
    ensures !Waits(s.procs[p].pc)
  {
    hide ListsHold, LocksHold, Agreement, History, GoodCall, Bucket;
    assert Ready(s, p, s.procs[p]);
  }

  /** The lock a waiting process wants can be taken when its holders are not waiting for one. */
  lemma WaitedFor(s: Sys, p: nat)
    requires Inv(s) && p in s.procs && Waits(s.procs[p].pc)
    ensures LockOf(s.procs[p]) < LOCKS
    ensures s.locks[LockOf(s.procs[p])] == Unlocked ==> LockStep(s, p).Some?
    ensures s.locks[LockOf(s.procs[p])] != Unlocked ==> exists q :: q in s.procs && Holds(s.procs[q], LockOf(s.procs[p]))
  {
    hide ListsHold, Agreement, History, Ready, Bucket, Writes, Reads;
    var l := LockOf(s.procs[p]);
    LockInRange(s.procs[p]);
    LockStepShape(s, p);
    assert LockHeld(s, l);
    match s.locks[l] {
      case Exclusive(o) => assert Holds(s.procs[o], l);
      case Shared(readers) =>
        if readers != {} {
          var q :| q in readers;
          assert Holds(s.procs[q], l);
        }
    }
  }

  lemma LockInRange(x: Local)
    ensures LockOf(x) < LOCKS
  {
    hide Bucket;
  }

  predicate Holds(x: Local, l: nat) {
    Writes(x, l) || Reads(x, l)
  }

  /** No deadlock: while any call is in progress, some process can take a step. */
  lemma NoDeadlock(s: Sys, end: nat)
    requires Inv(s) && s.procs != map[] && end != 0 && end !in s.recs
    ensures exists p :: CanMove(s, p, end)
  {
    hide Inv, Next, Holds, LockOf;
    var p :| p in s.procs;
    ShapeOf(s);
    if !Waits(s.procs[p].pc) {
      StepGood(s, p, end);
      assert CanMove(s, p, end);
    } else {
      var q := Mover(s, p);
      MoverMoves(s, q, end);
      assert CanMove(s, q, end);
    }
  }

  lemma MoverMoves(s: Sys, q: nat, end: nat)
    requires Inv(s) && Shaped(s) && q in s.procs && end != 0 && end !in s.recs
    requires Waits(s.procs[q].pc) ==> LockStep(s, q).Some?
    ensures Next(s, q, end).Some?
  {
    hide Inv, LockStep, WalkStep, DecideStep, DeleteStep, InsertStep, GoodStep;
    if !Waits(s.procs[q].pc) { StepGood(s, q, end); }
  }

  /** From a waiting process to one that can move: the process itself, the holder of the lock it
      waits for, or the holder of the lock that one waits for. */
  lemma Mover(s: Sys, p: nat) returns (q: nat)
    requires Inv(s) && Shaped(s) && p in s.procs && Waits(s.procs[p].pc)
    ensures q in s.procs && (Waits(s.procs[q].pc) ==> LockStep(s, q).Some?)
  {
    hide Inv, LockStep, Holds, Writes, Reads;
    q := p;
    WaitedFor(s, p);
    if s.locks[LockOf(s.procs[p])] != Unlocked {
      q :| q in s.procs && Holds(s.procs[q], LockOf(s.procs[p]));
      if Waits(s.procs[q].pc) {
        HolderWaits(s, q, LockOf(s.procs[p]));
        WaitedFor(s, q);
        if s.locks[LockOf(s.procs[q])] != Unlocked {
          var o :| o in s.procs && Holds(s.procs[o], LockOf(s.procs[q]));
          HolderMoves(s, o, LockOf(s.procs[q]));
          q := o;
        }
      }
    }
  }

  /** A process that waits while it holds a lock waits for the free list or an append lock. */
  lemma HolderWaits(s: Sys, q: nat, l: nat)
    requires Inv(s) && q in s.procs && Waits(s.procs[q].pc) && Holds(s.procs[q], l) && l < LOCKS
    ensures LockOf(s.procs[q]) == FREE || LockOf(s.procs[q]) > NHASH
  {
    hide Inv, Bucket;
  }

  lemma HolderMoves(s: Sys, o: nat, l: nat)
    requires Inv(s) && o in s.procs && Holds(s.procs[o], l) && l < LOCKS && (l == FREE || l > NHASH)
    ensures !Waits(s.procs[o].pc)
  {
    hide Inv, Writes, Reads, Waits;
    NoWaitHolding(s, o, l);
  }

  // ---------- every call ends ----------

  lemma WalkMeasure(s: Sys, p: nat)
    requires Shaped(s) && p in s.procs && Ready(s, p, s.procs[p])
    ensures 0 <= Left(s, s.procs[p])
  {
    hide ChainOf, GoodCall, Blank;
  }

  /** Every step of a call brings it nearer to its end, in the lexicographic order of its phase and
      the number of records left to walk over. */
  lemma StepsRunOut(s: Sys, p: nat, end: nat)
    requires Inv(s) && p in s.procs && end != 0 && end !in s.recs && Next(s, p, end).Some?
    ensures 0 <= Left(s, s.procs[p])
    ensures var s' := Next(s, p, end).value;
      Shaped(s') && (p in s'.procs ==> Nearer(s, s.procs[p], s', s'.procs[p]))
  {
    hide Inv, Ready, ChainOf, Next, Left, Nearer;
    ShapeOf(s);
    InCall(s, p);
    WalkMeasure(s, p);
    NextOwn(s, p, end);
    if p in Next(s, p, end).value.procs { NextNearer(s, p, end); }
  }

  /** Steps of other processes leave a call where it is. */
  lemma OthersDoNotDelay(s: Sys, p: nat, m: Move, s': Sys)
    requires Inv(s) && p in s.procs && Moves(s, m, s') && !m.Start? && p != m.p
    ensures Shaped(s') && p in s'.procs && s'.procs[p] == s.procs[p] && Left(s', s.procs[p]) == Left(s, s.procs[p])
  {
    hide Inv, Ready, Moves, ChainOf, ListsHold, LocksHold, Agreement, History, GoodCall;
    var x := s.procs[p];
    MoveKeeps(s, m, s');
    if x.pc == Walking { ListStable(s, p, m, s', Chain(x)); }
    if x.pc == FreeWalk {
      InCall(s, p);
      ListStable(s, p, m, s', FREE);
    }
  }
}
