/** Keys with a separator among many processes: such a key is first on its chain, and a call that looks
    for a key of that chain ends its process, without an effect and with its locks given up. */
module DbBarred {
  import opened Options
  import opened Sequences
  import opened DbFormat
  import opened DbLists
  import opened Database
  import opened DbRuns
  import opened DbProcesses
  import opened DbProtocol
  import opened DbQuietSteps
  import opened DbLogSteps
  import opened DbListMoves
  import opened DbWriteSteps
  import opened DbInsertSteps
  import opened DbConcurrent

  /** From position `n` of the list on, no key has a separator. */
  predicate CleanFrom(s: Sys, l: nat, n: nat)
    requires Shaped(s) && l <= NHASH
  {
    forall k :: n <= k < |s.lists[l]| ==> s.lists[l][k] in s.recs && SEP !in s.recs[s.lists[l][k]].key
  }

  /** The call has read the first record of its chain, and still has its chain locked for that walk. */
  predicate Past(x: Local) {
    x.pc != Locking && x.pc != ReadHead && !Leaves(x.pc) && !(x.pc == Walking && x.k == 0)
  }

  /** The call has found the record of its key. */
  predicate Matched(x: Local) {
    || x.gone || x.pc == Found || x.pc == Overwriting || x.pc == DelLock || x.pc == DelData || x.pc == DelRead
    || x.pc == DelIdx || x.pc == DelFree || x.pc == DelLink
  }

  predicate CallClean(s: Sys, x: Local)
    requires Shaped(s)
  {
    (Past(x) ==> CleanFrom(s, Chain(x), 0)) && (Matched(x) ==> SEP !in Key(x))
  }

  /** A key with a separator is first on its chain, and no call got past it. */
  ghost predicate SeparatorsHeld(s: Sys) {
    var holds :=
      && Shaped(s)
      && (forall l :: FREE < l <= NHASH ==> CleanFrom(s, l, 1))
      && (forall p :: p in s.procs ==> CallClean(s, s.procs[p]));
    holds
  }

  // ---------- what a step does to the chain of its call ----------

  /** Every record on the chain after the step was on it before, with the same key. */
  predicate ChainShrinks(s: Sys, s': Sys, l: nat)
    requires Shaped(s) && Shaped(s') && l <= NHASH
  {
    forall r :: r in s'.lists[l] ==> r in s.lists[l] && r in s.recs && r in s'.recs && s'.recs[r].key == s.recs[r].key
  }

  predicate SameChain(s: Sys, s': Sys, l: nat)
    requires Shaped(s) && Shaped(s') && l <= NHASH
  {
    && s'.lists[l] == s.lists[l]
    && forall r :: r in s.lists[l] && r in s.recs ==> r in s'.recs && s'.recs[r].key == s.recs[r].key
  }

  /** The step of `q` keeps its chain, takes a record off it, or puts the record in hand in front. */
  predicate ChainMoves(s: Sys, q: nat, s': Sys)
    requires Shaped(s) && Shaped(s') && q in s.procs
  {
    var x, l := s.procs[q], Chain(s.procs[q]);
    var holds :=
      || SameChain(s, s', l)
      || (Past(x) && ChainShrinks(s, s', l))
      || (x.pc == LinkHead && s'.recs == s.recs && s'.lists[l] == [x.cur] + s.lists[l]);
    holds
  }

  lemma ShrunkClean(s: Sys, s': Sys, l: nat)
    requires Shaped(s) && Shaped(s') && l <= NHASH && CleanFrom(s, l, 0) && ChainShrinks(s, s', l)
    ensures CleanFrom(s', l, 0)
  {
    forall k | 0 <= k < |s'.lists[l]|
      ensures s'.lists[l][k] in s'.recs && SEP !in s'.recs[s'.lists[l][k]].key
    {
      var r := s'.lists[l][k];
      assert r in s'.lists[l];
      var j :| 0 <= j < |s.lists[l]| && s.lists[l][j] == r;
    }
  }

  lemma SameClean(s: Sys, s': Sys, l: nat, n: nat)
    requires Shaped(s) && Shaped(s') && l <= NHASH && CleanFrom(s, l, n) && SameChain(s, s', l)
    ensures CleanFrom(s', l, n)
  {
  }

  /** The chain of the call stays clean, its first record aside; without a push it stays clean altogether. */
  lemma MovedClean(s: Sys, q: nat, s': Sys)
    requires Shaped(s) && Shaped(s') && q in s.procs && ChainMoves(s, q, s')
    requires CleanFrom(s, Chain(s.procs[q]), 1) && CallClean(s, s.procs[q])
    ensures CleanFrom(s', Chain(s.procs[q]), 1)
    ensures Past(s.procs[q]) && s.procs[q].pc != LinkHead ==> CleanFrom(s', Chain(s.procs[q]), 0)
  {
    hide ChainOf, Past, SameChain, ChainShrinks;
    var x, l := s.procs[q], Chain(s.procs[q]);
    PastLink(x);
    if SameChain(s, s', l) {
      SameClean(s, s', l, 1);
      if Past(x) { SameClean(s, s', l, 0); }
    } else if Past(x) && ChainShrinks(s, s', l) {
      ShrunkClean(s, s', l);
    }
  }

  lemma PastLink(x: Local)
    ensures x.pc == LinkHead ==> Past(x)
  {
  }

  // ---------- the steps ----------

  lemma SameFilesMove(s: Sys, q: nat, s': Sys)
    requires Shaped(s) && Shaped(s') && q in s.procs && s'.lists == s.lists && s'.recs == s.recs
    ensures ChainMoves(s, q, s')
  {
    hide ChainOf;
  }

  lemma LockMoves(s: Sys, q: nat)
    requires Shaped(s) && q in s.procs && LockStep(s, q).Some?
    requires LockPc(s.procs[q].pc)
    ensures var s' := LockStep(s, q).value; Shaped(s') && s'.lists == s.lists && s'.recs == s.recs && s'.log == s.log
  {
    hide LockStep, AfterLock;
    LockedShape(s, q);
  }

  lemma WalkMoves(s: Sys, q: nat)
    requires Shaped(s) && q in s.procs && WalkStep(s, q).Some?
    ensures var s' := WalkStep(s, q).value; Shaped(s') && s'.lists == s.lists && s'.recs == s.recs && s'.log == s.log
  {
    hide ChainOf;
    match s.procs[q].pc { case ReadHead => case Walking => case FreeHead => case FreeWalk => case _ => }
  }

  lemma FailMoves(s: Sys, q: nat)
    requires Shaped(s) && q in s.procs && Failed(s, q).Some?
    ensures var s' := Failed(s, q).value; Shaped(s') && s'.lists == s.lists && s'.recs == s.recs
  {
    match s.procs[q].pc { case IdxLock => case LinkHead => case _ => }
  }

  lemma DecideMoves(s: Sys, q: nat)
    requires Shaped(s) && q in s.procs && DecideStep(s, q).Some?
    requires DecidePc(s.procs[q].pc)
    ensures Shaped(DecideStep(s, q).value) && ChainMoves(s, q, DecideStep(s, q).value)
  {
    hide ChainOf, DecideStep;
    DecidedShape(s, q);
  }

  /** The record at position `k` is not on the list without it. */
  lemma NotWithout(s: Sys, l: nat, k: nat)
    requires ListsHold(s) && l <= NHASH && k < |s.lists[l]|
    ensures s.lists[l][k] !in Without(s.lists[l], k)
    ensures forall r :: r in Without(s.lists[l], k) ==> r in s.lists[l]
    ensures forall r :: r in s.lists[l] ==> r in s.recs
  {
    assert ListPlaced(s, l);
  }

  lemma CutMoves(s: Sys, q: nat)
    requires ListsHold(s) && Shaped(s) && q in s.procs && s.procs[q].pc == DelIdx && DeleteStep(s, q).Some?
    requires At(s, s.procs[q], Chain(s.procs[q]))
    ensures Shaped(DeleteStep(s, q).value) && ChainMoves(s, q, DeleteStep(s, q).value)
  {
    hide ChainOf, ListsHold, Without;
    NotWithout(s, Chain(s.procs[q]), s.procs[q].k);
  }

  lemma DeleteMoves(s: Sys, q: nat)
    requires Shaped(s) && q in s.procs && DeleteStep(s, q).Some? && s.procs[q].pc != DelIdx
    ensures Shaped(DeleteStep(s, q).value) && ChainMoves(s, q, DeleteStep(s, q).value)
  {
    hide Bucket, After;
    match s.procs[q].pc { case DelData => case DelRead => case DelFree => case DelLink => case _ => }
  }

  /** A record that is in no list's place is not on the chain. */
  lemma NotOnChain(s: Sys, l: nat, r: nat)
    requires ListsHold(s) && l <= NHASH && (r !in s.recs || (r in s.place && s.place[r].Hand?))
    ensures Shaped(s) && r !in s.lists[l]
  {
    assert ListPlaced(s, l);
  }

  lemma InsertMoves(s: Sys, q: nat, end: nat)
    requires ListsHold(s) && Shaped(s) && q in s.procs && InsertStep(s, q, end).Some?
    requires s.procs[q].pc == FillDat || s.procs[q].pc == FillIdx ==> Holding(s, q, s.procs[q])
    ensures Shaped(InsertStep(s, q, end).value) && ChainMoves(s, q, InsertStep(s, q, end).value)
  {
    hide Bucket, After, ListsHold;
    var x := s.procs[q];
    if x.pc == FillDat || x.pc == FillIdx { NotOnChain(s, Chain(x), x.cur); }
    if x.pc == IdxWrite { NotOnChain(s, Chain(x), end); }
    match x.pc {
      case InsHead => case FreeTake => case FillDat => case FillIdx => case DatWrite => case IdxWrite =>
      case LinkHead => case _ =>
    }
  }

  lemma DeleterAt(s: Sys, q: nat, x: Local)
    requires Shaped(s) && Ready(s, q, x) && x.pc == DelIdx
    ensures At(s, x, Chain(x))
  {
    hide ChainOf, GoodCall;
  }

  lemma FillerHolds(s: Sys, q: nat, x: Local)
    requires Shaped(s) && Ready(s, q, x) && (x.pc == FillDat || x.pc == FillIdx)
    ensures Holding(s, q, x)
  {
    hide ChainOf, GoodCall;
  }

  lemma NextMoves(s: Sys, q: nat, end: nat)
    requires Inv(s) && q in s.procs && Next(s, q, end).Some?
    ensures Shaped(Next(s, q, end).value) && ChainMoves(s, q, Next(s, q, end).value)
  {
    hide Inv, ListsHold, Ready, LockStep, WalkStep, DecideStep, DeleteStep, InsertStep, ChainMoves, At, Holding;
    InCall(s, q);
    var x, s' := s.procs[q], Next(s, q, end).value;
    if LockPc(x.pc) {
      LockMoves(s, q);
      SameFilesMove(s, q, s');
    } else if WalkPc(x.pc) {
      WalkMoves(s, q);
      SameFilesMove(s, q, s');
    } else if DecidePc(x.pc) {
      DecideMoves(s, q);
    } else if x.pc == DelIdx {
      DeleterAt(s, q, x);
      CutMoves(s, q);
    } else if DeletePc(x.pc) {
      DeleteMoves(s, q);
    } else {
      if x.pc == FillDat || x.pc == FillIdx { FillerHolds(s, q, x); }
      InsertMoves(s, q, end);
    }
  }

  // ---------- what a step does to its call ----------

  /** The call goes on from where it was, no further along its chain. */
  predicate GoesFurther(x: Local, y: Local) {
    var holds :=
      && y.op == x.op && (Past(y) ==> Past(x) && x.pc != LinkHead) && (Matched(y) ==> Matched(x));
    holds
  }

  predicate CallGoesFurther(s: Sys, q: nat, s': Sys)
    requires q in s.procs
  {
    q in s'.procs ==> GoesFurther(s.procs[q], s'.procs[q])
  }

  lemma LockGoesFurther(s: Sys, q: nat)
    requires Shaped(s) && q in s.procs && LockStep(s, q).Some?
    requires LockPc(s.procs[q].pc)
    ensures CallGoesFurther(s, q, LockStep(s, q).value)
  {
    hide LockStep;
    LockedShape(s, q);
  }

  lemma FreeWalkGoesFurther(s: Sys, q: nat)
    requires Shaped(s) && q in s.procs && WalkStep(s, q).Some? && s.procs[q].pc != ReadHead && s.procs[q].pc != Walking
    ensures CallGoesFurther(s, q, WalkStep(s, q).value)
  {
    hide ChainOf;
    match s.procs[q].pc { case FreeHead => case FreeWalk => case _ => }
  }

  lemma DecideGoesFurther(s: Sys, q: nat)
    requires Shaped(s) && q in s.procs && DecideStep(s, q).Some?
    requires DecidePc(s.procs[q].pc)
    ensures CallGoesFurther(s, q, DecideStep(s, q).value)
  {
    hide ChainOf, DecideStep;
    DecidedShape(s, q);
  }

  lemma DeleteGoesFurther(s: Sys, q: nat)
    requires Shaped(s) && q in s.procs && DeleteStep(s, q).Some?
    ensures CallGoesFurther(s, q, DeleteStep(s, q).value)
  {
    hide ChainOf, After;
    match s.procs[q].pc { case DelData => case DelRead => case DelIdx => case DelFree => case DelLink => case _ => }
  }

  lemma InsertGoesFurther(s: Sys, q: nat, end: nat)
    requires Shaped(s) && q in s.procs && InsertStep(s, q, end).Some?
    ensures CallGoesFurther(s, q, InsertStep(s, q, end).value)
  {
    hide ChainOf, InsertStep;
    InsertedShape(s, q, end);
    InsertsIn(s, q, end);
  }

  lemma FailGoesFurther(s: Sys, q: nat)
    requires Shaped(s) && q in s.procs && Failed(s, q).Some?
    ensures CallGoesFurther(s, q, Failed(s, q).value)
  {
    match s.procs[q].pc { case IdxLock => case LinkHead => case _ => }
  }

  lemma NextGoesFurther(s: Sys, q: nat, end: nat)
    requires Shaped(s) && q in s.procs && Next(s, q, end).Some? && s.procs[q].pc != ReadHead && s.procs[q].pc != Walking
    ensures CallGoesFurther(s, q, Next(s, q, end).value)
  {
    hide LockStep, WalkStep, DecideStep, DeleteStep, InsertStep, CallGoesFurther;
    var pc := s.procs[q].pc;
    if LockPc(pc) { LockGoesFurther(s, q); }
    else if WalkPc(pc) { FreeWalkGoesFurther(s, q); }
    else if DecidePc(pc) { DecideGoesFurther(s, q); }
    else if DeletePc(pc) { DeleteGoesFurther(s, q); }
    else { InsertGoesFurther(s, q, end); }
  }

  /** A chain whose head pointer is null has no record. */
  lemma EmptyChain(s: Sys, l: nat)
    requires ListsHold(s) && Shaped(s) && l <= NHASH && !Bent(s, l) && s.heads[l] == 0
    ensures s.lists[l] == []
  {
    hide ListsHold, Bent;
    ReadyAtHead(s, l);
    ListNodes(s, l);
  }

  lemma HeadClean(s: Sys, q: nat)
    requires Inv(s) && q in s.procs && s.procs[q].pc == ReadHead && Shaped(s) && CallClean(s, s.procs[q])
    requires WalkStep(s, q).Some?
    ensures var s' := WalkStep(s, q).value; Shaped(s') && (q in s'.procs ==> CallClean(s', s'.procs[q]))
  {
    hide Inv, ListsHold, Ready, Bent, ChainOf;
    InCall(s, q);
    var c := Chain(s.procs[q]);
    if s.heads[c] == 0 { EmptyChain(s, c); }
  }

  lemma WalkerAt(s: Sys, q: nat, x: Local)
    requires Shaped(s) && Ready(s, q, x) && x.pc == Walking
    ensures At(s, x, Chain(x)) && !x.gone
  {
    hide ChainOf, GoodCall;
  }

  /** Reading the first record of a chain without ending the process shows that the chain is clean. */
  lemma FirstClean(s: Sys, l: nat)
    requires Shaped(s) && l <= NHASH && CleanFrom(s, l, 1) && |s.lists[l]| > 0 && s.lists[l][0] in s.recs
    requires SEP !in s.recs[s.lists[l][0]].key
    ensures CleanFrom(s, l, 0)
  {
  }

  lemma WalkedClean(s: Sys, q: nat)
    requires Inv(s) && q in s.procs && s.procs[q].pc == Walking && Shaped(s) && CallClean(s, s.procs[q])
    requires CleanFrom(s, Chain(s.procs[q]), 1) && WalkStep(s, q).Some?
    ensures var s' := WalkStep(s, q).value; Shaped(s') && (q in s'.procs ==> CallClean(s', s'.procs[q]))
  {
    hide Inv, ListsHold, Ready, ChainOf, CleanFrom;
    InCall(s, q);
    var x := s.procs[q];
    WalkerAt(s, q, x);
    WalkMoves(s, q);
    var s' := WalkStep(s, q).value;
    var c := Chain(x);
    if SEP !in s.recs[x.cur].key {
      if x.k == 0 { FirstClean(s, c); }
      SameFilesClean(s, s', c, 0);
    }
  }

  lemma SameFilesClean(s: Sys, s': Sys, l: nat, n: nat)
    requires Shaped(s) && Shaped(s') && l <= NHASH && s'.lists == s.lists && s'.recs == s.recs
    ensures CleanFrom(s', l, n) == CleanFrom(s, l, n)
  {
  }

  /** After a step its own call is clean. */
  lemma OwnCallClean(s: Sys, q: nat, end: nat)
    requires Inv(s) && SeparatorsHeld(s) && q in s.procs && Next(s, q, end).Some?
    ensures var s' := Next(s, q, end).value; Shaped(s') && (q in s'.procs ==> CallClean(s', s'.procs[q]))
  {
    hide Inv, Next, LockStep, WalkStep, DecideStep, DeleteStep, InsertStep, ChainMoves, ChainOf, CleanFrom, Past, Matched;
    var x, s' := s.procs[q], Next(s, q, end).value;
    NextMoves(s, q, end);
    MovedClean(s, q, s');
    if x.pc == ReadHead || x.pc == Walking {
      WalkIsNext(s, q, end);
      if x.pc == ReadHead { HeadClean(s, q); } else { WalkedClean(s, q); }
    } else {
      NextGoesFurther(s, q, end);
    }
  }

  lemma WalkIsNext(s: Sys, q: nat, end: nat)
    requires Shaped(s) && q in s.procs && (s.procs[q].pc == ReadHead || s.procs[q].pc == Walking)
    ensures Next(s, q, end) == WalkStep(s, q)
  {
    hide WalkStep, LockStep, DecideStep, DeleteStep, InsertStep;
  }

  // ---------- what a step leaves of other chains ----------

  lemma OtherChain(s: Sys, q: nat, s': Sys, l: nat)
    requires ListsHold(s) && q in s.procs && Frame(s, s', q) && l <= NHASH && !Writes(s.procs[q], l)
    ensures Shaped(s) && Shaped(s') && SameChain(s, s', l)
  {
    hide ListsHold, Frame, Writes;
    FrameList(s, s', q, l);
  }

  lemma WritesItsChain(x: Local, l: nat)
    requires FREE < l <= NHASH && Writes(x, l)
    ensures l == Chain(x)
  {
    hide Bucket;
  }

  lemma HoldsItsChain(x: Local)
    requires Past(x)
    ensures Writes(x, Chain(x)) || Reads(x, Chain(x))
  {
    hide ChainOf;
  }

  /** A step that treats its own chain and call well keeps the separators where they are. */
  lemma SeparatorsKept(s: Sys, q: nat, s': Sys)
    requires Inv(s) && SeparatorsHeld(s) && q in s.procs && GoodStep(s, s', q) && Shaped(s')
    requires CleanFrom(s', Chain(s.procs[q]), 1) && (q in s'.procs ==> CallClean(s', s'.procs[q]))
    ensures SeparatorsHeld(s')
  {
    hide Inv, ListsHold, LocksHold, Agreement, History, Ready, Frame, Writes, Reads, CleanFrom, SameChain, ChainOf, Past;
    InCall(s, q);
    LocksOf(s);
    forall l | FREE < l <= NHASH ensures CleanFrom(s', l, 1) {
      if Writes(s.procs[q], l) {
        WritesItsChain(s.procs[q], l);
      } else {
        OtherChain(s, q, s', l);
        SameClean(s, s', l, 1);
      }
    }
    forall p | p in s'.procs ensures CallClean(s', s'.procs[p]) {
      if p != q { OtherCallClean(s, q, s', p); }
    }
  }

  lemma OtherCallClean(s: Sys, q: nat, s': Sys, p: nat)
    requires ListsHold(s) && LocksHold(s) && Shaped(s) && Shaped(s') && q in s.procs && Frame(s, s', q)
    requires p in s'.procs && p != q && (p in s.procs ==> CallClean(s, s.procs[p]))
    ensures CallClean(s', s'.procs[p])
  {
    hide ListsHold, LocksHold, Writes, Reads, CleanFrom, SameChain, ChainOf, Past;
    var x := s.procs[p];
    if Past(x) {
      HoldsItsChain(x);
      LocksApart(s, p, q, Chain(x));
      OtherChain(s, q, s', Chain(x));
      SameClean(s, s', Chain(x), 0);
    }
  }

  lemma FailClean(s: Sys, q: nat)
    requires SeparatorsHeld(s) && q in s.procs && Failed(s, q).Some?
    ensures var s' := Failed(s, q).value;
      Shaped(s') && CleanFrom(s', Chain(s.procs[q]), 1) && (q in s'.procs ==> CallClean(s', s'.procs[q]))
  {
    hide Failed, ChainOf, CleanFrom, Past, Matched;
    FailMoves(s, q);
    FailGoesFurther(s, q);
    SameFilesClean(s, Failed(s, q).value, Chain(s.procs[q]), 1);
    SameFilesClean(s, Failed(s, q).value, Chain(s.procs[q]), 0);
  }

  lemma BeginClean(s: Sys, p: nat, op: Call)
    requires SeparatorsHeld(s) && p !in s.procs
    ensures SeparatorsHeld(Begin(s, p, op))
  {
    hide ChainOf, CleanFrom;
    var s' := Begin(s, p, op);
    forall l, n: nat | 0 <= l <= NHASH ensures CleanFrom(s', l, n) == CleanFrom(s, l, n) {
      SameFilesClean(s, s', l, n);
    }
    forall q | q in s'.procs ensures CallClean(s', s'.procs[q]) {
      if q != p { assert CallClean(s, s.procs[q]); }
    }
  }

  lemma MoveKeepsSeparators(s: Sys, m: Move, s': Sys)
    requires Inv(s) && SeparatorsHeld(s) && Moves(s, m, s')
    ensures SeparatorsHeld(s')
  {
    hide Inv, SeparatorsHeld, GoodStep, Next, Begin, Startable, Failed, CleanFrom, CallClean, ChainOf;
    MoveKeeps(s, m, s');
    match m
    case Start(p, op) => BeginClean(s, p, op);
    case Step(q, end) =>
      OwnCallClean(s, q, end);
      OwnChainClean(s, q, end);
      SeparatorsKept(s, q, s');
    case Fail(q) =>
      FailClean(s, q);
      SeparatorsKept(s, q, s');
  }

  lemma OwnChainClean(s: Sys, q: nat, end: nat)
    requires Inv(s) && SeparatorsHeld(s) && q in s.procs && Next(s, q, end).Some?
    ensures var s' := Next(s, q, end).value; Shaped(s') && CleanFrom(s', Chain(s.procs[q]), 1)
  {
    hide Inv, Next, ChainMoves, ChainOf, CleanFrom, CallClean;
    NextMoves(s, q, end);
    MovedClean(s, q, Next(s, q, end).value);
  }

  /** In every state of every run, a key with a separator is first on its chain, and no call is past it. */
  lemma {:induction false} SeparatorsKeep(states: seq<Sys>, moves: seq<Move>, i: nat)
    requires IsRun(states, moves) && i < |states|
    ensures SeparatorsHeld(states[i])
  {
    hide Inv, Moves, SeparatorsHeld;
    if i == 0 {
      NothingStored();
    } else {
      SeparatorsKeep(states, moves, i - 1);
      RunKeeps(states, moves, i - 1);
      assert Moves(states[i - 1], moves[i - 1], states[i]);
      MoveKeepsSeparators(states[i - 1], moves[i - 1], states[i]);
    }
  }

  lemma NothingStored()
    ensures SeparatorsHeld(Initial())
  {
  }

  // ---------- calls that end their process ----------

  lemma TornKeyClean(s: Sys, key: string)
    requires SeparatorsHeld(s) && SEP in key
    ensures !Torn(s, key)
  {
    hide ChainOf, CleanFrom;
    var k := s.locks[ChainOf(key)];
    if k.Exclusive? && k.owner in s.procs { assert CallClean(s, s.procs[k.owner]); }
  }

  /** A key of the table with a separator is the first on its chain. */
  lemma SeparatorInFront(s: Sys, k: string)
    requires Inv(s) && Shaped(s) && SeparatorsHeld(s) && k in s.abs && SEP in k
    ensures ChainOf(k) <= NHASH && s.lists[ChainOf(k)] != []
    ensures var r := s.lists[ChainOf(k)][0]; r in s.recs && s.recs[r].key == k
  {
    hide ListsHold, LocksHold, History, Ready, ChainOf, Torn;
    TornKeyClean(s, k);
    assert Agrees(s, k);
    KeyInList(s, k);
    var l := ChainOf(k);
    var j :| 0 <= j < |s.lists[l]| && s.lists[l][j] == s.loc[k];
    assert CleanFrom(s, l, 1);
  }

  /** A call that got past the first record of its chain is not barred. */
  lemma PastIsOpen(s: Sys, p: nat)
    requires Inv(s) && Shaped(s) && SeparatorsHeld(s) && p in s.procs && Past(s.procs[p])
    ensures !Closed(s.abs, Key(s.procs[p]))
  {
    hide Inv, Past, ChainOf;
    var x := s.procs[p];
    assert CallClean(s, x);
    if Closed(s.abs, Key(x)) {
      var k :| k in s.abs && SEP in k && ChainOf(k) == ChainOf(Key(x));
      SeparatorInFront(s, k);
      assert false;
    }
  }

  lemma WalkerAgrees(s: Sys, p: nat, x: Local)
    requires Inv(s) && Shaped(s) && SeparatorsHeld(s) && p in s.procs && x == s.procs[p] && x.pc == Walking
    requires x.cur in s.recs && SEP in s.recs[x.cur].key
    ensures s.recs[x.cur].key in s.abs && ChainOf(s.recs[x.cur].key) == Chain(x)
  {
    hide ListsHold, LocksHold, History, Ready, ChainOf, Torn;
    InCall(s, p);
    WalkerAt(s, p, x);
    ChainRecord(s, Chain(x), x.k);
    var k := s.recs[x.cur].key;
    OtherKey(s, k, x.cur);
    assert ListPlaced(s, Chain(x)) by { PlacedAt(s, Chain(x)); }
    TornKeyClean(s, k);
    assert Agrees(s, k);
  }

  /** Reading a record of its chain ends the process of a call if and only if the table has a key with a
      separator on that chain; the call has had no effect then, and it ends at the first record. */
  lemma EndsIffBarred(s: Sys, p: nat, end: nat)
    requires Inv(s) && Shaped(s) && SeparatorsHeld(s) && p in s.procs && s.procs[p].pc == Walking
    ensures var x := s.procs[p];
      && x.cur in s.recs
      && (Next(s, p, end) == Option.Some(Put(s, p, x.(pc := Ending))) <==> Closed(s.abs, Key(x)))
      && (Closed(s.abs, Key(x)) ==> x.k == 0)
  {
    hide Inv, ListsHold, Ready, ChainOf, SeparatorsHeld, Closed, Next, Put;
    var x := s.procs[p];
    InCall(s, p);
    WalkerAt(s, p, x);
    if x.k > 0 { PastIsOpen(s, p); }
    EndsAtSeparator(s, p, end);
    if SEP in s.recs[x.cur].key {
      WalkerAgrees(s, p, x);
      WitnessCloses(s.abs, s.recs[x.cur].key, Key(x));
    } else if x.k == 0 {
      FirstIsOpen(s, p, x);
    }
  }

  lemma EndsAtSeparator(s: Sys, p: nat, end: nat)
    requires Shaped(s) && p in s.procs && s.procs[p].pc == Walking && s.procs[p].cur in s.recs
    ensures Next(s, p, end) == Option.Some(Put(s, p, s.procs[p].(pc := Ending))) <==> SEP in s.recs[s.procs[p].cur].key
  {
    hide ChainOf, LockStep, DecideStep, DeleteStep, InsertStep;
    WalkIsNext(s, p, end);
    if SEP !in s.recs[s.procs[p].cur].key {
      assert WalkStep(s, p).value.procs[p].pc != Ending;
      assert Put(s, p, s.procs[p].(pc := Ending)).procs[p].pc == Ending;
    }
  }

  lemma WitnessCloses(m: map<string, string>, k: string, key: string)
    requires k in m && SEP in k && ChainOf(k) == ChainOf(key)
    ensures Closed(m, key)
  {
    hide ChainOf;
  }

  lemma FirstIsOpen(s: Sys, p: nat, x: Local)
    requires Inv(s) && Shaped(s) && SeparatorsHeld(s) && p in s.procs && At(s, x, Chain(x)) && x.k == 0
    requires SEP !in s.recs[x.cur].key
    ensures !Closed(s.abs, Key(x))
  {
    hide Inv, SeparatorsHeld, ChainOf;
    if Closed(s.abs, Key(x)) {
      var k :| k in s.abs && SEP in k && ChainOf(k) == ChainOf(Key(x));
      SeparatorInFront(s, k);
      assert false;
    }
  }

  /** A call that is barred is about to read the first record of its chain, or its process is ending. */
  lemma BarredCallEnds(s: Sys, p: nat)
    requires Inv(s) && Shaped(s) && SeparatorsHeld(s) && p in s.procs && Closed(s.abs, Key(s.procs[p]))
    ensures var x := s.procs[p]; x.pc == Locking || x.pc == ReadHead || (x.pc == Walking && x.k == 0) || Leaves(x.pc)
    ensures var x := s.procs[p];
      x.pc == ReadHead ==> s.heads[Chain(x)] != 0
  {
    hide Inv, SeparatorsHeld, ChainOf, Closed;
    var x := s.procs[p];
    if Past(x) { PastIsOpen(s, p); }
    if x.pc == ReadHead && s.heads[Chain(x)] == 0 { NullHeadIsOpen(s, p, x); }
  }

  lemma NullHeadIsOpen(s: Sys, p: nat, x: Local)
    requires Inv(s) && Shaped(s) && SeparatorsHeld(s) && p in s.procs && x == s.procs[p] && x.pc == ReadHead
    requires s.heads[Chain(x)] == 0
    ensures !Closed(s.abs, Key(x))
  {
    hide Inv, SeparatorsHeld, ChainOf, Bent, ListsHold, Ready;
    InCall(s, p);
    EmptyChain(s, Chain(x));
    if Closed(s.abs, Key(x)) {
      var k :| k in s.abs && SEP in k && ChainOf(k) == ChainOf(Key(x));
      SeparatorInFront(s, k);
      assert false;
    }
  }

  // ---------- the log ----------

  /** The step logs nothing, or one event for a key of the chain it is past the front of. */
  predicate LogsOwn(s: Sys, q: nat, s': Sys)
    requires q in s.procs
  {
    var holds :=
      || s'.log == s.log
      || (Past(s.procs[q]) && |s'.log| == |s.log| + 1 && s'.log[..|s.log|] == s.log
          && s'.log[|s.log|].op.key == Key(s.procs[q]));
    holds
  }

  lemma DecideLogs(s: Sys, q: nat)
    requires Shaped(s) && q in s.procs && DecideStep(s, q).Some?
    requires DecidePc(s.procs[q].pc)
    ensures LogsOwn(s, q, DecideStep(s, q).value)
  {
    hide ChainOf, DecideStep;
    DecidedShape(s, q);
  }

  lemma DeleteLogs(s: Sys, q: nat)
    requires Shaped(s) && q in s.procs && DeleteStep(s, q).Some?
    ensures LogsOwn(s, q, DeleteStep(s, q).value)
  {
    hide ChainOf, After;
    match s.procs[q].pc { case DelData => case DelRead => case DelIdx => case DelFree => case DelLink => case _ => }
  }

  lemma InsertLogs(s: Sys, q: nat, end: nat)
    requires Shaped(s) && q in s.procs && InsertStep(s, q, end).Some?
    ensures LogsOwn(s, q, InsertStep(s, q, end).value)
  {
    hide ChainOf, InsertStep;
    InsertedShape(s, q, end);
    InsertsIn(s, q, end);
  }

  lemma FailLogs(s: Sys, q: nat)
    requires Shaped(s) && q in s.procs && Failed(s, q).Some?
    ensures LogsOwn(s, q, Failed(s, q).value)
  {
    match s.procs[q].pc { case IdxLock => case LinkHead => case _ => }
  }

  lemma NextLogs(s: Sys, q: nat, end: nat)
    requires Shaped(s) && q in s.procs && Next(s, q, end).Some?
    ensures LogsOwn(s, q, Next(s, q, end).value)
  {
    hide LockStep, WalkStep, DecideStep, DeleteStep, InsertStep, Past;
    var pc := s.procs[q].pc;
    if LockPc(pc) { LockMoves(s, q); }
    else if WalkPc(pc) { WalkMoves(s, q); }
    else if DecidePc(pc) { DecideLogs(s, q); }
    else if DeletePc(pc) { DeleteLogs(s, q); }
    else { InsertLogs(s, q, end); }
  }

  lemma MoveLogs(s: Sys, m: Move, s': Sys)
    requires Moves(s, m, s')
    ensures m.Start? ==> s'.log == s.log
    ensures !m.Start? ==> m.p in s.procs && LogsOwn(s, m.p, s')
  {
    hide Next, Failed, LogsOwn, Startable;
    match m
    case Start(p, op) =>
    case Step(p, end) => NextLogs(s, p, end);
    case Fail(p) => FailLogs(s, p);
  }

  /** One more event, for a key whose chain has no separator in the table. */
  lemma OpenGrows(s: Sys, s': Sys, key: string)
    requires s.abs == AfterAll(map[], Calls(s.log)) && OpenUpTo(Calls(s.log), |s.log|) && !Closed(s.abs, key)
    requires |s'.log| == |s.log| + 1 && s'.log[..|s.log|] == s.log && s'.log[|s.log|].op.key == key
    ensures OpenUpTo(Calls(s'.log), |s'.log|)
  {
    hide AfterAll, Replies, Closed, OpenUpTo;
    var n, calls := |s.log|, Calls(s'.log);
    assert calls[..n] == Calls(s.log);
    SamePrefixOpen(Calls(s.log), calls, n);
    OneMore(calls, n);
  }

  lemma SamePrefixOpen(calls: seq<Call>, calls': seq<Call>, n: nat)
    requires n <= |calls| && n <= |calls'| && calls[..n] == calls'[..n] && OpenUpTo(calls, n)
    ensures OpenUpTo(calls', n)
  {
    hide AfterAll, Barred;
    forall j | 0 <= j < n ensures !Barred(AfterAll(map[], calls'[..j]), calls'[j]) {
      assert calls'[..j] == calls[..n][..j] == calls[..j] && calls'[j] == calls[..n][j] == calls[j];
    }
  }

  lemma MoveKeepsOpen(s: Sys, m: Move, s': Sys)
    requires Inv(s) && SeparatorsHeld(s) && Moves(s, m, s') && OpenUpTo(Calls(s.log), |s.log|)
    ensures OpenUpTo(Calls(s'.log), |s'.log|)
  {
    hide Inv, SeparatorsHeld, Moves, OpenUpTo, Past, Closed;
    TableOfLog(s);
    MoveLogs(s, m, s');
    if s'.log != s.log {
      PastIsOpen(s, m.p);
      OpenGrows(s, s', Key(s.procs[m.p]));
    }
  }

  lemma TableOfLog(s: Sys)
    requires Inv(s)
    ensures Shaped(s) && s.abs == AfterAll(map[], Calls(s.log))
  {
    hide ListsHold, LocksHold, Agreement, Ready, AfterAll, Replies;
  }

  /** Of the calls that took effect in a run, none was barred by a key with a separator in the table it
      met: those that were ended their processes without an effect. */
  lemma {:induction false} EffectsAreOpen(states: seq<Sys>, moves: seq<Move>, i: nat)
    requires IsRun(states, moves) && i < |states|
    ensures OpenUpTo(Calls(states[i].log), |states[i].log|)
  {
    hide Inv, Moves, SeparatorsHeld, OpenUpTo;
    if i == 0 {
      NoneYet(Calls(states[0].log));
    } else {
      EffectsAreOpen(states, moves, i - 1);
      SeparatorsKeep(states, moves, i - 1);
      RunKeeps(states, moves, i - 1);
      assert Moves(states[i - 1], moves[i - 1], states[i]);
      MoveKeepsOpen(states[i - 1], moves[i - 1], states[i]);
    }
  }
}
