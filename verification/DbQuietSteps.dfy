/** Steps that write neither file: reading, deciding, locking and unlocking. */
module DbQuietSteps {
  import opened Options
  import opened DbFormat
  import opened DbLists
  import opened Database
  import opened DbRuns
  import opened DbProcesses
  import opened DbProtocol

  /** The process holds the same locks before and after. */
  predicate SameRights(x: Local, y: Local) {
    var holds :=
      y.op == x.op
      && ((x.pc == Locking) <==> (y.pc == Locking))
      && (HoldsFreeList(x.pc) <==> HoldsFreeList(y.pc))
      && ((x.pc == DatWrite || x.pc == DatUnlock) <==> (y.pc == DatWrite || y.pc == DatUnlock))
      && ((x.pc == IdxWrite || x.pc == IdxUnlock) <==> (y.pc == IdxWrite || y.pc == IdxUnlock));
    holds
  }

  lemma LocksSame(s: Sys, s': Sys, q: nat)
    requires LocksHold(s) && q in s.procs && q in s'.procs && Shaped(s')
    requires s'.locks == s.locks && s'.procs == s.procs[q := s'.procs[q]]
    requires SameRights(s.procs[q], s'.procs[q])
    ensures LocksHold(s')
  {
    forall l | 0 <= l < LOCKS ensures LockHeld(s', l) {
      assert LockHeld(s, l);
    }
  }

  /** Process `q` takes or gives up lock `l`, outside any change it is making to a record. */
  predicate LockMoved(s: Sys, s': Sys, q: nat, l: nat)
    requires q in s.procs && l < |s.locks| && l < |s'.locks|
  {
    && (s.locks[l].Exclusive? ==> s.locks[l].owner == q)
    && (s'.locks[l].Exclusive? ==> s'.locks[l].owner == q)
    && (FREE < l <= NHASH ==> !s.procs[q].gone)
  }

  /** Only locks and the registers of `q` change; `q` may also end its call. */
  ghost predicate Quiet(s: Sys, s': Sys, q: nat)
    requires q in s.procs
  {
    var holds :=
      && Shaped(s) && s' == s.(locks := s'.locks, procs := s'.procs) && |s'.locks| == LOCKS
      && (forall p :: p != q ==> (p in s'.procs <==> p in s.procs))
      && (forall p :: p in s.procs && p != q ==> s'.procs[p] == s.procs[p])
      && (q in s'.procs ==>
            && s'.procs[q].op == s.procs[q].op && s'.procs[q].gone == s.procs[q].gone && !Tearing(s'.procs[q].pc))
      && !Tearing(s.procs[q].pc) && (q !in s'.procs ==> !s.procs[q].gone)
      && (forall r :: r != 0 && InHand(s.procs[q], r) ==> q in s'.procs && InHand(s'.procs[q], r))
      && (forall l :: 0 <= l < LOCKS ==> s'.locks[l] == s.locks[l] || LockMoved(s, s', q, l));
    holds
  }

  lemma QuietBent(s: Sys, s': Sys, q: nat, l: nat)
    requires Shaped(s) && q in s.procs && Quiet(s, s', q) && l < LOCKS
    ensures Bent(s', l) == Bent(s, l)
    ensures Bent(s, l) ==>
      && s'.locks[l] == s.locks[l] && s.locks[l].owner in s'.procs
      && s'.procs[s.locks[l].owner] == s.procs[s.locks[l].owner]
  {
    assert s'.locks[l] == s.locks[l] || LockMoved(s, s', q, l);
  }

  lemma QuietList(s: Sys, s': Sys, q: nat, l: nat)
    requires Shaped(s) && q in s.procs && Quiet(s, s', q) && l <= NHASH && ListPlaced(s, l) && ListLinked(s, l)
    ensures ListPlaced(s', l) && ListLinked(s', l)
  {
    QuietBent(s, s', q, l);
    hide Bent;
    forall k | 0 <= k <= |s.lists[l]| ensures LinkValue(s', l, k) == LinkValue(s, l, k) {
    }
  }

  lemma QuietRecord(s: Sys, s': Sys, q: nat, r: nat)
    requires Shaped(s) && q in s.procs && Quiet(s, s', q) && r in s.recs && RecordHeld(s, r)
    ensures RecordHeld(s', r)
  {
    hide Blank, ChainOf;
  }

  lemma QuietLists(s: Sys, s': Sys, q: nat)
    requires ListsHold(s) && q in s.procs && Quiet(s, s', q)
    ensures ListsHold(s')
  {
    hide Quiet, ListPlaced, ListLinked, RecordHeld, KeyHeld;
    QuietFiles(s, s', q);
    forall l | 0 <= l <= NHASH ensures ListPlaced(s', l) && ListLinked(s', l) {
      QuietList(s, s', q, l);
    }
    forall r | r in s.recs ensures RecordHeld(s', r) {
      QuietRecord(s, s', q, r);
    }
    forall key | key in s.loc ensures KeyHeld(s', key) {
      assert KeyHeld(s, key);
      QuietKey(s, s', q, key);
    }
  }

  lemma QuietFiles(s: Sys, s': Sys, q: nat)
    requires q in s.procs && Quiet(s, s', q)
    ensures s'.heads == s.heads && s'.recs == s.recs && s'.lists == s.lists && Shaped(s')
    ensures s'.place == s.place && s'.loc == s.loc && s'.log == s.log && s'.abs == s.abs
  {
  }

  lemma QuietKey(s: Sys, s': Sys, q: nat, key: string)
    requires q in s.procs && Quiet(s, s', q) && key in s.loc && KeyHeld(s, key)
    ensures key in s'.loc && KeyHeld(s', key)
  {
  }

  lemma QuietAgreement(s: Sys, s': Sys, q: nat)
    requires Agreement(s) && q in s.procs && Quiet(s, s', q)
    ensures Agreement(s')
  {
    hide Quiet, Torn;
    QuietFiles(s, s', q);
    forall key | !Torn(s', key) ensures Agrees(s', key) {
      QuietTorn(s, s', q, key);
      assert Agrees(s, key);
    }
  }

  lemma QuietTorn(s: Sys, s': Sys, q: nat, key: string)
    requires Shaped(s) && Shaped(s') && q in s.procs && Quiet(s, s', q)
    ensures Torn(s', key) == Torn(s, key)
  {
    hide Bucket;
    var l := ChainOf(key);
    assert s'.locks[l] == s.locks[l] || LockMoved(s, s', q, l);
  }

  lemma QuietFrame(s: Sys, s': Sys, q: nat)
    requires ListsHold(s) && q in s.procs && Quiet(s, s', q)
    ensures Frame(s, s', q)
  {
    hide Writes, ChainOf;
  }

  /** A quiet step keeps everything but the locks and what its own process relies on. */
  lemma QuietKeeps(s: Sys, s': Sys, q: nat)
    requires Inv(s) && q in s.procs && Quiet(s, s', q)
    ensures Frame(s, s', q) && ListsHold(s') && Agreement(s') && History(s')
  {
    hide Ready, LocksHold, Agreement, Frame, ListsHold, Quiet;
    QuietFiles(s, s', q);
    QuietLists(s, s', q);
    QuietAgreement(s, s', q);
    QuietFrame(s, s', q);
  }

  // ---------- taking and giving up locks ----------

  predicate OneLockMore(x: Local, y: Local, l: nat) {
    && Writes(x, l) == Reads(x, l) == false
    && forall m :: 0 <= m < LOCKS && m != l ==> Writes(y, m) == Writes(x, m) && Reads(y, m) == Reads(x, m)
  }

  lemma TakeKeepsLocks(s: Sys, q: nat, l: nat, write: bool, y: Local)
    requires LocksHold(s) && q in s.procs && l < LOCKS && CanTake(s.locks[l], write)
    requires OneLockMore(s.procs[q], y, l) && Writes(y, l) == write && Reads(y, l) == !write
    ensures LocksHold(TakeLock(s, q, l, write, y).value)
  {
    hide Writes, Reads;
    var s' := TakeLock(s, q, l, write, y).value;
    forall m | 0 <= m < LOCKS ensures LockHeld(s', m) {
      assert LockHeld(s, m);
    }
  }

  lemma DropKeepsLocks(s: Sys, q: nat, l: nat, y: Local)
    requires LocksHold(s) && q in s.procs && l < LOCKS
    requires OneLockMore(y, s.procs[q], l) && (Writes(s.procs[q], l) || Reads(s.procs[q], l))
    ensures LocksHold(DropLock(s, q, l, y))
  {
    hide Writes, Reads;
    var s' := DropLock(s, q, l, y);
    forall m | 0 <= m < LOCKS ensures LockHeld(s', m) {
      assert LockHeld(s, m);
    }
  }

  lemma LastLock(x: Local)
    requires Leaves(x.pc)
    ensures forall m :: 0 <= m < LOCKS ==> ((Writes(x, m) || Reads(x, m)) <==> m == Chain(x))
  {
    hide ChainOf;
  }

  lemma LeaveKeepsLocks(s: Sys, q: nat)
    requires LocksHold(s) && q in s.procs && Leaves(s.procs[q].pc)
    ensures LocksHold(LockStep(s, q).value)
  {
    hide ChainOf, Writes, Reads;
    LastLock(s.procs[q]);
    var s' := LockStep(s, q).value;
    forall m | 0 <= m < LOCKS ensures LockHeld(s', m) {
      assert LockHeld(s, m);
    }
  }

  // ---------- the steps ----------

  lemma ReadyAtHead(s: Sys, l: nat)
    requires ListsHold(s) && l <= NHASH && !Bent(s, l)
    ensures s.heads[l] == Node(s.lists[l], 0)
  {
    assert ListLinked(s, l) && LinkValue(s, l, 0) == s.heads[l];
  }

  lemma NextNode(s: Sys, l: nat, k: nat)
    requires ListsHold(s) && l <= NHASH && !Bent(s, l) && k < |s.lists[l]|
    ensures s.lists[l][k] in s.recs && s.lists[l][k] != 0
    ensures s.recs[s.lists[l][k]].next == Node(s.lists[l], k + 1)
    ensures s.lists[l][k] in s.place && s.place[s.lists[l][k]] == On(l)
  {
    assert ListPlaced(s, l) && ListLinked(s, l) && LinkValue(s, l, k + 1) == s.recs[s.lists[l][k]].next;
  }

  lemma NotBent(s: Sys, p: nat, l: nat)
    requires LocksHold(s) && p in s.procs && l <= NHASH && (Writes(s.procs[p], l) || Reads(s.procs[p], l))
    requires !Tearing(s.procs[p].pc)
    ensures !Bent(s, l)
  {
    assert LockHeld(s, l);
  }

  /** A key of its chain that no record of the list has is not in the table of records. */
  lemma NoneOnChain(s: Sys, key: string)
    requires ListsHold(s) && NoneBefore(s, ChainOf(key), |s.lists[ChainOf(key)]|, key)
    ensures key !in s.loc
  {
    if key in s.loc {
      KeyInList(s, key);
    }
  }

  lemma KeyInList(s: Sys, key: string)
    requires ListsHold(s) && key in s.loc
    ensures s.loc[key] in s.lists[ChainOf(key)] && s.loc[key] in s.recs && s.recs[s.loc[key]].key == key
  {
    assert KeyHeld(s, key) && RecordHeld(s, s.loc[key]);
  }

  lemma ChainRecord(s: Sys, l: nat, k: nat)
    requires ListsHold(s) && FREE < l <= NHASH && k < |s.lists[l]|
    ensures var r := s.lists[l][k]; r in s.recs && s.recs[r].key in s.loc && s.loc[s.recs[r].key] == r
  {
    assert ListPlaced(s, l) && RecordHeld(s, s.lists[l][k]);
  }

  lemma NextBefore(s: Sys, l: nat, k: nat, key: string)
    requires ListsHold(s) && l <= NHASH && NoneBefore(s, l, k, key)
    requires k < |s.lists[l]| && s.lists[l][k] in s.recs && s.recs[s.lists[l][k]].key != key
    ensures NoneBefore(s, l, k + 1, key)
  {
  }

  /** A move of the program counter that touches no lock and no record in hand. */
  predicate Plain(x: Local, y: Local) {
    var holds :=
      && SameRights(x, y) && y.gone == x.gone && !Tearing(x.pc) && !Tearing(y.pc)
      && x.pc != FreeUnlock && x.pc != FillDat && x.pc != FillIdx && x.pc != IdxUnlock && x.pc != LinkHead;
    holds
  }

  predicate PlainStep(s: Sys, o: Option<Sys>, q: nat)
    requires Shaped(s) && q in s.procs
  {
    var holds :=
      && o.Some? && q in o.value.procs
      && var y := o.value.procs[q];
         o.value == Put(s, q, y) && Plain(s.procs[q], y) && Ready(s, q, y);
    holds
  }

  /** What a process relies on does not depend on other processes' registers, nor on the locks. */
  lemma ReadyPut(s: Sys, q: nat, y: Local)
    requires Shaped(s)
    ensures Ready(Put(s, q, y), q, y) == Ready(s, q, y)
  {
    hide GoodCall, ChainOf, Blank;
  }

  lemma PlainIsQuiet(s: Sys, o: Option<Sys>, q: nat)
    requires Inv(s) && q in s.procs && PlainStep(s, o, q)
    ensures o.Some? && Quiet(s, o.value, q)
  {
    hide Inv, Ready, ListsHold, LocksHold;
    IsReady(s, q);
  }

  lemma PlainKeeps(s: Sys, o: Option<Sys>, q: nat)
    requires Inv(s) && q in s.procs && PlainStep(s, o, q)
    ensures o.Some? && GoodStep(s, o.value, q)
  {
    hide Ready, ListsHold, LocksHold, Agreement, History, Frame, Quiet;
    PlainIsQuiet(s, o, q);
    ReadyPut(s, q, o.value.procs[q]);
    QuietKeeps(s, o.value, q);
    LocksSame(s, o.value, q);
  }

  lemma HeadRead(s: Sys, q: nat, x: Local, y: Local)
    requires ListsHold(s) && Shaped(s) && Ready(s, q, x) && !Bent(s, Chain(x)) && x.pc == ReadHead
    requires y == x.(cur := s.heads[Chain(x)], prev := 0, k := 0,
                     pc := if s.heads[Chain(x)] == 0 then NotFound else Walking)
    ensures Ready(s, q, y)
  {
    hide ListsHold, Bent, ChainOf, GoodCall;
    ReadyAtHead(s, Chain(x));
    ListNodes(s, Chain(x));
    if s.heads[Chain(x)] == 0 { NoneOnChain(s, Key(x)); }
  }

  lemma ReadHeadReady(s: Sys, q: nat)
    requires Inv(s) && q in s.procs && s.procs[q].pc == ReadHead
    ensures PlainStep(s, WalkStep(s, q), q)
  {
    hide Inv, ListsHold, LocksHold, Agreement, History, Bent, ChainOf, GoodCall, Ready;
    InCall(s, q);
    HeadRead(s, q, s.procs[q], WalkStep(s, q).value.procs[q]);
  }

  lemma ListNodes(s: Sys, l: nat)
    requires ListsHold(s) && l <= NHASH
    ensures forall k :: 0 <= k < |s.lists[l]| ==> s.lists[l][k] != 0 && s.lists[l][k] in s.recs
  {
    assert ListPlaced(s, l);
  }

  lemma WalkingOn(s: Sys, q: nat, x: Local)
    requires ListsHold(s) && Shaped(s) && Ready(s, q, x) && x.pc == Walking && !Bent(s, Chain(x))
    requires x.cur in s.recs && s.recs[x.cur].key != Key(x) && SEP !in s.recs[x.cur].key
    ensures Ready(s, q, AfterRecord(x, s.recs[x.cur]))
  {
    hide ListsHold, Bent, ChainOf, GoodCall, KeyHeld, RecordHeld;
    var l := Chain(x);
    NextNode(s, l, x.k);
    ListNodes(s, l);
    NextBefore(s, l, x.k, Key(x));
    if s.recs[x.cur].next == 0 { NoneOnChain(s, Key(x)); }
  }

  lemma WalkingFound(s: Sys, q: nat, x: Local)
    requires ListsHold(s) && Shaped(s) && Ready(s, q, x) && x.pc == Walking
    requires x.cur in s.recs && s.recs[x.cur].key == Key(x)
    ensures Ready(s, q, AfterRecord(x, s.recs[x.cur]))
  {
    hide ListsHold, ChainOf, GoodCall, NoneBefore;
    ChainRecord(s, Chain(x), x.k);
  }

  lemma WalkingEnds(s: Sys, q: nat, x: Local)
    requires Shaped(s) && Ready(s, q, x) && x.pc == Walking && x.cur in s.recs && SEP in s.recs[x.cur].key
    ensures Ready(s, q, AfterRecord(x, s.recs[x.cur]))
  {
    hide ChainOf, GoodCall;
  }

  lemma WalkingIsPlain(x: Local, r: Rec)
    requires x.pc == Walking
    ensures Plain(x, AfterRecord(x, r))
  {
  }

  lemma WalkingIs(s: Sys, q: nat)
    requires Shaped(s) && q in s.procs && s.procs[q].pc == Walking && s.procs[q].cur in s.recs
    ensures WalkStep(s, q) == Option.Some(Put(s, q, AfterRecord(s.procs[q], s.recs[s.procs[q].cur])))
  {
    hide AfterRecord, ChainOf;
  }

  lemma WalkingReady(s: Sys, q: nat)
    requires Inv(s) && q in s.procs && s.procs[q].pc == Walking
    ensures PlainStep(s, WalkStep(s, q), q)
  {
    hide Inv, ListsHold, Bent, ChainOf, Ready, WalkStep, AfterRecord, Plain;
    var x := s.procs[q];
    InCall(s, q);
    WalkingIs(s, q);
    WalkingIsPlain(x, s.recs[x.cur]);
    if SEP in s.recs[x.cur].key { WalkingEnds(s, q, x); }
    else if s.recs[x.cur].key == Key(x) { WalkingFound(s, q, x); }
    else { WalkingOn(s, q, x); }
  }

  lemma IsReady(s: Sys, q: nat)
    requires Inv(s) && q in s.procs
    ensures Shaped(s) && ListsHold(s) && LocksHold(s) && Ready(s, q, s.procs[q])
  {
    hide ListsHold, LocksHold, Agreement, History;
  }

  lemma WalkerIsAtRecord(s: Sys, q: nat, x: Local)
    requires Shaped(s) && Ready(s, q, x) && (x.pc == Walking || x.pc == FreeWalk)
    ensures x.cur in s.recs
  {
    hide ChainOf, GoodCall;
  }

  lemma InserterStores(s: Sys, q: nat, x: Local)
    requires Shaped(s) && Ready(s, q, x) && InsertPc(x.pc)
    ensures x.op.StoreCall?
  {
    hide ChainOf, GoodCall;
  }

  lemma LeaverIsDone(s: Sys, q: nat, x: Local)
    requires Shaped(s) && Ready(s, q, x) && Leaves(x.pc)
    ensures !x.gone
  {
    hide ChainOf, GoodCall;
  }

  /** What a process in the middle of a walk knows. */
  lemma InCall(s: Sys, q: nat)
    requires Inv(s) && q in s.procs
    ensures Shaped(s) && ListsHold(s) && Ready(s, q, s.procs[q])
    ensures s.procs[q].pc == Walking || s.procs[q].pc == FreeWalk ==> s.procs[q].cur in s.recs
    ensures InsertPc(s.procs[q].pc) ==> s.procs[q].op.StoreCall?
    ensures Leaves(s.procs[q].pc) ==> !s.procs[q].gone
    ensures s.procs[q].pc != Locking && !Tearing(s.procs[q].pc) ==> !Bent(s, Chain(s.procs[q]))
  {
    hide Inv, ListsHold, LocksHold, Bent, ChainOf, Ready;
    IsReady(s, q);
    var x := s.procs[q];
    if x.pc == Walking || x.pc == FreeWalk { WalkerIsAtRecord(s, q, x); }
    if InsertPc(x.pc) { InserterStores(s, q, x); }
    if Leaves(x.pc) { LeaverIsDone(s, q, x); }
    if s.procs[q].pc != Locking && !Tearing(s.procs[q].pc) {
      NotBent(s, q, Chain(s.procs[q]));
    }
  }

  lemma FreeHeadRead(s: Sys, q: nat, x: Local, y: Local)
    requires ListsHold(s) && Shaped(s) && Ready(s, q, x) && x.pc == FreeHead
    requires y == x.(cur := s.heads[FREE], prev := 0, k := 0, pc := if s.heads[FREE] == 0 then FreeUnlock else FreeWalk)
    ensures Ready(s, q, y)
  {
    hide ListsHold, ChainOf, GoodCall;
    ReadyAtHead(s, FREE);
    ListNodes(s, FREE);
  }

  lemma FreeHeadReady(s: Sys, q: nat)
    requires Inv(s) && q in s.procs && s.procs[q].pc == FreeHead
    ensures PlainStep(s, WalkStep(s, q), q)
  {
    hide Inv, ListsHold, LocksHold, Agreement, History, Bent, ChainOf, GoodCall, Ready;
    InCall(s, q);
    FreeHeadRead(s, q, s.procs[q], WalkStep(s, q).value.procs[q]);
  }

  lemma FreeWalkOn(s: Sys, q: nat, x: Local, y: Local)
    requires ListsHold(s) && Shaped(s) && Ready(s, q, x) && x.pc == FreeWalk && x.cur in s.recs
    requires
      || y == x.(val := s.recs[x.cur].next, pc := FreeTake)
      || y == x.(prev := x.cur, cur := s.recs[x.cur].next, k := x.k + 1,
                 pc := if s.recs[x.cur].next == 0 then FreeUnlock else FreeWalk)
    ensures Ready(s, q, y)
  {
    hide ListsHold, ChainOf, GoodCall;
    NextNode(s, FREE, x.k);
    ListNodes(s, FREE);
  }

  lemma FreeWalkReady(s: Sys, q: nat)
    requires Inv(s) && q in s.procs && s.procs[q].pc == FreeWalk
    ensures PlainStep(s, WalkStep(s, q), q)
  {
    hide Inv, ListsHold, LocksHold, Agreement, History, Bent, ChainOf, GoodCall, Ready;
    var x := s.procs[q];
    InCall(s, q);
    FreeWalkOn(s, q, x, WalkStep(s, q).value.procs[q]);
  }

  /** Reading along a chain or the free list. */
  lemma WalkKeeps(s: Sys, q: nat)
    requires Inv(s) && q in s.procs && WalkPc(s.procs[q].pc)
    ensures WalkStep(s, q).Some? && GoodStep(s, WalkStep(s, q).value, q)
  {
    hide GoodStep, PlainStep, Ready, ListsHold, LocksHold, Agreement, History, Frame, WalkStep;
    match s.procs[q].pc {
      case ReadHead => ReadHeadReady(s, q);
      case Walking => WalkingReady(s, q);
      case FreeHead => FreeHeadReady(s, q);
      case FreeWalk => FreeWalkReady(s, q);
    }
    PlainKeeps(s, WalkStep(s, q), q);
  }

  // ---------- lock and unlock steps ----------

  /** The lock a process takes or gives up next. */
  function LockOf(x: Local): nat {
    if x.pc == Locking || Leaves(x.pc) then Chain(x)
    else if x.pc == DatLock || x.pc == DatUnlock then DAT_END
    else if x.pc == IdxLock || x.pc == IdxUnlock then IDX_END
    else FREE
  }

  /** The registers after a lock or unlock step that does not end the call. */
  function AfterLock(x: Local): Local {
    match x.pc
    case Locking => x.(pc := ReadHead)
    case DelLock => x.(pc := DelData)
    case DelUnlock => x.(pc := if x.op.DeleteCall? then Unlocking else InsHead)
    case FreeLock => x.(pc := FreeHead)
    case FreeUnlock => x.(pc := if x.cur == 0 then DatLock else FillDat)
    case DatLock => x.(pc := DatWrite)
    case DatUnlock => x.(pc := IdxLock)
    case IdxLock => x.(pc := IdxWrite)
    case IdxUnlock => x.(pc := LinkHead)
    case _ => x
  }

  lemma LockStepShape(s: Sys, q: nat)
    requires Shaped(s) && q in s.procs && LockPc(s.procs[q].pc) && !Leaves(s.procs[q].pc)
    ensures var x := s.procs[q];
      LockStep(s, q) ==
        if Waits(x.pc) then TakeLock(s, q, LockOf(x), x.pc != Locking || !x.op.FetchCall?, AfterLock(x))
        else Some(DropLock(s, q, LockOf(x), AfterLock(x)))
  {
    hide Bucket;
  }

  /** A lock step changes the locks and the registers of its process, or ends the call. */
  lemma LockedShape(s: Sys, q: nat)
    requires Shaped(s) && q in s.procs && LockPc(s.procs[q].pc) && LockStep(s, q).Some?
    ensures var s' := LockStep(s, q).value;
      && |s'.locks| == LOCKS && s' == s.(locks := s'.locks, procs := s'.procs)
      && s'.procs == if Leaves(s.procs[q].pc) then s.procs - {q} else s.procs[q := AfterLock(s.procs[q])]
  {
    hide AfterLock, LockOf, Bucket;
    if Leaves(s.procs[q].pc) {
      LeaveLock(s, q);
    } else {
      hide LockStep;
      LockStepShape(s, q);
    }
  }

  lemma RightsTaken(x: Local)
    requires Waits(x.pc) && (x.pc == DelLock ==> !x.op.FetchCall?)
    ensures LockOf(x) < LOCKS && OneLockMore(x, AfterLock(x), LockOf(x))
    ensures Writes(AfterLock(x), LockOf(x)) == (x.pc != Locking || !x.op.FetchCall?)
    ensures Reads(AfterLock(x), LockOf(x)) == (x.pc == Locking && x.op.FetchCall?)
  {
    hide Bucket;
  }

  lemma RightsDropped(x: Local)
    requires LockPc(x.pc) && !Waits(x.pc) && !Leaves(x.pc) && (x.pc == DelUnlock ==> !x.op.FetchCall?)
    ensures LockOf(x) < LOCKS && OneLockMore(AfterLock(x), x, LockOf(x)) && Writes(x, LockOf(x))
  {
    hide Bucket;
  }

  lemma RightsMove(x: Local)
    requires LockPc(x.pc) && !Leaves(x.pc)
    requires x.pc == DelLock || x.pc == DelUnlock ==> !x.op.FetchCall?
    ensures LockOf(x) < LOCKS
    ensures Waits(x.pc) ==>
      && OneLockMore(x, AfterLock(x), LockOf(x))
      && Writes(AfterLock(x), LockOf(x)) == (x.pc != Locking || !x.op.FetchCall?)
      && Reads(AfterLock(x), LockOf(x)) == (x.pc == Locking && x.op.FetchCall?)
    ensures !Waits(x.pc) ==> OneLockMore(AfterLock(x), x, LockOf(x)) && Writes(x, LockOf(x))
  {
    hide Bucket, OneLockMore, Writes, Reads, AfterLock, LockOf;
    if Waits(x.pc) { RightsTaken(x); } else { RightsDropped(x); }
  }

  lemma ReadyAfterLock(s: Sys, q: nat, x: Local)
    requires Shaped(s) && Ready(s, q, x) && LockPc(x.pc) && !Leaves(x.pc)
    ensures Ready(s, q, AfterLock(x))
    ensures x.pc == Locking ==> !x.gone
    ensures x.pc == DelLock || x.pc == DelUnlock ==> !x.op.FetchCall?
    ensures !Tearing(x.pc) && !Tearing(AfterLock(x).pc) && AfterLock(x).gone == x.gone && AfterLock(x).op == x.op
    ensures forall r :: r != 0 && InHand(x, r) ==> InHand(AfterLock(x), r)
  {
    hide ChainOf, GoodCall, Blank;
  }

  lemma ReadyOtherLocks(s: Sys, s': Sys, q: nat, y: Local)
    requires Shaped(s) && Shaped(s') && s' == s.(locks := s'.locks, procs := s'.procs)
    ensures Ready(s', q, y) == Ready(s, q, y)
  {
    hide GoodCall, ChainOf, Blank;
  }

  lemma OwnLock(s: Sys, q: nat, l: nat)
    requires LocksHold(s) && q in s.procs && l < LOCKS && (Writes(s.procs[q], l) || Reads(s.procs[q], l))
    ensures s.locks[l].Exclusive? ==> s.locks[l].owner == q
  {
    assert LockHeld(s, l);
  }

  lemma LockIsQuiet(s: Sys, q: nat)
    requires Inv(s) && q in s.procs && LockPc(s.procs[q].pc) && !Leaves(s.procs[q].pc) && LockStep(s, q).Some?
    ensures Quiet(s, LockStep(s, q).value, q)
  {
    hide Inv, Bucket, Ready, Writes, Reads, LockStep, AfterLock, InHand, Tearing, ChainOf;
    InCall(s, q);
    var x := s.procs[q];
    LockStepShape(s, q);
    ReadyAfterLock(s, q, x);
    RightsMove(x);
    if !Waits(x.pc) { LocksOf(s); OwnLock(s, q, LockOf(x)); }
    assert FREE < LockOf(x) <= NHASH ==> !x.gone;
    var s' := LockStep(s, q).value;
    assert forall l :: 0 <= l < LOCKS && l != LockOf(x) ==> s'.locks[l] == s.locks[l];
    assert LockMoved(s, s', q, LockOf(x));
  }

  lemma LocksOf(s: Sys)
    requires Inv(s)
    ensures LocksHold(s)
  {
  }

  lemma LockKeeps(s: Sys, q: nat)
    requires Inv(s) && q in s.procs && LockPc(s.procs[q].pc) && !Leaves(s.procs[q].pc) && LockStep(s, q).Some?
    ensures GoodStep(s, LockStep(s, q).value, q)
  {
    hide Inv, Bucket, Ready, Writes, Reads, LockStep, AfterLock, InHand, ListsHold, LocksHold, Agreement, History, Frame, ChainOf;
    InCall(s, q);
    LocksOf(s);
    var x := s.procs[q];
    LockStepShape(s, q);
    ReadyAfterLock(s, q, x);
    RightsMove(x);
    LockIsQuiet(s, q);
    var s' := LockStep(s, q).value;
    QuietKeeps(s, s', q);
    ReadyOtherLocks(s, s', q, AfterLock(x));
    if Waits(x.pc) {
      TakeKeepsLocks(s, q, LockOf(x), x.pc != Locking || !x.op.FetchCall?, AfterLock(x));
    } else {
      DropKeepsLocks(s, q, LockOf(x), AfterLock(x));
    }
  }

  lemma LeaveLock(s: Sys, q: nat)
    requires Shaped(s) && q in s.procs && Leaves(s.procs[q].pc)
    ensures LockStep(s, q).Some? && Shaped(LockStep(s, q).value)
    ensures var s' := LockStep(s, q).value;
      && s' == s.(locks := s'.locks, procs := s.procs - {q}) && !s'.locks[Chain(s.procs[q])].Exclusive?
      && forall l :: 0 <= l < LOCKS && l != Chain(s.procs[q]) ==> s'.locks[l] == s.locks[l]
  {
    hide ChainOf;
  }

  lemma LeaveIsQuiet(s: Sys, q: nat)
    requires Inv(s) && q in s.procs && Leaves(s.procs[q].pc)
    ensures LockStep(s, q).Some? && Quiet(s, LockStep(s, q).value, q)
  {
    hide Inv, ChainOf, ListsHold, LocksHold, Ready, LockStep, Writes, Reads;
    InCall(s, q);
    LocksOf(s);
    var c := Chain(s.procs[q]);
    LastLock(s.procs[q]);
    OwnLock(s, q, c);
    LeaveLock(s, q);
    var s' := LockStep(s, q).value;
    assert LockMoved(s, s', q, c);
  }

  lemma LeaveKeeps(s: Sys, q: nat)
    requires Inv(s) && q in s.procs && Leaves(s.procs[q].pc)
    ensures GoodStep(s, LockStep(s, q).value, q) && q !in LockStep(s, q).value.procs
  {
    hide Inv, Quiet, Ready, ListsHold, LocksHold, Agreement, History, Frame, ChainOf;
    LocksOf(s);
    LeaveIsQuiet(s, q);
    QuietKeeps(s, LockStep(s, q).value, q);
    LeaveKeepsLocks(s, q);
  }
}
