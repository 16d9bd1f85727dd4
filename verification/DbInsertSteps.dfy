/** The writes of a store: replacing data in place, reusing a free record, appending one, and linking
    it at the front of its chain. */
module DbInsertSteps {
  import opened Options
  import opened Decimal
  import opened DbFormat
  import opened DbLists
  import opened Database
  import opened DbRuns
  import opened DbProcesses
  import opened DbProtocol
  import opened DbQuietSteps
  import opened DbLogSteps
  import opened DbListMoves
  import opened DbWriteSteps

  lemma InsertReady(s: Sys, q: nat, x: Local)
    requires Shaped(s) && Ready(s, q, x) && InsertPc(x.pc) && x.pc != InsHead
    ensures Inserting(s, x) && x.op.StoreCall? && Writes(x, Chain(x))
    ensures HoldsFreeList(x.pc) ==> Writes(x, FREE)
    ensures x.pc == FillDat || x.pc == FillIdx || x.pc == IdxUnlock || x.pc == LinkHead ==> Holding(s, q, x)
    ensures x.pc == FreeTake ==> At(s, x, FREE) && x.val == s.recs[x.cur].next
    ensures x.pc == LinkHead ==> s.recs[x.cur] == Rec(x.head, Key(x), x.op.data)
  {
    hide ChainOf, GoodCall;
  }

  /** What the process of a store relies on once it found its key missing. */
  lemma InInsert(s: Sys, q: nat)
    requires Inv(s) && q in s.procs && InsertPc(s.procs[q].pc) && s.procs[q].pc != InsHead
    ensures Shaped(s) && ListsHold(s) && Ready(s, q, s.procs[q])
    ensures var x := s.procs[q];
      && Inserting(s, x) && x.op.StoreCall? && Writes(x, Chain(x)) && !Bent(s, Chain(x))
      && s.locks[Chain(x)] == Exclusive(q)
      && (HoldsFreeList(x.pc) ==> Writes(x, FREE))
      && (x.pc == FillDat || x.pc == FillIdx || x.pc == IdxUnlock || x.pc == LinkHead ==> Holding(s, q, x))
      && (x.pc == FreeTake ==> At(s, x, FREE) && x.val == s.recs[x.cur].next)
      && (x.pc == LinkHead ==> s.recs[x.cur] == Rec(x.head, Key(x), x.op.data))
  {
    hide Inv, Ready, ListsHold, LocksHold, Bent, ChainOf, Writes, Inserting, Holding, At;
    InCall(s, q);
    LocksOf(s);
    OwnChain(s, q);
    InsertReady(s, q, s.procs[q]);
  }

  // ---------- steps that only move on ----------

  lemma InsHeadReady(s: Sys, q: nat, x: Local, y: Local)
    requires Shaped(s) && Ready(s, q, x)
    requires
      || (x.pc == InsHead && y == x.(head := s.heads[Chain(x)], pc := if x.gone then DatLock else FreeLock))
      || (x.pc == DatWrite && y == x.(pc := DatUnlock))
    ensures Ready(s, q, y) && Plain(x, y)
  {
    hide ChainOf, GoodCall;
  }

  lemma InsHeadKeeps(s: Sys, q: nat)
    requires Inv(s) && q in s.procs && (s.procs[q].pc == InsHead || s.procs[q].pc == DatWrite)
    ensures InsertStep(s, q, 0).Some? && GoodStep(s, InsertStep(s, q, 0).value, q)
    ensures forall end :: InsertStep(s, q, end) == InsertStep(s, q, 0)
  {
    hide Inv, ChainOf, GoodStep, Ready, Plain, ListsHold;
    InCall(s, q);
    InsHeadReady(s, q, s.procs[q], InsertStep(s, q, 0).value.procs[q]);
    PlainKeeps(s, InsertStep(s, q, 0), q);
  }

  // ---------- taking a record off the free list ----------

  lemma FreeTakeShape(s: Sys, q: nat, y: Local)
    requires Shaped(s) && q in s.procs && s.procs[q].pc == FreeTake && s.procs[q].op.StoreCall?
    requires At(s, s.procs[q], FREE) && s.procs[q].val == s.recs[s.procs[q].cur].next
    requires y == s.procs[q].(pc := FreeUnlock)
    requires forall j :: 0 <= j <= y.k ==> s.lists[FREE][j] in s.recs
    ensures InsertStep(s, q, 0) == Option.Some(CutFree(Put(s, q, y), q, y.k))
    ensures forall end :: InsertStep(s, q, end) == InsertStep(s, q, 0)
  {
    hide ChainOf;
  }

  lemma CutFrame(s: Sys, q: nat, y: Local)
    requires Shaped(s) && q in s.procs && y.k < |s.lists[FREE]| && Writes(s.procs[q], FREE)
    requires forall j :: 0 <= j <= y.k ==>
      var r := s.lists[FREE][j]; r in s.recs && r in s.place && s.place[r] == On(FREE)
    ensures Frame(s, CutFree(Put(s, q, y), q, y.k), q)
  {
    hide Writes, ChainOf;
  }

  lemma CutAgreement(s: Sys, q: nat, y: Local)
    requires Agreement(s) && q in s.procs && y.op == s.procs[q].op && y.gone == s.procs[q].gone
    requires y.k < |s.lists[FREE]| && (forall j :: 0 <= j <= y.k ==> s.lists[FREE][j] in s.recs)
    ensures Agreement(CutFree(Put(s, q, y), q, y.k))
  {
    hide ChainOf;
    var s' := CutFree(Put(s, q, y), q, y.k);
    forall key | !Torn(s', key) ensures Agrees(s', key) {
      assert !Torn(s, key) && Agrees(s, key);
    }
  }

  lemma CutReady(s: Sys, q: nat, x: Local, y: Local)
    requires Shaped(s) && Ready(s, q, x) && x.pc == FreeTake && y == x.(pc := FreeUnlock) && x.cur != 0
    requires forall j :: 0 <= j <= y.k ==> s.lists[FREE][j] in s.recs
    ensures Ready(CutFree(Put(s, q, y), q, y.k), q, y)
  {
    hide Bucket, GoodCall;
  }

  lemma FreeTakeKeeps(s: Sys, q: nat)
    requires Inv(s) && q in s.procs && s.procs[q].pc == FreeTake
    ensures InsertStep(s, q, 0).Some? && GoodStep(s, InsertStep(s, q, 0).value, q)
    ensures forall end :: InsertStep(s, q, end) == InsertStep(s, q, 0)
  {
    hide Inv, ListsHold, LocksHold, Agreement, AfterAll, Replies, Frame, ChainOf, GoodCall, Ready, Writes, InsertStep, CutFree, Bent;
    var x := s.procs[q];
    InInsert(s, q);
    LocksOf(s);
    AgreementOf(s);
    ListPlaces(s, FREE);
    ListNodes(s, FREE);
    var y := x.(pc := FreeUnlock);
    FreeTakeShape(s, q, y);
    NothingInHand(s, q);
    ListsPut(s, q, y);
    ListsCutFree(Put(s, q, y), q, y.k);
    CutRest(s, q, y);
    LocksSame(s, CutFree(Put(s, q, y), q, y.k), q);
    CutFrame(s, q, y);
    CutAgreement(s, q, y);
    CutReady(s, q, x, y);
  }

  lemma CutRest(s: Sys, q: nat, y: Local)
    requires Shaped(s) && q in s.procs && y.k < |s.lists[FREE]|
    requires forall j :: 0 <= j <= y.k ==> s.lists[FREE][j] in s.recs
    ensures var s' := CutFree(Put(s, q, y), q, y.k);
      Shaped(s') && s'.locks == s.locks && s'.procs == s.procs[q := y] && s'.log == s.log && s'.abs == s.abs
  {
  }

  // ---------- writing a record in hand ----------

  function Filled(s: Sys, x: Local): (rec: Rec)
    requires x.cur in s.recs && x.op.StoreCall?
  {
    if x.pc == FillDat then s.recs[x.cur].(data := x.op.data)
    else s.recs[x.cur].(next := x.head, key := Key(x))
  }

  lemma FillShape(s: Sys, q: nat, y: Local)
    requires Shaped(s) && q in s.procs && (s.procs[q].pc == FillDat || s.procs[q].pc == FillIdx)
    requires s.procs[q].op.StoreCall? && s.procs[q].cur in s.recs
    requires y == s.procs[q].(pc := if s.procs[q].pc == FillDat then FillIdx else LinkHead)
    ensures InsertStep(s, q, 0)
         == Option.Some(Put(s.(recs := s.recs[y.cur := Filled(s, s.procs[q])]), q, y))
    ensures forall end :: InsertStep(s, q, end) == InsertStep(s, q, 0)
  {
    hide ChainOf;
  }

  lemma FillReady(s: Sys, q: nat, x: Local, y: Local)
    requires Shaped(s) && Ready(s, q, x) && (x.pc == FillDat || x.pc == FillIdx)
    requires x.op.StoreCall? && x.cur in s.recs
    requires y == x.(pc := if x.pc == FillDat then FillIdx else LinkHead)
    ensures Ready(Put(s.(recs := s.recs[y.cur := Filled(s, x)]), q, y), q, y)
  {
    hide ChainOf, GoodCall;
  }

  lemma FillLists(s: Sys, q: nat, rec: Rec, y: Local)
    requires Shaped(s) && ListsHold(s) && LocksHold(s) && q in s.procs && Holding(s, q, s.procs[q])
    requires InHand(s.procs[q], y.cur) && InHand(y, y.cur) && SameRights(s.procs[q], y)
    requires !Tearing(s.procs[q].pc) && !Tearing(y.pc)
    ensures ListsHold(Put(s.(recs := s.recs[y.cur := rec]), q, y))
    ensures LocksHold(Put(s.(recs := s.recs[y.cur := rec]), q, y))
  {
    hide ListsHold, LocksHold, SameRights;
    ListsRecord(s, y.cur, rec);
    OnlyInHand(s, q);
    var s1 := s.(recs := s.recs[y.cur := rec]);
    ListsPut(s1, q, y);
    LocksSame(s, Put(s1, q, y), q);
  }

  lemma FillKeeps(s: Sys, q: nat)
    requires Inv(s) && q in s.procs && (s.procs[q].pc == FillDat || s.procs[q].pc == FillIdx)
    ensures InsertStep(s, q, 0).Some? && GoodStep(s, InsertStep(s, q, 0).value, q)
    ensures forall end :: InsertStep(s, q, end) == InsertStep(s, q, 0)
  {
    hide Inv, ListsHold, LocksHold, Agreement, AfterAll, Replies, Frame, ChainOf, GoodCall, Ready, Writes, InsertStep, Bent, Filled, Inserting;
    var x := s.procs[q];
    InInsert(s, q);
    LocksOf(s);
    AgreementOf(s);
    var y := x.(pc := if x.pc == FillDat then FillIdx else LinkHead);
    FillShape(s, q, y);
    var s' := Put(s.(recs := s.recs[y.cur := Filled(s, x)]), q, y);
    FillLists(s, q, Filled(s, x), y);
    OneRecordFrame(s, s', q, y.cur);
    OneRecordAgreement(s, s', q, y.cur);
    FillReady(s, q, x, y);
  }

  // ---------- appending a record ----------

  function Appended(s: Sys, q: nat, y: Local): Sys
    requires y.op.StoreCall?
  {
    Put(s, q, y).(recs := s.recs[y.cur := Rec(y.head, Key(y), y.op.data)], place := s.place[y.cur := Hand(q)])
  }

  lemma IdxWriteShape(s: Sys, q: nat, end: nat)
    requires Shaped(s) && q in s.procs && s.procs[q].pc == IdxWrite && s.procs[q].op.StoreCall?
    requires end != 0 && end !in s.recs
    ensures InsertStep(s, q, end)
         == Option.Some(Appended(s, q, s.procs[q].(cur := end, pc := IdxUnlock)))
  {
    hide ChainOf;
  }

  lemma AppendFrame(s: Sys, q: nat, y: Local)
    requires Shaped(s) && q in s.procs && y.op.StoreCall? && y.cur !in s.recs
    ensures Frame(s, Appended(s, q, y), q)
  {
    hide Writes, ChainOf;
  }

  lemma AppendAgreement(s: Sys, q: nat, y: Local)
    requires Agreement(s) && q in s.procs && y.op.StoreCall? && y.cur !in s.recs
    requires y.op == s.procs[q].op && y.gone == s.procs[q].gone
    ensures Agreement(Appended(s, q, y))
  {
    hide ChainOf;
    var s' := Appended(s, q, y);
    forall key | !Torn(s', key) ensures Agrees(s', key) {
      assert !Torn(s, key) && Agrees(s, key);
    }
  }

  lemma AppendReady(s: Sys, q: nat, x: Local, y: Local)
    requires Shaped(s) && Ready(s, q, x) && x.pc == IdxWrite && x.op.StoreCall?
    requires y == x.(cur := y.cur, pc := IdxUnlock) && y.cur != 0
    ensures Ready(Appended(s, q, y), q, y)
  {
    hide ChainOf, GoodCall;
  }

  lemma IdxWriteKeeps(s: Sys, q: nat, end: nat)
    requires Inv(s) && q in s.procs && s.procs[q].pc == IdxWrite && end != 0 && end !in s.recs
    ensures InsertStep(s, q, end).Some? && GoodStep(s, InsertStep(s, q, end).value, q)
  {
    hide Inv, ListsHold, LocksHold, Agreement, AfterAll, Replies, Frame, ChainOf, GoodCall, Ready, Writes, InsertStep, Bent;
    var x := s.procs[q];
    InInsert(s, q);
    LocksOf(s);
    AgreementOf(s);
    IdxWriteShape(s, q, end);
    var y := x.(cur := end, pc := IdxUnlock);
    NothingInHand(s, q);
    ListsPut(s, q, y);
    ListsNew(Put(s, q, y), q, end, Rec(y.head, Key(y), y.op.data));
    LocksSame(s, Appended(s, q, y), q);
    AppendFrame(s, q, y);
    AppendAgreement(s, q, y);
    AppendReady(s, q, x, y);
  }

  // ---------- linking the record ----------

  /** The state after the record in hand became the first of its chain and the store took effect. */
  function Linked(s: Sys, q: nat): Sys
    requires Shaped(s) && q in s.procs && s.procs[q].op.StoreCall? && s.procs[q].cur in s.recs
  {
    var x := s.procs[q];
    Put(PushOn(s, Chain(x), x.cur), q, x.(pc := Unlocking, gone := false, ans := Code(0), at := |s.log|))
      .(log := s.log + [Event(q, x.op, Code(0))], abs := s.abs[Key(x) := x.op.data])
  }

  lemma LinkHeadShape(s: Sys, q: nat)
    requires Shaped(s) && q in s.procs && s.procs[q].pc == LinkHead && s.procs[q].op.StoreCall?
    requires s.procs[q].cur in s.recs && s.recs[s.procs[q].cur].key == Key(s.procs[q])
    requires After(s.abs, s.procs[q].op) == s.abs[Key(s.procs[q]) := s.procs[q].op.data]
    ensures InsertStep(s, q, 0) == Option.Some(Linked(s, q))
    ensures forall end :: InsertStep(s, q, end) == InsertStep(s, q, 0)
  {
    hide Bucket, After;
  }

  /** The store of a process about to link its record is one the table accepts. */
  lemma StoreAccepted(s: Sys, q: nat)
    requires Inv(s) && q in s.procs && s.procs[q].pc == LinkHead
    ensures var x := s.procs[q]; x.op.StoreCall? && Startable(x.op) && x.since <= |s.log|
    ensures var x := s.procs[q]; After(s.abs, x.op) == s.abs[Key(x) := x.op.data] && Reply(s.abs, x.op) == Code(0)
  {
    hide ListsHold, LocksHold, Agreement, History, ChainOf, GoodCall, Holding;
    var x := s.procs[q];
    assert Ready(s, q, x);
    if !x.gone { KeyAgrees(s, q); }
  }

  lemma LinkedAgreement(s: Sys, q: nat)
    requires Agreement(s) && q in s.procs && s.procs[q].op.StoreCall? && s.procs[q].cur in s.recs
    requires s.locks[Chain(s.procs[q])] == Exclusive(q)
    requires s.recs[s.procs[q].cur].key == Key(s.procs[q]) && s.recs[s.procs[q].cur].data == s.procs[q].op.data
    ensures Agreement(Linked(s, q))
  {
    hide Bucket;
    var x, s' := s.procs[q], Linked(s, q);
    forall key | !Torn(s', key) ensures Agrees(s', key) {
      if key != Key(x) {
        assert !Torn(s, key) && Agrees(s, key);
      }
    }
  }

  lemma LinkedOnChain(s: Sys, q: nat)
    requires Inv(s) && q in s.procs && s.procs[q].pc == LinkHead && s.procs[q].op.StoreCall?
    requires Shaped(s) && s.procs[q].cur in s.recs
    ensures var s1 := PushOn(s, Chain(s.procs[q]), s.procs[q].cur);
      ListsHold(s1) && forall r :: r in s1.place ==> s1.place[r] != Hand(q)
  {
    hide Inv, ListsHold, LocksHold, Ready, Writes, Bent, Bucket;
    var x := s.procs[q];
    InInsert(s, q);
    ListsPush(s, Chain(x), x.cur);
    OnlyInHand(s, q);
  }

  lemma LinkedLists(s: Sys, q: nat)
    requires Inv(s) && q in s.procs && s.procs[q].pc == LinkHead && s.procs[q].op.StoreCall?
    requires Shaped(s) && s.procs[q].cur in s.recs
    ensures ListsHold(Linked(s, q)) && LocksHold(Linked(s, q))
  {
    hide Inv, ListsHold, LocksHold, Writes, Bucket;
    var x := s.procs[q];
    LinkedOnChain(s, q);
    LocksOf(s);
    var s1 := PushOn(s, Chain(x), x.cur);
    var s2 := Put(s1, q, Linked(s, q).procs[q]);
    ListsPut(s1, q, s2.procs[q]);
    ListsIgnoreLog(s2, Linked(s, q));
    LocksSame(s, s2, q);
    LocksIgnoreLog(s2, Linked(s, q));
  }

  lemma LinkedFrame(s: Sys, q: nat)
    requires Shaped(s) && q in s.procs && s.procs[q].op.StoreCall? && Holding(s, q, s.procs[q])
    requires Writes(s.procs[q], Chain(s.procs[q])) && s.recs[s.procs[q].cur].key == Key(s.procs[q])
    ensures Frame(s, Linked(s, q), q)
  {
    hide Frame, Writes, Bucket;
    var x := s.procs[q];
    var s2 := Put(PushOn(s, Chain(x), x.cur), q, Linked(s, q).procs[q]);
    PushFrame(s, s2, q, Chain(x), x.cur);
    FrameLog(s, s2, Linked(s, q), q);
  }

  lemma LinkHeadKeeps(s: Sys, q: nat)
    requires Inv(s) && q in s.procs && s.procs[q].pc == LinkHead
    ensures InsertStep(s, q, 0).Some? && GoodStep(s, InsertStep(s, q, 0).value, q)
    ensures forall end :: InsertStep(s, q, end) == InsertStep(s, q, 0)
  {
    hide Inv, ListsHold, LocksHold, Agreement, History, Frame, Bucket, GoodCall, Writes, InsertStep, Bent, After, Reply;
    var x := s.procs[q];
    InInsert(s, q);
    AgreementOf(s);
    StoreAccepted(s, q);
    LinkHeadShape(s, q);
    LinkedLists(s, q);
    LinkedFrame(s, q);
    LinkedAgreement(s, q);
    LogHistory(s, Linked(s, q), Event(q, x.op, Code(0)));
  }

  // ---------- an append that fails a check ----------

  /** The place of every record, when the process drops what it has in its hands. */
  function PlaceLeft(s: Sys, x: Local): map<nat, Place> {
    if x.pc == LinkHead then s.place[x.cur := Lost] else s.place
  }

  lemma FailedShape(s: Sys, q: nat)
    requires q in s.procs && (s.procs[q].pc == IdxLock || s.procs[q].pc == LinkHead)
    ensures Failed(s, q) == Option.Some(Ended(s, q, PlaceLeft(s, s.procs[q])))
  {
    hide Ended;
  }

  lemma ListsLost(s: Sys, q: nat, r: nat)
    requires ListsHold(s) && r in s.recs && r in s.place && s.place[r] == Hand(q)
    ensures ListsHold(s.(place := s.place[r := Lost]))
  {
    hide Blank, ChainOf;
    var s' := s.(place := s.place[r := Lost]);
    forall l | 0 <= l <= NHASH ensures ListPlaced(s', l) && ListLinked(s', l) {
      PlacedAt(s, l);
      SameList(s, s', l);
    }
    forall m | m in s'.recs ensures RecordHeld(s', m) {
      assert RecordHeld(s, m);
    }
    forall key | key in s'.loc ensures KeyHeld(s', key) {
      assert KeyHeld(s, key);
    }
  }

  lemma NothingLeft(s: Sys, q: nat, x: Local)
    requires ListsHold(s) && q in s.procs && x == s.procs[q] && (x.pc == IdxLock || x.pc == LinkHead)
    requires x.pc == LinkHead ==> Holding(s, q, x)
    ensures ListsHold(s.(place := PlaceLeft(s, x)))
    ensures forall r :: r in PlaceLeft(s, x) ==> PlaceLeft(s, x)[r] != Hand(q)
  {
    hide ListsHold;
    OnlyInHand(s, q);
    if x.pc == LinkHead { ListsLost(s, q, x.cur); }
  }

  lemma EndedParts(s: Sys, q: nat, place: map<nat, Place>)
    requires q in s.procs
    ensures var s', x := Ended(s, q, place), s.procs[q];
      && q in s'.procs && s'.procs[q] == x.(pc := Ending, gone := false, at := s'.procs[q].at)
      && s' == Put(s.(place := place), q, s'.procs[q]).(log := s'.log, abs := s'.abs)
      && (x.pc == IdxLock || x.pc == LinkHead ==> SameRights(x, s'.procs[q]))
  {
    hide SameRights;
    var x := s.procs[q];
    if x.pc == IdxLock || x.pc == LinkHead { EndingRights(x, Ended(s, q, place).procs[q]); }
  }

  lemma EndingRights(x: Local, y: Local)
    requires (x.pc == IdxLock || x.pc == LinkHead) && y == x.(pc := Ending, gone := false, at := y.at)
    ensures SameRights(x, y)
  {
  }

  lemma EndedLists(s: Sys, q: nat, x: Local)
    requires Shaped(s) && ListsHold(s) && LocksHold(s) && q in s.procs && x == s.procs[q]
    requires (x.pc == IdxLock || x.pc == LinkHead) && (x.pc == LinkHead ==> Holding(s, q, x))
    ensures var s' := Ended(s, q, PlaceLeft(s, x)); ListsHold(s') && LocksHold(s')
  {
    hide ListsHold, LocksHold, PlaceLeft, Holding, Ended;
    NothingLeft(s, q, x);
    var s' := Ended(s, q, PlaceLeft(s, x));
    EndedParts(s, q, PlaceLeft(s, x));
    var s1 := s.(place := PlaceLeft(s, x));
    var s2 := Put(s1, q, s'.procs[q]);
    ListsPut(s1, q, s'.procs[q]);
    ListsIgnoreLog(s2, s');
    LocksSame(s, s2, q);
    LocksIgnoreLog(s2, s');
  }

  lemma EndedFrame(s: Sys, q: nat, x: Local)
    requires Shaped(s) && q in s.procs && x == s.procs[q] && Writes(x, Chain(x))
    requires x.pc == LinkHead ==> Holding(s, q, x)
    ensures Frame(s, Ended(s, q, PlaceLeft(s, x)), q)
  {
    hide Writes, Bucket;
  }

  lemma EndedAgreement(s: Sys, q: nat, x: Local)
    requires Agreement(s) && q in s.procs && x == s.procs[q] && Inserting(s, x)
    requires s.locks[Chain(x)] == Exclusive(q)
    ensures Agreement(Ended(s, q, PlaceLeft(s, x)))
  {
    hide Bucket;
    var s' := Ended(s, q, PlaceLeft(s, x));
    forall key | !Torn(s', key) ensures Agrees(s', key) {
      if key != Key(x) || !x.gone {
        assert !Torn(s, key) && Agrees(s, key);
      }
    }
  }

  lemma EndedHistory(s: Sys, q: nat, x: Local)
    requires History(s) && q in s.procs && x == s.procs[q] && (x.gone ==> Key(x) in s.abs)
    ensures History(Ended(s, q, PlaceLeft(s, x)))
  {
    hide History;
    var s' := Ended(s, q, PlaceLeft(s, x));
    if x.gone {
      LogHistory(s, s', Event(q, DeleteCall(Key(x)), Code(0)));
    } else {
      SameHistory(s, s');
    }
  }

  lemma ReadyToEnd(s: Sys, q: nat, x: Local, s': Sys, y: Local)
    requires Shaped(s) && Ready(s, q, x) && Shaped(s') && |s.log| <= |s'.log|
    requires y == x.(pc := Ending, gone := false, at := y.at)
    ensures Ready(s', q, y) && (x.gone ==> Key(x) in s.abs)
  {
    hide ChainOf, GoodCall;
  }

  /** A process that ends at a check of its append leaves the files as they are; a store whose old record
      was deleted counts as the deletion of its key. */
  lemma FailKeeps(s: Sys, q: nat)
    requires Inv(s) && q in s.procs && (s.procs[q].pc == IdxLock || s.procs[q].pc == LinkHead)
    ensures Failed(s, q).Some? && GoodStep(s, Failed(s, q).value, q)
  {
    hide Inv, ListsHold, LocksHold, Agreement, History, Frame, Bucket, Ready, Writes, Bent, Failed, PlaceLeft, Holding, Inserting;
    var x := s.procs[q];
    InInsert(s, q);
    AgreementOf(s);
    LocksOf(s);
    FailedShape(s, q);
    EndedLists(s, q, x);
    EndedFrame(s, q, x);
    EndedAgreement(s, q, x);
    var s' := Ended(s, q, PlaceLeft(s, x));
    ReadyToEnd(s, q, x, s', s'.procs[q]);
    EndedHistory(s, q, x);
  }

  // ---------- replacing data of the same length ----------

  function Overwritten(s: Sys, q: nat): Sys
    requires q in s.procs && s.procs[q].op.StoreCall? && s.procs[q].cur in s.recs
  {
    var x := s.procs[q];
    Put(s.(recs := s.recs[x.cur := s.recs[x.cur].(data := x.op.data)]), q,
        x.(pc := Unlocking, gone := false, ans := Code(0), at := |s.log|))
      .(log := s.log + [Event(q, x.op, Code(0))], abs := s.abs[Key(x) := x.op.data])
  }

  lemma OverwriteShape(s: Sys, q: nat)
    requires Shaped(s) && q in s.procs && s.procs[q].pc == Overwriting && s.procs[q].op.StoreCall?
    requires s.procs[q].cur in s.recs
    requires After(s.abs, s.procs[q].op) == s.abs[Key(s.procs[q]) := s.procs[q].op.data]
    ensures DecideStep(s, q) == Option.Some(Overwritten(s, q))
  {
    hide ChainOf, After;
  }

  lemma InOverwrite(s: Sys, q: nat)
    requires Inv(s) && q in s.procs && s.procs[q].pc == Overwriting
    ensures Shaped(s) && ListsHold(s)
    ensures var x := s.procs[q];
      && x.op.StoreCall? && Startable(x.op) && x.since <= |s.log| && Located(s, x) && !x.gone
      && Writes(x, Chain(x)) && s.locks[Chain(x)] == Exclusive(q)
      && x.cur in s.place && s.place[x.cur] == On(Chain(x))
      && After(s.abs, x.op) == s.abs[Key(x) := x.op.data] && Reply(s.abs, x.op) == Code(0)
  {
    hide Inv, ListsHold, LocksHold, Agreement, History, ChainOf, GoodCall, At, Ready;
    InDecision(s, q);
    InCall(s, q);
    LocksOf(s);
    OwnChain(s, q);
    OtherKey(s, Key(s.procs[q]), s.procs[q].cur);
  }

  lemma OverwrittenInPlace(s: Sys, q: nat)
    requires Inv(s) && q in s.procs && s.procs[q].pc == Overwriting && s.procs[q].op.StoreCall?
    requires s.procs[q].cur in s.recs
    ensures var s1 := s.(recs := s.recs[s.procs[q].cur := s.recs[s.procs[q].cur].(data := s.procs[q].op.data)]);
      ListsHold(s1) && forall r :: r in s1.place ==> s1.place[r] != Hand(q)
  {
    hide Inv, ListsHold, LocksHold, Writes, ChainOf, Located, After, Reply;
    var x := s.procs[q];
    InOverwrite(s, q);
    ListsRecord(s, x.cur, s.recs[x.cur].(data := x.op.data));
    NothingInHand(s, q);
  }

  lemma OverwrittenLists(s: Sys, q: nat)
    requires Inv(s) && q in s.procs && s.procs[q].pc == Overwriting && s.procs[q].op.StoreCall?
    requires s.procs[q].cur in s.recs
    ensures ListsHold(Overwritten(s, q)) && LocksHold(Overwritten(s, q))
  {
    hide Inv, ListsHold, LocksHold, Writes, ChainOf;
    var x, s' := s.procs[q], Overwritten(s, q);
    OverwrittenInPlace(s, q);
    LocksOf(s);
    ShapeOf(s);
    var s1 := s.(recs := s.recs[x.cur := s.recs[x.cur].(data := x.op.data)]);
    var s2 := Put(s1, q, s'.procs[q]);
    ListsPut(s1, q, s2.procs[q]);
    ListsIgnoreLog(s2, s');
    LocksSame(s, s2, q);
    LocksIgnoreLog(s2, s');
  }

  lemma ShapeOf(s: Sys)
    requires Inv(s)
    ensures Shaped(s)
  {
  }

  lemma OverwrittenFrame(s: Sys, q: nat)
    requires Shaped(s) && q in s.procs && s.procs[q].op.StoreCall? && s.procs[q].cur in s.recs
    requires s.procs[q].cur in s.place && s.place[s.procs[q].cur] == On(Chain(s.procs[q]))
    requires Writes(s.procs[q], Chain(s.procs[q]))
    ensures Frame(s, Overwritten(s, q), q)
  {
    hide Frame, Writes, Bucket;
    var x, s' := s.procs[q], Overwritten(s, q);
    var s2 := Put(s.(recs := s'.recs), q, s'.procs[q]);
    OneRecordFrame(s, s2, q, x.cur);
    FrameLog(s, s2, s', q);
  }

  lemma OverwrittenAgreement(s: Sys, q: nat)
    requires ListsHold(s) && Agreement(s) && q in s.procs && s.procs[q].op.StoreCall? && Located(s, s.procs[q])
    requires s.locks[Chain(s.procs[q])] == Exclusive(q)
    ensures Agreement(Overwritten(s, q))
  {
    hide Bucket, At;
    var x, s' := s.procs[q], Overwritten(s, q);
    forall key | !Torn(s', key) ensures Agrees(s', key) {
      if key != Key(x) {
        assert !Torn(s, key) && Agrees(s, key);
        if key in s.loc && s.loc[key] == x.cur { OtherKey(s, key, x.cur); }
      }
    }
  }

  lemma OverwriteKeeps(s: Sys, q: nat)
    requires Inv(s) && q in s.procs && s.procs[q].pc == Overwriting
    ensures DecideStep(s, q).Some? && GoodStep(s, DecideStep(s, q).value, q)
  {
    hide Inv, ListsHold, LocksHold, Agreement, History, Frame, Bucket, GoodCall, Writes, DecideStep, After, Reply;
    InOverwrite(s, q);
    AgreementOf(s);
    OverwriteShape(s, q);
    OverwrittenLists(s, q);
    OverwrittenFrame(s, q);
    OverwrittenAgreement(s, q);
    LogHistory(s, Overwritten(s, q), Event(q, s.procs[q].op, Code(0)));
  }
}
