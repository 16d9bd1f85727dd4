/** Steps that decide a call without writing: those that answer at once, and those that go on. */
module DbLogSteps {
  import opened Options
  import opened DbFormat
  import opened DbLists
  import opened Database
  import opened DbRuns
  import opened DbProcesses
  import opened DbProtocol
  import opened DbQuietSteps

  lemma ReplayOne(calls: seq<Call>, c: Call)
    ensures AfterAll(map[], calls + [c]) == After(AfterAll(map[], calls), c)
    ensures Replies(map[], calls + [c]) == Replies(map[], calls) + [Reply(AfterAll(map[], calls), c)]
  {
    assert (calls + [c])[..|calls|] == calls;
  }

  /** Adding an event whose answer is the table's keeps the history. */
  lemma LogHistory(s: Sys, s': Sys, e: Event)
    requires History(s) && s'.log == s.log + [e] && s'.abs == After(s.abs, e.op) && e.ans == Reply(s.abs, e.op)
    ensures History(s')
  {
    hide After, Reply, AfterAll, Replies;
    ReplayOne(Calls(s.log), e.op);
    assert Calls(s'.log) == Calls(s.log) + [e.op];
    assert Answers(s'.log) == Answers(s.log) + [e.ans];
  }

  /** Whether the record of a key agrees with the table, for a process that holds its chain and has
      not started to change it. */
  lemma KeyAgrees(s: Sys, q: nat)
    requires Inv(s) && q in s.procs && s.procs[q].pc != Locking && !s.procs[q].gone
    ensures Agrees(s, Key(s.procs[q]))
  {
    hide ListsHold, History, Ready, ChainOf;
    assert LockHeld(s, Chain(s.procs[q]));
    assert !Torn(s, Key(s.procs[q]));
  }

  // ---------- answering without writing ----------

  lemma ListIgnoresLog(s: Sys, s': Sys, l: nat)
    requires Shaped(s) && l <= NHASH && ListPlaced(s, l) && ListLinked(s, l) && s' == s.(log := s'.log, abs := s'.abs)
    ensures ListPlaced(s', l) && ListLinked(s', l)
  {
    forall k | 0 <= k <= |s.lists[l]| ensures LinkValue(s', l, k) == LinkValue(s, l, k) {
    }
  }

  lemma ListsIgnoreLog(s: Sys, s': Sys)
    requires ListsHold(s) && s' == s.(log := s'.log, abs := s'.abs)
    ensures ListsHold(s')
  {
    hide Blank, ChainOf;
    forall l | 0 <= l <= NHASH ensures ListPlaced(s', l) && ListLinked(s', l) {
      ListIgnoresLog(s, s', l);
    }
    forall r | r in s'.recs ensures RecordHeld(s', r) {
      assert RecordHeld(s, r);
    }
    forall key | key in s'.loc ensures KeyHeld(s', key) {
      assert KeyHeld(s, key);
    }
  }

  lemma LocksIgnoreLog(s: Sys, s': Sys)
    requires LocksHold(s) && s' == s.(log := s'.log, abs := s'.abs)
    ensures LocksHold(s')
  {
    hide Writes, Reads;
    forall l | 0 <= l < LOCKS ensures LockHeld(s', l) {
      assert LockHeld(s, l);
    }
  }

  lemma AgreementIgnoresLog(s: Sys, s': Sys)
    requires Agreement(s) && s' == s.(log := s'.log)
    ensures Agreement(s')
  {
    forall key | !Torn(s', key) ensures Agrees(s', key) {
      assert !Torn(s, key) && Agrees(s, key);
    }
  }

  /** An event in the log, and a change of the table at keys of the chain `q` writes. */
  lemma FrameLog(s: Sys, s1: Sys, s': Sys, q: nat)
    requires q in s.procs && Frame(s, s1, q) && s1.log <= s'.log && s' == s1.(log := s'.log, abs := s'.abs)
    requires forall key :: !Writes(s.procs[q], ChainOf(key)) ==> SameEntry(s1.abs, s'.abs, key)
    ensures Frame(s, s', q)
  {
    hide Writes, ChainOf;
    forall l | 0 <= l <= NHASH && !Writes(s.procs[q], l) ensures ListKept(s, s', l) {
      assert ListKept(s, s1, l);
    }
    forall r | r in s.recs && r in s.place && s.place[r].On? && !Writes(s.procs[q], s.place[r].l)
      ensures RecordKept(s, s', r)
    {
      assert RecordKept(s, s1, r);
    }
    forall r | r in s.recs && r in s.place && s.place[r].Hand? && s.place[r].p != q ensures RecordKept(s, s', r) {
      assert RecordKept(s, s1, r);
    }
    forall key | !Writes(s.procs[q], ChainOf(key)) ensures KeyKept(s, s', key) {
      assert KeyKept(s, s1, key) && SameEntry(s1.abs, s'.abs, key);
    }
  }

  predicate SameEntry(m: map<string, string>, m': map<string, string>, key: string) {
    (key in m' <==> key in m) && (key in m ==> m'[key] == m[key])
  }

  lemma AnswerRights(x: Local, y: Local)
    requires DecidePc(x.pc) && y.pc == Unlocking && y.op == x.op
    ensures SameRights(x, y) && !Tearing(x.pc) && !Tearing(y.pc)
    ensures forall r :: !InHand(x, r)
  {
    hide ChainOf;
  }

  /** Apart from the log, taking effect moves the program counter. */
  lemma AnswerIsQuiet(s: Sys, q: nat, ans: Answer)
    requires Inv(s) && q in s.procs && !s.procs[q].gone && DecidePc(s.procs[q].pc)
    ensures Shaped(s)
    ensures var s1 := Put(s, q, Log(s, q, s.procs[q], Unlocking, ans).procs[q]);
      Frame(s, s1, q) && ListsHold(s1) && LocksHold(s1) && Agreement(s1) && History(s1)
  {
    hide Inv, ListsHold, LocksHold, Agreement, History, Frame, ChainOf, GoodCall, SameRights, InHand, Tearing;
    var s1 := Put(s, q, Log(s, q, s.procs[q], Unlocking, ans).procs[q]);
    InCall(s, q);
    LocksOf(s);
    AnswerRights(s.procs[q], s1.procs[q]);
    LocksSame(s, s1, q);
    QuietKeeps(s, s1, q);
  }

  /** A call that leaves the table alone takes effect with the table's answer. */
  lemma AnswerKeeps(s: Sys, q: nat, ans: Answer)
    requires Inv(s) && q in s.procs && !s.procs[q].gone && DecidePc(s.procs[q].pc)
    requires s.procs[q].since <= |s.log| && Startable(s.procs[q].op)
    requires ans == Reply(s.abs, s.procs[q].op) && After(s.abs, s.procs[q].op) == s.abs
    ensures GoodStep(s, Log(s, q, s.procs[q], Unlocking, ans), q)
  {
    hide Inv, ListsHold, LocksHold, Agreement, History, Frame, After, Reply, ChainOf, GoodCall;
    var x := s.procs[q];
    var s' := Log(s, q, x, Unlocking, ans);
    var s1 := Put(s, q, s'.procs[q]);
    AnswerIsQuiet(s, q, ans);
    ListsIgnoreLog(s1, s');
    LocksIgnoreLog(s1, s');
    AgreementIgnoresLog(s1, s');
    FrameLog(s, s1, s', q);
    LogHistory(s1, s', Event(q, x.op, ans));
  }

  // ---------- the decisions ----------

  lemma InDecision(s: Sys, q: nat)
    requires Inv(s) && q in s.procs && DecidePc(s.procs[q].pc)
    ensures var x := s.procs[q];
      && !x.gone && x.since <= |s.log| && Startable(x.op) && Agrees(s, Key(x))
      && (x.pc != NotFound ==> Located(s, x))
      && (x.pc == NotFound ==> Key(x) !in s.loc)
      && (x.pc == Overwriting ==> x.op.StoreCall? && x.op.flag != DB_INSERT)
  {
    hide Inv, ChainOf, GoodCall, Agrees, Located;
    InCall(s, q);
    KeyAgrees(s, q);
  }

  lemma NotThere(m: map<string, string>, key: string)
    requires key !in m
    ensures m - {key} == m
  {
  }

  /** What a call that ends at its decision answers, and that it leaves the table alone. */
  lemma DecisionAnswers(s: Sys, q: nat)
    requires Inv(s) && q in s.procs && (s.procs[q].pc == Found || s.procs[q].pc == NotFound)
    ensures var x := s.procs[q];
      && (x.pc == Found ==> Located(s, x))
      && (x.pc == Found && x.op.FetchCall? ==>
            Reply(s.abs, x.op) == Data(Option.Some(s.recs[x.cur].data)) && After(s.abs, x.op) == s.abs)
      && (x.pc == Found && x.op.StoreCall? && x.op.flag == DB_INSERT ==>
            Reply(s.abs, x.op) == Code(1) && After(s.abs, x.op) == s.abs)
      && (x.pc == NotFound && x.op.FetchCall? ==>
            Reply(s.abs, x.op) == Data(Option.None) && After(s.abs, x.op) == s.abs)
      && (x.pc == NotFound && x.op.DeleteCall? ==>
            Reply(s.abs, x.op) == Code(-1) && After(s.abs, x.op) == s.abs)
      && (x.pc == NotFound && x.op.StoreCall? && x.op.flag == DB_REPLACE ==>
            Reply(s.abs, x.op) == Code(-1) && After(s.abs, x.op) == s.abs)
  {
    hide Inv, ChainOf, GoodCall, At;
    InDecision(s, q);
    if s.procs[q].pc == NotFound { NotThere(s.abs, Key(s.procs[q])); }
  }

  /** A call goes on after its decision. */
  predicate GoesOn(x: Local, y: Local) {
    || (x.pc == Found && y == x.(pc := DelLock) && Removes(x))
    || (x.pc == Found && y == x.(pc := Overwriting) && x.op.StoreCall? && x.op.flag != DB_INSERT)
    || (x.pc == NotFound && y == x.(pc := InsHead) && x.op.StoreCall? && x.op.flag != DB_REPLACE)
  }

  lemma ReadyToGoOn(s: Sys, q: nat, x: Local, y: Local)
    requires Shaped(s) && Ready(s, q, x) && GoesOn(x, y)
    ensures Ready(s, q, y) && Plain(x, y)
  {
    hide ChainOf, GoodCall;
  }

  lemma GoOn(s: Sys, q: nat, y: Local)
    requires Inv(s) && q in s.procs && GoesOn(s.procs[q], y)
    ensures GoodStep(s, Put(s, q, y), q)
  {
    hide Inv, ChainOf, GoodCall, GoodStep, Ready, GoesOn, Plain;
    InCall(s, q);
    ReadyToGoOn(s, q, s.procs[q], y);
    PlainKeeps(s, Option.Some(Put(s, q, y)), q);
  }

  lemma DecideKeeps(s: Sys, q: nat)
    requires Inv(s) && q in s.procs && (s.procs[q].pc == Found || s.procs[q].pc == NotFound)
    ensures DecideStep(s, q).Some? && GoodStep(s, DecideStep(s, q).value, q)
  {
    hide Inv, ChainOf, GoodCall, GoodStep, Reply, After, Agrees, At, StoreFlag;
    var x := s.procs[q];
    InCall(s, q);
    InDecision(s, q);
    DecisionAnswers(s, q);
    match x.op
    case FetchCall(_) =>
      AnswerKeeps(s, q, Reply(s.abs, x.op));
    case DeleteCall(_) =>
      if x.pc == Found { GoOn(s, q, x.(pc := DelLock)); } else { AnswerKeeps(s, q, Reply(s.abs, x.op)); }
    case StoreCall(_, data, flag) =>
      if x.pc == Found && flag != DB_INSERT {
        GoOn(s, q, x.(pc := if |data| != x.len then DelLock else Overwriting));
      } else if x.pc == NotFound && flag != DB_REPLACE {
        GoOn(s, q, x.(pc := InsHead));
      } else {
        AnswerKeeps(s, q, Reply(s.abs, x.op));
      }
  }
}
