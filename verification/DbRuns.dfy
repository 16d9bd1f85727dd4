/** Whole runs of the library: any sequence of calls behaves like a finite map, and a full scan lists
    that map. */
module DbRuns {
  import opened Options
  import opened CStrings
  import opened Decimal
  import opened DbFormat
  import opened DbImage
  import opened DbLists
  import opened DbHeap
  import opened DbMoves
  import opened Database

  datatype Call = FetchCall(key: string) | DeleteCall(key: string) | StoreCall(key: string, data: string, flag: int)

  datatype Answer = Data(found: Option<string>) | Code(rc: int)

  /** What a caller must respect: C strings. */
  predicate GoodCall(c: Call) {
    match c
    case FetchCall(key) => Text(key)
    case DeleteCall(key) => Text(key)
    case StoreCall(key, data, _) => Text(key) && Text(data)
  }

  // ---------- the table every run refines ----------

  function Reply(m: map<string, string>, c: Call): Answer {
    match c
    case FetchCall(key) => Data(if key in m then Some(m[key]) else None)
    case DeleteCall(key) => Code(if key in m then 0 else -1)
    case StoreCall(key, _, flag) => Code(StoreCode(m, key, flag))
  }

  function After(m: map<string, string>, c: Call): map<string, string> {
    match c
    case FetchCall(_) => m
    case DeleteCall(key) => m - {key}
    case StoreCall(key, data, flag) => StoreView(m, key, data, flag)
  }

  /** The table after a sequence of calls. */
  function AfterAll(m: map<string, string>, calls: seq<Call>): map<string, string> {
    if calls == [] then m else After(AfterAll(m, calls[..|calls| - 1]), calls[|calls| - 1])
  }

  /** The answers the table gives to a sequence of calls. */
  function Replies(m: map<string, string>, calls: seq<Call>): (a: seq<Answer>)
    ensures |a| == |calls|
  {
    if calls == [] then [] else
    var front := calls[..|calls| - 1];
    Replies(m, front) + [Reply(AfterAll(m, front), calls[|calls| - 1])]
  }

  /** The call looks for a key on a chain that holds a key with a separator. */
  ghost predicate Barred(m: map<string, string>, c: Call) {
    Closed(m, c.key) && (c.StoreCall? ==> StoreFlag(c.flag))
  }

  /** None of the first `n` calls is barred in the table that the calls before it leave. */
  ghost predicate OpenUpTo(calls: seq<Call>, n: nat)
    requires n <= |calls|
  {
    forall j :: 0 <= j < n ==> !Barred(AfterAll(map[], calls[..j]), calls[j])
  }

  lemma NoneYet(calls: seq<Call>)
    ensures OpenUpTo(calls, 0)
  {
  }

  lemma OneMore(calls: seq<Call>, n: nat)
    requires n < |calls| && OpenUpTo(calls, n)
    ensures !Barred(AfterAll(map[], calls[..n]), calls[n]) ==> OpenUpTo(calls, n + 1)
    ensures AfterAll(map[], calls[..n + 1]) == After(AfterAll(map[], calls[..n]), calls[n])
    ensures Replies(map[], calls[..n + 1])
         == Replies(map[], calls[..n]) + [Reply(AfterAll(map[], calls[..n]), calls[n])]
  {
    hide After, Reply, Barred;
    assert calls[..n + 1][..n] == calls[..n];
  }

  /** What is left of the table when this call ended the process. */
  ghost function AfterHalt(m: map<string, string>, c: Call): map<string, string> {
    if c.StoreCall? && DataText(c.data) && !Barred(m, c) then m - {c.key} else m
  }

  /** One call, dispatched. It ends the process if its chain holds a key with a separator; otherwise
      only in a store whose data length is bad, or that has to append a record that does not fit. */
  method Perform(db: Db, c: Call) returns (r: Exit<Answer>)
    requires db.Valid() && GoodCall(c)
    modifies db
    ensures r.Done? ==> db.Valid() && r.value == Reply(old(db.Contents()), c)
    ensures r.Done? ==> db.Contents() == After(old(db.Contents()), c)
    ensures r.Done? ==> |db.idx| <= |old(db.idx)| + RECORD_MAX && |db.dat| <= |old(db.dat)| + DATLEN_MAX
    ensures Barred(old(db.Contents()), c) ==> r.Halted?
    ensures r.Halted? && !Barred(old(db.Contents()), c) ==>
      c.StoreCall? && (!DataText(c.data) || !CanAppend(old(db.h), c.key, c.data))
    ensures r.Halted? ==> db.Left() && db.Survivors() == AfterHalt(old(db.Contents()), c)
  {
    hide Inv, NoLimbo, Fronted, Closed, CanAppend, View;
    db.ValidIsLeft();
    match c
    case FetchCall(key) =>
      var found := db.Fetch(key);
      db.ValidIsLeft();
      r := if found.Done? then Done(Data(found.value)) else Halted;
    case DeleteCall(key) =>
      var rc := db.Delete(key);
      db.ValidIsLeft();
      r := if rc.Done? then Done(Code(rc.value)) else Halted;
    case StoreCall(key, data, flag) =>
      var rc := db.Store(key, data, flag);
      r := if rc.Done? then Done(Code(rc.value)) else Halted;
  }

  /** Any run on a newly created database, whatever its keys, up to the call that ends the process if
      there is one, answers like the finite map and leaves the files standing for it. A call that meets a
      key with a separator on its chain ends the process, no call before it does; the call that ends it
      loses its own key at most. */
  method Run(calls: seq<Call>) returns (answers: seq<Answer>, db: Db)
    requires forall c :: c in calls ==> GoodCall(c)
    ensures |answers| <= |calls| && answers == Replies(map[], calls[..|answers|])
    ensures OpenUpTo(calls, |answers|)
    ensures |answers| < |calls| ==>
      calls[|answers|].StoreCall? || Barred(AfterAll(map[], calls[..|answers|]), calls[|answers|])
    ensures |answers| < |calls| ==>
      db.Left() && db.Survivors() == AfterHalt(AfterAll(map[], calls[..|answers|]), calls[|answers|])
    ensures |answers| == |calls| ==> db.Valid() && db.Contents() == AfterAll(map[], calls)
    ensures Modest(calls) ==> |answers| == |calls|
    ensures fresh(db)
  {
    hide Holds, NoLimbo, Fronted, Barred, OpenUpTo, CanAppend, View, RenderIdx, RenderDat, Reply, After, Modest;
    NoneYet(calls);
    db := new Db.Create();
    answers := [];
    while |answers| < |calls|
      invariant |answers| <= |calls| && answers == Replies(map[], calls[..|answers|])
      invariant db.Valid() && db.Contents() == AfterAll(map[], calls[..|answers|])
      invariant OpenUpTo(calls, |answers|)
      invariant |db.idx| <= BASE + RECORD_MAX * |answers| && |db.dat| <= DATLEN_MAX * |answers|
      invariant fresh(db)
    {
      var n := |answers|;
      OneMore(calls, n);
      if Modest(calls) {
        ModestIsOpen(calls, n);
        if calls[n].StoreCall? { StoreFits(db, calls, n); }
      }
      var r := Perform(db, calls[n]);
      if r.Halted? { return; }
      answers := answers + [r.value];
    }
    assert calls[..|answers|] == calls;
  }

  /** No call gets a chain rid of a key with a separator. */
  lemma StaysClosed(m: map<string, string>, c: Call, key: string)
    requires Closed(m, key) && !Barred(m, c)
    ensures Closed(After(m, c), key)
  {
    hide Bucket;
    var k :| k in m && SEP in k && ChainOf(k) == ChainOf(key);
    assert c.key == k ==> Closed(m, c.key);
    assert k in After(m, c);
  }

  /** Once a key with a separator is stored, each later call that looks for a key of its chain ends the
      process. */
  lemma {:induction false} SeparatorBarsItsChain(calls: seq<Call>, i: nat, n: nat, c: Call)
    requires i < n <= |calls| && OpenUpTo(calls, n) && calls[i].StoreCall? && SEP in calls[i].key
    requires Reply(AfterAll(map[], calls[..i]), calls[i]) == Code(0)
    requires ChainOf(c.key) == ChainOf(calls[i].key) && (c.StoreCall? ==> StoreFlag(c.flag))
    ensures Barred(AfterAll(map[], calls[..n]), c)
    decreases n
  {
    hide Bucket, AfterAll, Replies, Reply, StoreCode;
    OneMore(calls, n - 1);
    var m := AfterAll(map[], calls[..n - 1]);
    if i < n - 1 {
      SeparatorBarsItsChain(calls, i, n - 1, c);
      StaysClosed(m, calls[n - 1], c.key);
    } else {
      StoredIsClosed(m, calls[i], c.key);
    }
  }

  lemma StoredIsClosed(m: map<string, string>, c: Call, key: string)
    requires c.StoreCall? && SEP in c.key && Reply(m, c) == Code(0) && ChainOf(c.key) == ChainOf(key)
    ensures Closed(After(m, c), key)
  {
    assert c.key in After(m, c);
  }

  // ---------- runs that cannot end the process ----------

  /** Longest key of a modest run: with seven digits of data offset and four of data length the
      index record is at its limit. */
  const KEY_MAX: nat := 1010

  /** Few enough calls for the pointer field, and stored keys and data within the record limits and the
      keys without a separator. */
  predicate Modest(calls: seq<Call>) {
    && 967 + 1035 * |calls| <= 9999999
    && forall c :: c in calls && c.StoreCall? ==>
         1 <= |c.key| <= KEY_MAX && ':' !in c.key && Text(c.data) && 1 <= |c.data| <= 1023
  }

  lemma {:induction false} NoSeparators(calls: seq<Call>)
    requires forall c :: c in calls && c.StoreCall? ==> SEP !in c.key
    ensures forall k :: k in AfterAll(map[], calls) ==> SEP !in k
  {
    if calls != [] {
      NoSeparators(calls[..|calls| - 1]);
      assert calls[|calls| - 1] in calls;
    }
  }

  lemma ModestIsOpen(calls: seq<Call>, n: nat)
    requires Modest(calls) && n < |calls|
    ensures !Barred(AfterAll(map[], calls[..n]), calls[n])
  {
    hide AfterAll, Bucket;
    NoSeparators(calls[..n]);
  }

  lemma TextSize(key: string, datoff: nat, datlen: nat)
    requires 1 <= |key| <= KEY_MAX && datoff < 10000000 && datlen < 10000
    ensures IDXLEN_MIN <= |RecText(key, datoff, datlen)| <= IDXLEN_MAX
  {
    assert Pow10(7) == 10000000 by {
      assert Pow10(3) == 1000;
      assert Pow10(5) == 100000;
    }
    assert Pow10(4) == 10000;
    DecWidth(datoff, 7);
    DecWidth(datlen, 4);
  }

  lemma ModestFits(h: Heap, calls: seq<Call>, n: nat)
    requires Modest(calls) && n < |calls| && calls[n].StoreCall?
    requires |RenderIdx(h)| <= BASE + RECORD_MAX * n && |RenderDat(h.recs)| <= DATLEN_MAX * n
    ensures DataText(calls[n].data) && CanAppend(h, calls[n].key, calls[n].data)
  {
    var c := calls[n];
    assert c in calls;
    hide RecText, RenderIdx, RenderDat;
    TextSize(c.key, |RenderDat(h.recs)|, |c.data| + 1);
  }

  lemma StoreFits(db: Db, calls: seq<Call>, n: nat)
    requires db.Valid() && Modest(calls) && n < |calls| && calls[n].StoreCall?
    requires |db.idx| <= BASE + RECORD_MAX * n && |db.dat| <= DATLEN_MAX * n
    ensures DataText(calls[n].data) && CanAppend(db.h, calls[n].key, calls[n].data)
  {
    hide Inv, NoLimbo, Fronted, Modest, CanAppend, RenderIdx, RenderDat;
    ModestFits(db.h, calls, n);
  }

  // ---------- reading everything ----------

  /** A caller's loop over `db_nextrec` from `db_rewind` to the end of the file: every live record whose
      key is not blank, each once, unless a key with a separator ends the process on the way. */
  method Scan(db: Db) returns (all: seq<(string, string)>, done: bool)
    requires db.Valid()
    modifies db`idxpos, db`idxoff, db`ptrval, db`idxlen, db`idxbuf, db`datoff, db`datlen, db`datbuf
    ensures db.Valid() && all <= Listing(db.h.recs, 0) && Lists(Listing(db.h.recs, 0), db.Contents())
    ensures done ==> all == Listing(db.h.recs, 0)
    ensures done <==> forall key :: key in db.Contents() ==> ':' !in key
    ensures forall e :: e in all ==>
      e.0 in db.Contents() && e.1 == db.Contents()[e.0] && exists i :: 0 <= i < |e.0| && e.0[i] != ' '
    ensures done ==> forall key, i :: key in db.Contents() && 0 <= i < |key| && key[i] != ' ' ==>
      (key, db.Contents()[key]) in all
    ensures forall i, j :: 0 <= i < j < |all| ==> all[i].0 != all[j].0
  {
    hide Inv, NoLimbo, Fronted, RenderIdx, RenderDat, IdxOff, DatOff, View, Lists;
    ContentsListed(db);
    db.Rewind();
    db.CursorAtStart();
    ghost var c: nat := 0;
    all := [];
    while true
      invariant db.Valid() && db.Cursor(c) && c <= |db.h.recs|
      invariant all + Listing(db.h.recs, c) == Listing(db.h.recs, 0)
      invariant forall e :: e in all ==> SEP !in e.0
      decreases |db.h.recs| - c
    {
      var r;
      ghost var c';
      r, c' := db.NextRec(c);
      if r.Halted? {
        FoulListed(Listing(db.h.recs, 0), db.Contents(), Listing(db.h.recs, c)[0]);
        ScanIs(all, Listing(db.h.recs, 0), db.Contents());
        return all, false;
      }
      if r.value.None? { break; }
      all := all + [r.value.value];
      c := c';
    }
    assert all == Listing(db.h.recs, 0);
    CleanList(all, db.Contents());
    ScanIs(all, Listing(db.h.recs, 0), db.Contents());
    done := true;
  }

  /** What a front of the listing says of the map, key by key. */
  lemma ScanIs(all: seq<(string, string)>, listing: seq<(string, string)>, m: map<string, string>)
    requires Lists(listing, m) && all <= listing
    ensures forall e :: e in all ==> e.0 in m && e.1 == m[e.0] && exists i :: 0 <= i < |e.0| && e.0[i] != ' '
    ensures all == listing ==> forall key, i :: key in m && 0 <= i < |key| && key[i] != ' ' ==> (key, m[key]) in all
    ensures forall i, j :: 0 <= i < j < |all| ==> all[i].0 != all[j].0
  {
    forall e | e in all ensures e.0 in m && e.1 == m[e.0] && exists i :: 0 <= i < |e.0| && e.0[i] != ' ' {
      assert e in listing && !Blank(e.0);
    }
  }

  lemma FoulListed(all: seq<(string, string)>, m: map<string, string>, e: (string, string))
    requires Lists(all, m) && e in all
    ensures e.0 in m
  {
  }

  lemma CleanList(all: seq<(string, string)>, m: map<string, string>)
    requires Lists(all, m) && forall e :: e in all ==> SEP !in e.0
    ensures forall key :: key in m ==> SEP !in key
  {
    forall key | key in m ensures SEP !in key {
      if !Blank(key) {
        var e := (key, m[key]);
        assert e in all;
      }
    }
  }

  lemma ContentsListed(db: Db)
    requires db.Valid()
    ensures Lists(Listing(db.h.recs, 0), db.Contents())
  {
    assert Placed(db.h, db.g);
    hide Inv, Placed, Listing;
    ListingIsContents(db.h, db.g);
  }

  /** `all` is the content of `m`, blank keys aside: every entry is a key of `m` with its data, every
      key of `m` that is not blank is there, and none is there twice. */
  ghost predicate Lists(all: seq<(string, string)>, m: map<string, string>) {
    && (forall e :: e in all ==> !Blank(e.0) && e.0 in m && m[e.0] == e.1)
    && (forall key :: key in m && !Blank(key) ==> (key, m[key]) in all)
    && (forall i, j :: 0 <= i < j < |all| ==> all[i].0 != all[j].0)
  }

  lemma {:induction false} ListingElements(recs: seq<Rec>, c: nat, e: (string, string))
    ensures e in Listing(recs, c) <==>
      exists i :: c <= i < |recs| && !Blank(recs[i].key) && recs[i].key == e.0 && recs[i].data == e.1
    decreases |recs| - c
  {
    if c < |recs| {
      ListingElements(recs, c + 1, e);
    }
  }

  lemma {:induction false} ListingDistinct(recs: seq<Rec>, c: nat)
    requires forall i, j :: 0 <= i < j < |recs| && !Blank(recs[i].key) ==> recs[i].key != recs[j].key
    ensures var all := Listing(recs, c); forall i, j :: 0 <= i < j < |all| ==> all[i].0 != all[j].0
    decreases |recs| - c
  {
    if c < |recs| {
      ListingDistinct(recs, c + 1);
      var rest := Listing(recs, c + 1);
      forall j | 0 <= j < |rest| && !Blank(recs[c].key) ensures rest[j].0 != recs[c].key {
        ListingElements(recs, c + 1, rest[j]);
      }
    }
  }

  lemma LiveRecord(h: Heap, g: Shape, i: nat)
    requires Placed(h, g) && NoLimbo(g) && i < |h.recs| && !Blank(h.recs[i].key)
    ensures h.recs[i].key in g.loc && g.loc[h.recs[i].key] == i
  {
    assert RecordPlaced(h.recs, g, i);
  }

  /** A scan lists exactly the live records whose keys are not blank, each once. */
  lemma ListingIsContents(h: Heap, g: Shape)
    requires Placed(h, g) && NoLimbo(g)
    ensures forall key :: key in g.loc ==> g.loc[key] < |h.recs|
    ensures Lists(Listing(h.recs, 0), View(h.recs, g))
  {
    KeysInRange(h, g);
    var all, m := Listing(h.recs, 0), View(h.recs, g);
    forall e | e in all ensures !Blank(e.0) && e.0 in m && m[e.0] == e.1 {
      ListingElements(h.recs, 0, e);
      var i :| 0 <= i < |h.recs| && !Blank(h.recs[i].key) && h.recs[i].key == e.0 && h.recs[i].data == e.1;
      LiveRecord(h, g, i);
    }
    forall key | key in m && !Blank(key) ensures (key, m[key]) in all {
      assert KeyPlaced(h.recs, g, key);
      ListingElements(h.recs, 0, (key, m[key]));
    }
    forall i, j | 0 <= i < j < |h.recs| && !Blank(h.recs[i].key) ensures h.recs[i].key != h.recs[j].key {
      LiveRecord(h, g, i);
      if !Blank(h.recs[j].key) { LiveRecord(h, g, j); }
    }
    ListingDistinct(h.recs, 0);
  }
}
