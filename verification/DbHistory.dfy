/** What the answers of the table say about the calls before them. */
module DbHistory {
  import opened Options
  import opened DbRuns

  /** Call `i` was a store or a delete of the key, and was done. */
  predicate Changes(calls: seq<Call>, answers: seq<Answer>, key: string, i: nat)
    requires i < |calls| == |answers|
  {
    !calls[i].FetchCall? && calls[i].key == key && answers[i] == Code(0)
  }

  /** The last of the first `n` calls that changed the key was call `i`. */
  predicate LastChange(calls: seq<Call>, answers: seq<Answer>, n: nat, key: string, i: nat)
    requires n <= |calls| == |answers|
  {
    i < n && Changes(calls, answers, key, i) && forall j :: i < j < n ==> !Changes(calls, answers, key, j)
  }

  /** The last change of the key stored this data. */
  ghost predicate Stored(calls: seq<Call>, answers: seq<Answer>, n: nat, key: string, data: string)
    requires n <= |calls| == |answers|
  {
    exists i :: 0 <= i < n && LastChange(calls, answers, n, key, i) && calls[i].StoreCall? && calls[i].data == data
  }

  /** The answer of call `n`: a fetch gives the data stored last, a delete 0 if there was something to
      delete, and a store 0 unless it was to insert a key that is there, to replace one that is not, or has
      no valid flag. */
  ghost predicate Truthful(calls: seq<Call>, answers: seq<Answer>, n: nat)
    requires n < |calls| == |answers|
  {
    var key := calls[n].key;
    var there := exists data :: Stored(calls, answers, n, key, data);
    match calls[n]
    case FetchCall(_) =>
      && answers[n].Data? && (answers[n].found == None <==> !there)
      && (answers[n].found.Some? ==> Stored(calls, answers, n, key, answers[n].found.value))
    case DeleteCall(_) => answers[n] == Code(if there then 0 else -1)
    case StoreCall(_, _, flag) =>
      answers[n] == Code(if flag == 1 then (if there then 1 else 0)
                         else if flag == 2 then (if there then 0 else -1)
                         else if flag == 3 then 0 else -1)
  }

  lemma {:induction false} RepliesAt(calls: seq<Call>, n: nat)
    requires n < |calls|
    ensures Replies(map[], calls)[n] == Reply(AfterAll(map[], calls[..n]), calls[n])
    decreases |calls|
  {
    hide Reply, AfterAll;
    var front := calls[..|calls| - 1];
    if n < |front| {
      RepliesAt(front, n);
      assert front[..n] == calls[..n];
    }
  }

  /** One call more: the last change is that call, or the one it was before. */
  lemma StoredMore(calls: seq<Call>, answers: seq<Answer>, n: nat, key: string, data: string)
    requires n < |calls| == |answers|
    ensures Stored(calls, answers, n + 1, key, data) <==>
      if Changes(calls, answers, key, n) then calls[n].StoreCall? && calls[n].data == data
      else Stored(calls, answers, n, key, data)
  {
    hide Changes;
    if Changes(calls, answers, key, n) {
      assert LastChange(calls, answers, n + 1, key, n);
    } else if Stored(calls, answers, n, key, data) {
      var i :| 0 <= i < n && LastChange(calls, answers, n, key, i) && calls[i].StoreCall? && calls[i].data == data;
      assert LastChange(calls, answers, n + 1, key, i);
    }
  }

  /** The table holds the keys whose last change was a store, each with the data stored then. */
  lemma {:induction false} TableIsHistory(calls: seq<Call>, n: nat, key: string, data: string)
    requires n <= |calls|
    ensures var m := AfterAll(map[], calls[..n]);
            Stored(calls, Replies(map[], calls), n, key, data) <==> key in m && m[key] == data
  {
    hide Replies, Stored;
    var a := Replies(map[], calls);
    if n == 0 {
      NothingStored(calls, a, key, data);
    } else {
      TableIsHistory(calls, n - 1, key, data);
      StoredMore(calls, a, n - 1, key, data);
      RepliesAt(calls, n - 1);
      assert calls[..n][..n - 1] == calls[..n - 1];
    }
  }

  lemma NothingStored(calls: seq<Call>, answers: seq<Answer>, key: string, data: string)
    requires |calls| == |answers|
    ensures !Stored(calls, answers, 0, key, data)
  {
  }

  /** Every answer of the table is the one that the calls before it, and their answers, call for. */
  lemma AnswersAreTrue(calls: seq<Call>, n: nat)
    requires n < |calls|
    ensures Truthful(calls, Replies(map[], calls), n)
  {
    hide Replies, AfterAll, Stored;
    var m, key := AfterAll(map[], calls[..n]), calls[n].key;
    forall data ensures Stored(calls, Replies(map[], calls), n, key, data) <==> key in m && m[key] == data {
      TableIsHistory(calls, n, key, data);
    }
    if key in m { assert Stored(calls, Replies(map[], calls), n, key, m[key]); }
    RepliesAt(calls, n);
  }
}
