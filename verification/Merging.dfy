/** Merging the ranges that the threads behind a barrier have sorted. */
module Merging {
  const LONG_MAX: int := 0x7fff_ffff_ffff_ffff

  predicate Sorted(s: seq<int>) {
    forall i, j :: 0 <= i < j < |s| ==> s[i] <= s[j]
  }

  // ---------- what is left of sorted ranges ----------

  function Left(rests: seq<seq<int>>): multiset<int> {
    if rests == [] then multiset{} else Left(rests[..|rests| - 1]) + multiset(rests[|rests| - 1])
  }

  lemma {:induction false} TakeOne(rests: seq<seq<int>>, m: nat)
    requires m < |rests| && rests[m] != []
    ensures Left(rests) == Left(rests[m := rests[m][1..]]) + multiset{rests[m][0]}
  {
    var k := |rests| - 1;
    var after := rests[m := rests[m][1..]];
    assert rests[m] == [rests[m][0]] + rests[m][1..];
    if m == k {
      assert after[..k] == rests[..k];
    } else {
      TakeOne(rests[..k], m);
      assert after[..k] == rests[..k][m := rests[m][1..]];
    }
  }

  lemma {:induction false} InLeft(rests: seq<seq<int>>, v: int)
    requires v in Left(rests)
    ensures exists i :: 0 <= i < |rests| && v in rests[i]
  {
    var k := |rests| - 1;
    if v in Left(rests[..k]) {
      InLeft(rests[..k], v);
      var i :| 0 <= i < k && v in rests[..k][i];
      assert v in rests[i];
    } else {
      assert v in rests[k];
    }
  }

  predicate HasNext(rests: seq<seq<int>>, i: nat)
    requires i < |rests|
  {
    rests[i] != [] && rests[i][0] < LONG_MAX
  }

  /** `r` is the first range with the least next number, among those below `LONG_MAX`. */
  predicate IsLeast(rests: seq<seq<int>>, r: nat) {
    && r < |rests| && HasNext(rests, r)
    && (forall i :: 0 <= i < |rests| && rests[i] != [] ==> rests[r][0] <= rests[i][0])
    && forall i :: 0 <= i < r && rests[i] != [] ==> rests[r][0] < rests[i][0]
  }

  /** A number that is not above the next one of any range is not above any that is left. */
  lemma LeastOfLeft(rests: seq<seq<int>>, r: nat, v: int)
    requires (forall i :: 0 <= i < |rests| ==> Sorted(rests[i])) && IsLeast(rests, r) && v in Left(rests)
    ensures rests[r][0] <= v
  {
    InLeft(rests, v);
    var i :| 0 <= i < |rests| && v in rests[i];
    var k :| 0 <= k < |rests[i]| && rests[i][k] == v;
    assert rests[i][0] <= rests[i][k];
  }

  lemma SomeNext(rests: seq<seq<int>>)
    requires |Left(rests)| > 0 && forall v :: v in Left(rests) ==> v < LONG_MAX
    ensures exists i :: 0 <= i < |rests| && HasNext(rests, i)
  {
    hide Left;
    var i := SomeRest(rests);
    NextIsLeft(rests, i);
    assert HasNext(rests, i);
  }

  lemma {:induction false} SomeRest(rests: seq<seq<int>>) returns (i: nat)
    requires |Left(rests)| > 0
    ensures i < |rests| && rests[i] != []
  {
    i := |rests| - 1;
    if rests[i] == [] { i := SomeRest(rests[..i]); }
  }

  lemma {:induction false} NextIsLeft(rests: seq<seq<int>>, i: nat)
    requires i < |rests| && rests[i] != []
    ensures rests[i][0] in Left(rests)
  {
    TakeOne(rests, i);
  }

  // ---------- ranges of an array ----------

  /** Where range `i` starts, if each is `t` long. */
  function Start(i: nat, t: nat): nat {
    if i == 0 then 0 else Start(i - 1, t) + t
  }

  lemma {:induction false} StartIs(i: nat, t: nat)
    ensures Start(i, t) == i * t
  {
    if i > 0 { StartIs(i - 1, t); }
  }

  /** `at` is within range `i` or at its end, and `rest` is what the range has from there on. */
  predicate Points(nums: seq<int>, at: nat, rest: seq<int>, i: nat, t: nat) {
    Start(i, t) <= at <= Start(i + 1, t) <= |nums| && rest == nums[at..Start(i + 1, t)]
  }

  predicate AllPoint(nums: seq<int>, idx: seq<nat>, rests: seq<seq<int>>, t: nat) {
    |idx| == |rests| && forall i :: 0 <= i < |rests| ==> Points(nums, idx[i], rests[i], i, t)
  }

  /** The ranges of an array. */
  function Ranges(nums: seq<int>, n: nat, t: nat): (r: seq<seq<int>>)
    requires Start(n, t) <= |nums|
    ensures |r| == n
  {
    if n == 0 then [] else Ranges(nums, n - 1, t) + [nums[Start(n - 1, t)..Start(n, t)]]
  }

  lemma {:induction false} RangesPoint(nums: seq<int>, n: nat, t: nat)
    requires Start(n, t) <= |nums|
    ensures forall i :: 0 <= i < n ==> Points(nums, Start(i, t), Ranges(nums, n, t)[i], i, t)
    ensures Left(Ranges(nums, n, t)) == multiset(nums[..Start(n, t)])
  {
    if n > 0 {
      RangesPoint(nums, n - 1, t);
      assert Ranges(nums, n, t)[..n - 1] == Ranges(nums, n - 1, t);
      assert nums[..Start(n, t)] == nums[..Start(n - 1, t)] + nums[Start(n - 1, t)..Start(n, t)];
    }
  }

  /** The first range with the least next number, or `minidx` as it was if there is none below
      `LONG_MAX`. */
  method Smallest(nums: array<int>, idx: array<nat>, t: nat, minidx: nat, ghost rests: seq<seq<int>>)
    returns (r: nat)
    requires AllPoint(nums[..], idx[..], rests, t)
    ensures if exists i :: 0 <= i < |rests| && HasNext(rests, i) then IsLeast(rests, r) else r == minidx
  {
    hide Start;
    var num := LONG_MAX;
    r := minidx;
    for i := 0 to idx.Length
      invariant num <= LONG_MAX && (num == LONG_MAX ==> r == minidx)
      invariant num < LONG_MAX ==> r < i && rests[r] != [] && num == rests[r][0]
      invariant forall j :: 0 <= j < i && rests[j] != [] ==> num <= rests[j][0]
      invariant num < LONG_MAX ==> forall j :: 0 <= j < r && rests[j] != [] ==> num < rests[j][0]
    {
      StartIs(i + 1, t);
      assert Points(nums[..], idx[..][i], rests[i], i, t);
      if idx[i] < (i + 1) * t && nums[idx[i]] < num {
        num := nums[idx[i]];
        r := i;
      }
    }
  }

  lemma MoveOn(nums: seq<int>, idx: seq<nat>, rests: seq<seq<int>>, t: nat, m: nat)
    requires AllPoint(nums, idx, rests, t) && m < |rests| && rests[m] != []
    ensures idx[m] < |nums| && nums[idx[m]] == rests[m][0]
    ensures AllPoint(nums, idx[m := idx[m] + 1], rests[m := rests[m][1..]], t)
  {
    hide Start;
    assert Points(nums, idx[m], rests[m], m, t);
  }

  /** The output so far, and what is left, are the input; nothing left is below the output. */
  predicate Merged(out: seq<int>, rests: seq<seq<int>>, all: seq<int>) {
    && multiset(out) + Left(rests) == multiset(all) && Sorted(out)
    && (forall i :: 0 <= i < |rests| ==> Sorted(rests[i]))
    && forall k, v :: 0 <= k < |out| && v in Left(rests) ==> out[k] <= v
  }

  lemma MergedMore(out: seq<int>, rests: seq<seq<int>>, all: seq<int>, r: nat)
    requires Merged(out, rests, all) && IsLeast(rests, r)
    ensures Merged(out + [rests[r][0]], rests[r := rests[r][1..]], all)
  {
    hide Left;
    var v, after := rests[r][0], rests[r := rests[r][1..]];
    TakeOne(rests, r);
    assert v in Left(rests);
    forall w | w in Left(after) ensures v <= w {
      assert w in Left(rests);
      LeastOfLeft(rests, r, w);
    }
  }

  lemma MergedNext(out: seq<int>, rests: seq<seq<int>>, all: seq<int>)
    requires Merged(out, rests, all) && |out| < |all| && forall k :: 0 <= k < |all| ==> all[k] < LONG_MAX
    ensures exists i :: 0 <= i < |rests| && HasNext(rests, i)
  {
    hide Left;
    assert |multiset(out)| == |out| && |multiset(all)| == |all|;
    forall v | v in Left(rests) ensures v < LONG_MAX {
      assert v in multiset(all);
      assert v in all;
    }
    SomeNext(rests);
  }

  lemma MergedAll(out: seq<int>, rests: seq<seq<int>>, all: seq<int>)
    requires Merged(out, rests, all) && |out| == |all|
    ensures multiset(out) == multiset(all) && forall i, j :: 0 <= i < j < |out| ==> out[i] <= out[j]
  {
    hide Left;
    assert |multiset(out)| == |out| && |multiset(all)| == |all|;
    assert |Left(rests)| == 0;
  }

  method Merge(nums: array<int>, snums: array<int>, n: nat, t: nat)
    requires nums.Length == Start(n, t) == snums.Length && snums != nums
    requires forall i :: 0 <= i < n ==> Sorted(Ranges(nums[..], n, t)[i])
    requires forall k :: 0 <= k < nums.Length ==> nums[k] < 9223372036854775807
    modifies snums
    ensures forall i, j :: 0 <= i < j < snums.Length ==> snums[i] <= snums[j]
    ensures multiset(snums[..]) == multiset(nums[..])
  {
    hide Start, Left, Sorted, Ranges, Merged, IsLeast, HasNext;
    var idx := new nat[n];
    for i := 0 to n
      invariant forall j :: 0 <= j < i ==> idx[j] == Start(j, t)
    {
      StartIs(i, t);
      idx[i] := i * t;
    }
    ghost var all, rests := nums[..], Ranges(nums[..], n, t);
    MergeStarts(all, n, t, idx[..]);
    var minidx: nat := 0;
    for sidx := 0 to nums.Length
      invariant nums[..] == all && AllPoint(all, idx[..], rests, t) && Merged(snums[..sidx], rests, all)
    {
      MergedNext(snums[..sidx], rests, all);
      minidx := Smallest(nums, idx, t, minidx, rests);
      TheLeast(rests, minidx);
      MoveOn(all, idx[..], rests, t, minidx);
      MergedMore(snums[..sidx], rests, all, minidx);
      ghost var before := idx[..];
      snums[sidx] := nums[idx[minidx]];
      idx[minidx] := idx[minidx] + 1;
      rests := rests[minidx := rests[minidx][1..]];
      assert idx[..] == before[minidx := before[minidx] + 1];
      assert snums[..sidx + 1] == snums[..sidx] + [snums[sidx]];
    }
    ghost var out := snums[..snums.Length];
    MergedAll(out, rests, all);
    assert snums[..] == out;
    forall i, j | 0 <= i < j < snums.Length ensures snums[i] <= snums[j] {
      assert out[i] <= out[j];
    }
  }

  lemma TheLeast(rests: seq<seq<int>>, r: nat)
    requires IsLeast(rests, r)
    ensures r < |rests| && rests[r] != []
  {
  }

  lemma MergeStarts(all: seq<int>, n: nat, t: nat, idx: seq<nat>)
    requires |all| == Start(n, t) && |idx| == n && forall i :: 0 <= i < n ==> idx[i] == Start(i, t)
    requires forall i :: 0 <= i < n ==> Sorted(Ranges(all, n, t)[i])
    ensures AllPoint(all, idx, Ranges(all, n, t), t) && Merged([], Ranges(all, n, t), all)
  {
    hide Start;
    RangesPoint(all, n, t);
    assert all[..Start(n, t)] == all;
    assert multiset([]) + Left(Ranges(all, n, t)) == multiset(all);
  }
}
