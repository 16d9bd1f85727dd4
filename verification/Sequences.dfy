/** Sequences without one of their elements, and sequences joined. */
module Sequences {
  function Without<T>(s: seq<T>, k: nat): (r: seq<T>)
    requires k < |s|
    ensures |r| == |s| - 1 && forall j :: 0 <= j < |r| ==> r[j] == s[if j < k then j else j + 1]
  {
    s[..k] + s[k + 1..]
  }

  function Concat<T>(parts: seq<seq<T>>): seq<T> {
    if parts == [] then [] else Concat(parts[..|parts| - 1]) + parts[|parts| - 1]
  }

  lemma {:induction false} ConcatFront<T>(parts: seq<seq<T>>)
    requires parts != []
    ensures Concat(parts) == parts[0] + Concat(parts[1..])
  {
    var k := |parts| - 1;
    if k == 0 {
      assert Concat(parts[..0]) == [] && Concat(parts[1..]) == [];
    } else {
      ConcatFront(parts[..k]);
      assert parts[..k][1..] == parts[1..][..k - 1];
      assert Concat(parts[1..]) == Concat(parts[1..][..k - 1]) + parts[k];
    }
  }
}
