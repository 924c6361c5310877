/** Small shared vocabulary: an optional value and JavaScript's `Array.prototype.findIndex`
    for the equality predicates the components use. */
module Common {

  /** A value that may be absent (`undefined` / `null` in the components). */
  datatype Option<+T> = None | Some(value: T)

  /** Index of the first element equal to `x`, or -1 when there is none, as `findIndex`
      returns it. */
  function FindIndex<T(==)>(s: seq<T>, x: T): (r: int)
    ensures -1 <= r < |s|
    ensures r == -1 <==> x !in s
    ensures r >= 0 ==> s[r] == x && forall j :: 0 <= j < r ==> s[j] != x
  {
    if |s| == 0 then -1
    else if s[0] == x then 0
    else
      var k := FindIndex(s[1..], x);
      if k == -1 then -1 else k + 1
  }

  /** The first occurrence of `x` in a sequence is the one placed right after a prefix
      that does not contain it. */
  lemma FindIndexAfter<T>(prefix: seq<T>, x: T, rest: seq<T>)
    requires x !in prefix
    ensures FindIndex(prefix + [x] + rest, x) == |prefix|
  {
    var s := prefix + [x] + rest;
    assert s[|prefix|] == x;
    forall j | 0 <= j < |prefix| ensures s[j] != x {
      assert s[j] == prefix[j];
    }
  }
}
