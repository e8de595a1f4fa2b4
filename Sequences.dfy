/** Early-exit searches over the `values()` array of an enum. */
module Sequences {
  import opened Wrappers

  /**
   * The first element of `xs` that satisfies `p`, or None: the shape of
   * `for (x : values()) if (p(x)) return x; return null;`.
   */
  function FindFirst<T>(xs: seq<T>, p: T -> bool): (r: Option<T>)
    ensures r.Some? ==> r.value in xs && p(r.value)
    ensures r.None? <==> forall k :: 0 <= k < |xs| ==> !p(xs[k])
    ensures r.Some? ==> exists k :: 0 <= k < |xs| && xs[k] == r.value && forall j :: 0 <= j < k ==> !p(xs[j])
  {
    if |xs| == 0 then None
    else if p(xs[0]) then Some(xs[0])
    else
      var r := FindFirst(xs[1..], p);
      assert r.Some? ==> exists k :: 0 <= k < |xs| && xs[k] == r.value && forall j :: 0 <= j < k ==> !p(xs[j]) by {
        if r.Some? {
          var k :| 0 <= k < |xs[1..]| && xs[1..][k] == r.value && forall j :: 0 <= j < k ==> !p(xs[1..][j]);
          assert xs[k + 1] == r.value;
          forall j | 0 <= j < k + 1 ensures !p(xs[j]) {
            if j > 0 { assert xs[j] == xs[1..][j - 1]; }
          }
        }
      }
      assert r.None? <==> forall k :: 0 <= k < |xs| ==> !p(xs[k]) by {
        if r.None? {
          forall k | 0 <= k < |xs| ensures !p(xs[k]) {
            if k > 0 { assert xs[k] == xs[1..][k - 1]; }
          }
        }
      }
      r
  }

  /** When exactly one element satisfies `p`, the search finds that element. */
  lemma FindFirstUnique<T>(xs: seq<T>, p: T -> bool, x: T)
    requires x in xs && p(x)
    requires forall y :: y in xs && p(y) ==> y == x
    ensures FindFirst(xs, p) == Some(x)
  {
    var k :| 0 <= k < |xs| && xs[k] == x;
  }

  /** An element satisfying `p` at index `i` means the search finds one at `i` or before. */
  lemma FindFirstAtOrBefore<T>(xs: seq<T>, p: T -> bool, i: int) returns (k: int)
    requires 0 <= i < |xs| && p(xs[i])
    ensures FindFirst(xs, p).Some?
    ensures 0 <= k <= i && xs[k] == FindFirst(xs, p).value
    ensures forall j :: 0 <= j < k ==> !p(xs[j])
  {
    k :| 0 <= k < |xs| && xs[k] == FindFirst(xs, p).value && forall j :: 0 <= j < k ==> !p(xs[j]);
  }
}
