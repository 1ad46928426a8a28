/** `Array.prototype.slice` as the featured-products accessor uses it, with
    ECMAScript's treatment of negative and out-of-range bounds. */
module Sequences {

  /** `a` is an initial segment of `b`. */
  predicate IsPrefix<T(==)>(a: seq<T>, b: seq<T>) {
    |a| <= |b| && a == b[..|a|]
  }

  function Min(a: int, b: int): int {
    if a <= b then a else b
  }

  /** Turns a relative slice bound into an absolute position: a negative
      bound counts back from the end, and the result is clamped to
      `0..len`. */
  function ClampBound(len: nat, bound: int): (p: nat)
    ensures p <= len
    ensures 0 <= bound ==> p == Min(bound, len)
    ensures bound < 0 && -bound <= len ==> p == len + bound
    ensures bound < 0 && len < -bound ==> p == 0
  {
    if bound < 0 then
      if len + bound < 0 then 0 else len + bound
    else if bound < len then bound else len
  }

  /** `xs.slice(start, end)` for integral bounds: the elements from the
      clamped start up to (not including) the clamped end, or nothing when
      the end comes first. */
  function Slice<T>(xs: seq<T>, start: int, end: int): (r: seq<T>)
    ensures |r| <= |xs|
    ensures ClampBound(|xs|, start) < ClampBound(|xs|, end) ==>
              r == xs[ClampBound(|xs|, start)..ClampBound(|xs|, end)]
    ensures ClampBound(|xs|, end) <= ClampBound(|xs|, start) ==> r == []
  {
    var from := ClampBound(|xs|, start);
    var to := ClampBound(|xs|, end);
    if from < to then xs[from..to] else []
  }

  /** `xs.slice(0, limit)` keeps an initial segment: the first `limit`
      elements (all of them when there are fewer) for a non-negative
      limit, and everything but the last `-limit` elements for a negative
      one. */
  lemma SliceFromZeroIsPrefix<T>(xs: seq<T>, limit: int)
    ensures IsPrefix(Slice(xs, 0, limit), xs)
    ensures 0 <= limit ==> |Slice(xs, 0, limit)| == Min(limit, |xs|)
    ensures limit < 0 ==> |Slice(xs, 0, limit)| == if |xs| + limit < 0 then 0 else |xs| + limit
  {
  }
}
