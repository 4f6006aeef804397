/** The two JavaScript array built-ins the route handlers rely on, with their
    out-of-range behaviour written out. */
module JsArrays {

  /** `s.indexOf(x)` under strict equality: the first index holding `x`, or -1. */
  function IndexOf<T(==)>(s: seq<T>, x: T): (i: int)
    ensures -1 <= i < |s|
    ensures i == -1 <==> x !in s
    ensures 0 <= i ==> s[i] == x && x !in s[..i]
  {
    if |s| == 0 then -1
    else if s[0] == x then 0
    else
      var j := IndexOf(s[1..], x);
      if j == -1 then -1 else j + 1
  }

  /** The array left behind by `s.splice(start, 1)`. A negative `start` counts
      back from the end (clamped at 0); a `start` at or past the end removes
      nothing. */
  function Splice1<T>(s: seq<T>, start: int): (r: seq<T>)
    ensures 0 <= start < |s| ==>
      |r| == |s| - 1 &&
      (forall j :: 0 <= j < start ==> r[j] == s[j]) &&
      (forall j :: start <= j < |r| ==> r[j] == s[j + 1])
    ensures start >= |s| ==> r == s
    ensures start < 0 ==> r == Splice1(s, if |s| + start < 0 then 0 else |s| + start)
    decreases if start < 0 then 1 else 0
  {
    var k := if start >= 0 then start else if |s| + start < 0 then 0 else |s| + start;
    if k < |s| then s[..k] + s[k + 1..] else s
  }
}
