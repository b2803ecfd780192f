/** Python's `s[start:end]` with step 1: negative bounds count from the end, and bounds
    beyond either end are clamped. */
module PySlice {
  /** Where a slice bound lands in a sequence of length `n`. */
  function Bound(i: int, n: nat): (j: nat)
    ensures j <= n
    ensures 0 <= i <= n ==> j == i
    ensures i > n ==> j == n
    ensures i < 0 ==> j == if i + n < 0 then 0 else i + n
  {
    if i < 0 then (if i + n < 0 then 0 else i + n)
    else if i > n then n
    else i
  }

  /** `s[start:end]`. */
  function Slice<T>(s: seq<T>, start: int, end: int): (r: seq<T>)
    ensures |r| <= |s|
    ensures 0 <= start <= end <= |s| ==> r == s[start..end]
    ensures 0 <= start && 0 <= end <= start ==> r == []
    ensures 0 <= start <= |s| <= end ==> r == s[start..]
    ensures |s| <= start ==> r == []
  {
    var a := Bound(start, |s|);
    var b := Bound(end, |s|);
    if a <= b then s[a..b] else []
  }

  /** `s[:end]`. */
  function Prefix<T>(s: seq<T>, end: int): (r: seq<T>)
    ensures 0 <= end <= |s| ==> r == s[..end]
    ensures |s| <= end ==> r == s
    ensures end < 0 ==> r == s[..Bound(end, |s|)]
  {
    Slice(s, 0, end)
  }
}
