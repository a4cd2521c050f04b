/** Python list operations that the page-window computation relies on:
    `range`-built lists, `list.index` and slicing with Python's bound rules. */
module PyList {

  function Min(a: int, b: int): int { if a <= b then a else b }
  function Max(a: int, b: int): int { if a >= b then a else b }

  /** The list `[lo, lo+1, ..., hi]`, empty when `lo > hi`. */
  function Range(lo: int, hi: int): (r: seq<int>)
    ensures |r| == Max(0, hi - lo + 1)
    ensures forall i :: 0 <= i < |r| ==> r[i] == lo + i
  {
    seq(Max(0, hi - lo + 1), i => lo + i)
  }

  /** `xs.index(x)`: the position of the first occurrence of `x`. */
  function IndexOf(xs: seq<int>, x: int): (r: nat)
    requires x in xs
    ensures r < |xs| && xs[r] == x
    ensures x !in xs[..r]
  {
    if xs[0] == x then 0
    else
      assert xs == [xs[0]] + xs[1..];
      var k := IndexOf(xs[1..], x);
      assert xs[..k + 1] == [xs[0]] + xs[1..][..k];
      k + 1
  }

  /** How Python turns a slice bound `i` into a position of a list of length `len`:
      negative bounds count from the end, and both kinds are clipped into `0..len`. */
  function PyBound(len: nat, i: int): (r: nat)
    ensures r <= len
    ensures i < 0 ==> r == Max(0, len + i)
    ensures 0 <= i ==> r == Min(i, len)
  {
    if i < 0 then (if len + i < 0 then 0 else len + i)
    else if i > len then len
    else i
  }

  /** `xs[i:]`. */
  function SliceFrom(xs: seq<int>, i: int): (r: seq<int>)
    ensures |r| <= |xs| && r == xs[|xs| - |r|..]
    ensures i < 0 ==> |r| == Min(-i, |xs|)
    ensures 0 <= i ==> |r| == Max(0, |xs| - i)
  {
    xs[PyBound(|xs|, i)..]
  }

  /** `xs[:j]`. */
  function SliceTo(xs: seq<int>, j: int): (r: seq<int>)
    ensures |r| <= |xs| && r == xs[..|r|]
    ensures 0 <= j ==> |r| == Min(j, |xs|)
    ensures j < 0 ==> |r| == Max(0, |xs| + j)
  {
    xs[..PyBound(|xs|, j)]
  }

  /** Sub-lists of a range that are themselves contiguous are ranges. */
  lemma {:induction false} RangeSlice(lo: int, hi: int, a: nat, b: nat)
    requires a <= b <= |Range(lo, hi)|
    ensures Range(lo, hi)[a..b] == Range(lo + a, lo + b - 1)
  {
    var r := Range(lo, hi);
    assert |r[a..b]| == |Range(lo + a, lo + b - 1)|;
    forall i | 0 <= i < b - a ensures r[a..b][i] == Range(lo + a, lo + b - 1)[i] { }
  }

  /** A prefix of a range is the range up to its last element. */
  lemma RangePrefix(lo: int, hi: int, p: seq<int>, last: int)
    requires |p| <= |Range(lo, hi)| && p == Range(lo, hi)[..|p|]
    requires last == lo + |p| - 1
    ensures p == Range(lo, last)
  {
    RangeSlice(lo, hi, 0, |p|);
    assert Range(lo, hi)[..|p|] == Range(lo, hi)[0..|p|];
  }

  /** A suffix of a range is the range from its first element. */
  lemma RangeSuffix(lo: int, hi: int, p: seq<int>, first: int, last: int)
    requires |p| <= |Range(lo, hi)| && p == Range(lo, hi)[|Range(lo, hi)| - |p|..]
    requires first == lo + |Range(lo, hi)| - |p| && last == lo + |Range(lo, hi)| - 1
    ensures p == Range(first, last)
  {
    var r := Range(lo, hi);
    RangeSlice(lo, hi, |r| - |p|, |r|);
    assert r[|r| - |p|..] == r[|r| - |p|..|r|];
  }

  /** Two adjacent ranges around a middle element concatenate to one range. */
  lemma {:induction false} RangeJoin(lo: int, mid: int, hi: int)
    requires lo <= mid <= hi
    ensures Range(lo, mid - 1) + [mid] + Range(mid + 1, hi) == Range(lo, hi)
  {
    var j := Range(lo, mid - 1) + [mid] + Range(mid + 1, hi);
    assert |j| == |Range(lo, hi)|;
    forall i | 0 <= i < |j| ensures j[i] == Range(lo, hi)[i] {
      if i < mid - lo {
      } else if i == mid - lo {
      } else {
        assert j[i] == Range(mid + 1, hi)[i - (mid - lo) - 1];
      }
    }
  }
}
