/** The page window of `Paginator._modify_page` (utils/paginator.py): which page
    numbers are listed around the current page. Slices follow Python's rules for
    every `per_side`, including zero and negative values. */
module PageWindow {
  import opened PyList

  /** `left_side`, `right_side` and `page_range` as `_modify_page` stores them. */
  datatype Window = Window(leftSide: seq<int>, rightSide: seq<int>, pageRange: seq<int>)

  /** The four branches of `_modify_page`, in the order the code tests them. */
  datatype Branch = Symmetric | BothSaturated | LeftShort | RightShort

  /** The branch taken for sides of `lenLeft` and `lenRight` pages. The last
      branch's guard `len_right < per_side` holds whenever it is reached, so the
      four branches cover every input and both sides are always assigned. */
  function ChooseBranch(lenLeft: nat, lenRight: nat, perSide: int): (b: Branch)
    ensures b == Symmetric <==> lenLeft == perSide && lenRight == perSide
    ensures b == BothSaturated <==>
      lenLeft >= perSide && lenRight >= perSide && !(lenLeft == perSide && lenRight == perSide)
    ensures b == LeftShort <==> lenLeft < perSide
    ensures b == RightShort <==> lenLeft >= perSide && lenRight < perSide
  {
    if lenLeft == lenRight == perSide then Symmetric
    else if lenLeft >= perSide && lenRight >= perSide then BothSaturated
    else if lenLeft < perSide then LeftShort
    else RightShort
  }

  predicate IsPrefix(p: seq<int>, s: seq<int>) { |p| <= |s| && p == s[..|p|] }
  predicate IsSuffix(p: seq<int>, s: seq<int>) { |p| <= |s| && p == s[|s| - |p|..] }

  predicate StrictlyAscending(s: seq<int>) {
    forall i, j :: 0 <= i < j < |s| ==> s[i] < s[j]
  }

  predicate Within(s: seq<int>, lo: int, hi: int) {
    forall i :: 0 <= i < |s| ==> lo <= s[i] <= hi
  }

  /** `x` occurs in `s` at position `k` and nowhere else. */
  predicate OnlyAt(s: seq<int>, x: int, k: int) {
    forall i :: 0 <= i < |s| ==> (s[i] == x <==> i == k)
  }

  /** The branch body of `_modify_page`: which part of the pages left of the
      current one (`left`) and right of it (`right`) is kept. Whatever the
      branch, a suffix of `left` and a prefix of `right` are kept. */
  function KeptSides(left: seq<int>, right: seq<int>, perSide: int): (s: (seq<int>, seq<int>))
    ensures |s.0| <= |left| && s.0 == left[|left| - |s.0|..]
    ensures |s.1| <= |right| && s.1 == right[..|s.1|]
  {
    match ChooseBranch(|left|, |right|, perSide)
    case Symmetric => (left, right)
    case BothSaturated => (SliceFrom(left, -perSide), SliceTo(right, perSide))
    case LeftShort => (left, SliceTo(right, perSide * 2 - |left|))
    case RightShort => (SliceFrom(left, -(perSide * 2 - |right|)), right)
  }

  /** In the list of all pages, page `number` sits at index `number - 1`, with
      the pages before it on the left and the pages after it on the right. */
  lemma PagesAround(numPages: int, number: int)
    requires 1 <= number <= numPages
    ensures number in Range(1, numPages)
    ensures IndexOf(Range(1, numPages), number) == number - 1
    ensures Range(1, numPages)[..number - 1] == Range(1, number - 1)
    ensures Range(1, numPages)[number..] == Range(number + 1, numPages)
  {
    var rng := Range(1, numPages);
    assert rng[number - 1] == number;
    var k := IndexOf(rng, number);
    assert rng[k] == number;
    RangeSlice(1, numPages, 0, number - 1);
    RangeSlice(1, numPages, number, |rng|);
  }

  /** The window for page `number` of `numPages` pages with at most `perSide`
      pages wanted on each side. `number` is already clamped by the caller, so
      `rng.index(number)` always succeeds. */
  function PageWindowOf(numPages: int, number: int, perSide: int): (w: Window)
    requires 1 <= number <= numPages
    ensures w.pageRange == w.leftSide + [number] + w.rightSide
    ensures IsSuffix(w.leftSide, Range(1, number - 1))
    ensures IsPrefix(w.rightSide, Range(number + 1, numPages))
  {
    PagesAround(numPages, number);
    var rng := Range(1, numPages);
    var index := IndexOf(rng, number);
    var left := rng[..index];
    var right := rng[index + 1..];
    assert left == Range(1, number - 1) && |left| == number - 1;
    assert right == Range(number + 1, numPages) && |right| == numPages - number;
    var sides := KeptSides(left, right, perSide);
    Window(sides.0, sides.1, sides.0 + [number] + sides.1)
  }
}

module PageWindowFacts {
  import opened PyList
  import opened PageWindow

  /** The window keeps, of the pages before and after `number`, what `KeptSides`
      keeps (`rng[:index]` and `rng[index+1:]` are these two ranges). */
  lemma WindowKeeps(numPages: int, number: int, perSide: int)
    requires 1 <= number <= numPages
    ensures var w := PageWindowOf(numPages, number, perSide);
            (w.leftSide, w.rightSide) == KeptSides(Range(1, number - 1), Range(number + 1, numPages), perSide)
  {
    PagesAround(numPages, number);
  }

  /** How many pages `KeptSides` keeps on each side, branch by branch, for a
      positive `perSide`. */
  lemma KeptSidesLengths(left: seq<int>, right: seq<int>, perSide: int)
    requires perSide >= 1
    ensures var s := KeptSides(left, right, perSide);
            (|left| >= perSide && |right| >= perSide ==> |s.0| == perSide && |s.1| == perSide) &&
            (|left| < perSide ==> s.0 == left && |s.1| == Min(|right|, 2 * perSide - |left|)) &&
            (|left| >= perSide && |right| < perSide ==>
               s.1 == right && |s.0| == Min(|left|, 2 * perSide - |right|))
  {
  }

  /** The window is a contiguous run of pages inside `1..numPages` around
      `number`: `left_side` ends just before it and `right_side` starts just
      after it. */
  lemma WindowContiguous(numPages: int, number: int, perSide: int)
    requires 1 <= number <= numPages
    ensures var w := PageWindowOf(numPages, number, perSide);
            1 <= number - |w.leftSide| && number + |w.rightSide| <= numPages &&
            w.leftSide == Range(number - |w.leftSide|, number - 1) &&
            w.rightSide == Range(number + 1, number + |w.rightSide|) &&
            w.pageRange == Range(number - |w.leftSide|, number + |w.rightSide|)
  {
    var w := PageWindowOf(numPages, number, perSide);
    SidesAround(w.leftSide, w.rightSide, number, numPages);
  }

  lemma SidesAround(left: seq<int>, right: seq<int>, number: int, numPages: int)
    requires 1 <= number <= numPages
    requires IsSuffix(left, Range(1, number - 1)) && IsPrefix(right, Range(number + 1, numPages))
    ensures 1 <= number - |left| && number + |right| <= numPages
    ensures left == Range(number - |left|, number - 1)
    ensures right == Range(number + 1, number + |right|)
    ensures left + [number] + right == Range(number - |left|, number + |right|)
  {
    RangeSuffix(1, number - 1, left, number - |left|, number - 1);
    RangePrefix(number + 1, numPages, right, number + |right|);
    RangeJoin(number - |left|, number, number + |right|);
  }

  /** `page_range` is strictly ascending, stays within `1..numPages`, and holds
      `number` exactly once, at the position just after `left_side`. */
  lemma WindowOrdered(numPages: int, number: int, perSide: int)
    requires 1 <= number <= numPages
    ensures var w := PageWindowOf(numPages, number, perSide);
            StrictlyAscending(w.pageRange) && Within(w.pageRange, 1, numPages) &&
            OnlyAt(w.pageRange, number, |w.leftSide|)
  {
    var w := PageWindowOf(numPages, number, perSide);
    WindowContiguous(numPages, number, perSide);
    RunAround(w.pageRange, number - |w.leftSide|, number + |w.rightSide|, number, numPages);
  }

  lemma RunAround(pr: seq<int>, lo: int, hi: int, number: int, numPages: int)
    requires pr == Range(lo, hi) && 1 <= lo <= number <= hi <= numPages
    ensures StrictlyAscending(pr) && Within(pr, 1, numPages) && OnlyAt(pr, number, number - lo)
  {
  }

  /** For `perSide >= 1` the window lists `min(2 * perSide + 1, numPages)` pages. */
  lemma WindowLength(numPages: int, number: int, perSide: int)
    requires 1 <= number <= numPages
    requires perSide >= 1
    ensures |PageWindowOf(numPages, number, perSide).pageRange| == Min(2 * perSide + 1, numPages)
  {
    WindowKeeps(numPages, number, perSide);
    KeptSidesLengths(Range(1, number - 1), Range(number + 1, numPages), perSide);
  }

  /** With at least `perSide` pages on both sides, exactly the `perSide` pages
      next to `number` are kept on each side. */
  lemma WindowSaturated(numPages: int, number: int, perSide: int)
    requires 1 <= number <= numPages
    requires perSide >= 1 && number - 1 >= perSide && numPages - number >= perSide
    ensures var w := PageWindowOf(numPages, number, perSide);
            w.leftSide == Range(number - perSide, number - 1) &&
            w.rightSide == Range(number + 1, number + perSide)
  {
    WindowKeeps(numPages, number, perSide);
    KeptSidesLengths(Range(1, number - 1), Range(number + 1, numPages), perSide);
    WindowContiguous(numPages, number, perSide);
  }

  /** A short left side is kept whole and the right side makes up the
      difference, as far as there are pages: the window is `1..min(2 * perSide + 1, numPages)`. */
  lemma WindowLeftShort(numPages: int, number: int, perSide: int)
    requires 1 <= number <= numPages
    requires number - 1 < perSide
    ensures var w := PageWindowOf(numPages, number, perSide);
            w.leftSide == Range(1, number - 1) &&
            w.rightSide == Range(number + 1, Min(numPages, 2 * perSide + 1)) &&
            w.pageRange == Range(1, Min(numPages, 2 * perSide + 1))
  {
    var w := PageWindowOf(numPages, number, perSide);
    WindowKeeps(numPages, number, perSide);
    KeptSidesLengths(Range(1, number - 1), Range(number + 1, numPages), perSide);
    assert |w.leftSide| == number - 1;
    assert |w.rightSide| == Min(numPages - number, 2 * perSide - (number - 1));
    assert number + |w.rightSide| == Min(numPages, 2 * perSide + 1);
    SidesAround(w.leftSide, w.rightSide, number, numPages);
  }

  /** A short right side (with a full left side) is kept whole and the left side
      makes up the difference: the window is `max(1, numPages - 2 * perSide)..numPages`. */
  lemma WindowRightShort(numPages: int, number: int, perSide: int)
    requires 1 <= number <= numPages
    requires number - 1 >= perSide && numPages - number < perSide
    ensures var w := PageWindowOf(numPages, number, perSide);
            w.rightSide == Range(number + 1, numPages) &&
            w.leftSide == Range(Max(1, numPages - 2 * perSide), number - 1) &&
            w.pageRange == Range(Max(1, numPages - 2 * perSide), numPages)
  {
    var w := PageWindowOf(numPages, number, perSide);
    WindowKeeps(numPages, number, perSide);
    KeptSidesLengths(Range(1, number - 1), Range(number + 1, numPages), perSide);
    assert |w.rightSide| == numPages - number;
    assert |w.leftSide| == Min(number - 1, 2 * perSide - (numPages - number));
    assert number - |w.leftSide| == Max(1, numPages - 2 * perSide);
    SidesAround(w.leftSide, w.rightSide, number, numPages);
  }

  /** When there are no more than `2 * perSide` pages, every page is listed. */
  lemma WindowWhole(numPages: int, number: int, perSide: int)
    requires 1 <= number <= numPages
    requires numPages <= 2 * perSide
    ensures PageWindowOf(numPages, number, perSide).pageRange == Range(1, numPages)
  {
    if number - 1 < perSide {
      WindowLeftShort(numPages, number, perSide);
    } else {
      WindowRightShort(numPages, number, perSide);
    }
  }

  /** With `perSide == 0`, `left_side[-0:]` is the whole of `left_side`: every
      page up to `number` is listed and none after it. */
  lemma WindowPerSideZero(numPages: int, number: int)
    requires 1 <= number <= numPages
    ensures var w := PageWindowOf(numPages, number, 0);
            w.leftSide == Range(1, number - 1) && w.rightSide == [] &&
            w.pageRange == Range(1, number)
  {
    WindowKeeps(numPages, number, 0);
    WindowContiguous(numPages, number, 0);
  }

  /** The examples of the `_modify_page` docstring: with 15 pages, page 9 shows
      5..13 and page 4 shows 1..3 on the left and 5..9 on the right; with nine
      pages, page 4 shows all of them. */
  lemma DocstringExamples()
    ensures PageWindowOf(15, 9, 4) == Window(Range(5, 8), Range(10, 13), Range(5, 13))
    ensures PageWindowOf(15, 4, 4) == Window(Range(1, 3), Range(5, 9), Range(1, 9))
    ensures PageWindowOf(9, 4, 4) == Window(Range(1, 3), Range(5, 9), Range(1, 9))
  {
    WindowSaturated(15, 9, 4);
    WindowContiguous(15, 9, 4);
    WindowLeftShort(15, 4, 4);
    WindowLeftShort(9, 4, 4);
  }
}
