/** The `Paginator` subclass of utils/paginator.py: it never fails on a page
    number that is out of range or malformed, and it trims the page list of each
    page it returns to a window around the current page.

    The base paginator of the web framework is not part of this model: its page
    count arrives as `numPages`, and the page object it returns is modelled by
    the `Page` class below, holding only the current number and the three
    fields `_modify_page` sets. */
module Paginator {
  import opened PyList
  import opened PyStr
  import opened PageWindow

  /** The dynamically typed `number` argument of `page()`. Python's `bool` is a
      subclass of `int`, so `True` and `False` arrive as `IntArg(1)` and `IntArg(0)`. */
  datatype PageArg = IntArg(i: int) | StrArg(s: string) | Other

  /** Outcome of `page()`: a value, or the `TypeError` it raises. */
  datatype Result<T> = Ok(value: T) | TypeError

  /** Keyword-argument values as the paginator's constructor may receive them. */
  datatype PyValue = BoolValue(b: bool) | IntValue(n: int) | StrValue(text: string) | NoneValue

  const AllowEmptyFirstPage: string := "allow_empty_first_page"

  /** The keyword arguments `__init__` passes on: `allow_empty_first_page`
      defaults to `True`, and a value the caller gave is kept as it is. */
  function WithAllowEmptyDefault(kwargs: map<string, PyValue>): (r: map<string, PyValue>)
    ensures AllowEmptyFirstPage in r
    ensures AllowEmptyFirstPage in kwargs ==> r[AllowEmptyFirstPage] == kwargs[AllowEmptyFirstPage]
    ensures AllowEmptyFirstPage !in kwargs ==> r[AllowEmptyFirstPage] == BoolValue(true)
    ensures forall k :: k != AllowEmptyFirstPage ==> (k in r <==> k in kwargs)
    ensures forall k :: k in kwargs ==> k in r && (k != AllowEmptyFirstPage ==> r[k] == kwargs[k])
  {
    if AllowEmptyFirstPage in kwargs then kwargs else kwargs[AllowEmptyFirstPage := BoolValue(true)]
  }

  /** Applying the default to arguments that already went through it changes
      nothing. */
  lemma AllowEmptyDefaultIdempotent(kwargs: map<string, PyValue>)
    ensures WithAllowEmptyDefault(WithAllowEmptyDefault(kwargs)) == WithAllowEmptyDefault(kwargs)
  {
  }

  /** The type handling at the top of `page()`: an `int` is taken as it is, a
      string of digits is read as a decimal number, any other string means page
      1, and any other type is a `TypeError`. */
  function Coerce(arg: PageArg): (r: Result<int>)
    ensures r == TypeError <==> arg.Other?
    ensures arg.IntArg? ==> r == Ok(arg.i)
    ensures arg.StrArg? && !IsDigits(arg.s) ==> r == Ok(1)
    ensures arg.StrArg? && IsDigits(arg.s) ==> r == Ok(DecimalValue(arg.s))
  {
    match arg
    case IntArg(i) => Ok(i)
    case StrArg(s) => if IsDigits(s) then Ok(DecimalValue(s)) else Ok(1)
    case Other => TypeError
  }

  /** The clamping step of `page()`: the result is always a valid page number,
      numbers up to 0 become the first page, numbers past the end the last one,
      and a valid number is left alone. */
  function Clamp(number: int, numPages: int): (r: int)
    requires numPages >= 1
    ensures 1 <= r <= numPages
    ensures 1 <= number <= numPages ==> r == number
    ensures number <= 0 ==> r == 1
    ensures number > numPages ==> r == numPages
  {
    if number <= 0 then 1
    else if number > numPages then numPages
    else number
  }

  /** Clamping twice is clamping once. */
  lemma ClampIdempotent(number: int, numPages: int)
    requires numPages >= 1
    ensures Clamp(Clamp(number, numPages), numPages) == Clamp(number, numPages)
  {
  }

  /** A page number written out in decimal, as it appears in a query string,
      is read back as itself. */
  lemma {:induction false} DecimalPageRoundTrip(n: nat)
    ensures Coerce(StrArg(DecimalString(n))) == Ok(n)
  {
    DecimalRoundTrip(n);
  }

  /** A page number written in decimal with any number of leading zeros, such
      as "007", is read as that number. */
  lemma {:induction false} ZeroPaddedPageRoundTrip(k: nat, n: nat)
    ensures Coerce(StrArg(Zeros(k) + DecimalString(n))) == Ok(n)
  {
    DecimalRoundTrip(n);
    LeadingZerosIgnored(k, DecimalString(n));
    assert IsDigits(Zeros(k) + DecimalString(n));
  }

  /** Page numbers of a ten-page paginator: 0 and 999 are clamped to the
      ends, and a non-numeric string such as "abc" means the first page. */
  lemma NormalisationExamples()
    ensures Clamp(Coerce(IntArg(0)).value, 10) == 1
    ensures Clamp(Coerce(IntArg(999)).value, 10) == 10
    ensures Coerce(StrArg("abc")) == Ok(1) && Coerce(StrArg("")) == Ok(1)
    ensures Coerce(StrArg("07")) == Ok(7)
  {
    assert !IsAsciiDigit('a');
    assert DecimalValue("07") == 10 * DecimalValue("0") + 7;
  }

  /** A Django page object with the attributes `_modify_page` adds to it. */
  class Page {
    const number: int
    var leftSide: seq<int>
    var rightSide: seq<int>
    var pageRange: seq<int>

    /** The page as the base paginator returns it, before `_modify_page`
        has set the three window attributes. */
    constructor (number: int)
      ensures this.number == number
      ensures leftSide == [] && rightSide == [] && pageRange == []
    {
      this.number := number;
      leftSide := [];
      rightSide := [];
      pageRange := [];
    }
  }

  class Paginator {
    const numPages: int
    var kwargs: map<string, PyValue>

    /** `numPages` stands for what the base class computes from the object list
        and page size; with `allow_empty_first_page` it is at least 1. */
    constructor (numPages: int, kwargs: map<string, PyValue>)
      requires numPages >= 1
      ensures this.numPages == numPages
      ensures this.kwargs == WithAllowEmptyDefault(kwargs)
    {
      this.numPages := numPages;
      var kw := kwargs;
      if AllowEmptyFirstPage !in kw {
        kw := kw[AllowEmptyFirstPage := BoolValue(true)];
      }
      this.kwargs := kw;
    }

    /** `_modify_page`: stores the window around `number` on `page` and
        returns the same object. `perSide` defaults to 4, as in the source. */
    method ModifyPage(page: Page, number: int, perSide: int := 4) returns (result: Page)
      requires 1 <= number <= numPages
      modifies page
      ensures result == page
      ensures page.leftSide == PageWindowOf(numPages, number, perSide).leftSide
      ensures page.rightSide == PageWindowOf(numPages, number, perSide).rightSide
      ensures page.pageRange == page.leftSide + [number] + page.rightSide
    {
      var w := PageWindowOf(numPages, number, perSide);
      page.leftSide := w.leftSide;
      page.rightSide := w.rightSide;
      page.pageRange := page.leftSide + [number] + page.rightSide;
      result := page;
    }

    /** `page()`: normalises `number`, fetches that page and trims its page
        list. Only a `number` of the wrong type is an error. `perSide`
        defaults to 4, as in the source. */
    method Page(arg: PageArg, perSide: int := 4) returns (r: Result<Page>)
      requires numPages >= 1
      ensures r == TypeError <==> arg.Other?
      ensures r.Ok? ==> fresh(r.value)
      ensures r.Ok? ==> r.value.number == Clamp(Coerce(arg).value, numPages)
      ensures r.Ok? ==> r.value.leftSide == PageWindowOf(numPages, r.value.number, perSide).leftSide
      ensures r.Ok? ==> r.value.rightSide == PageWindowOf(numPages, r.value.number, perSide).rightSide
      ensures r.Ok? ==> r.value.pageRange == PageWindowOf(numPages, r.value.number, perSide).pageRange
    {
      var number: int;
      match arg {
        case StrArg(s) =>
          number := if IsDigits(s) then DecimalValue(s) else 1;
        case IntArg(i) =>
          number := i;
        case Other =>
          return TypeError;
      }
      if number <= 0 {
        number := 1;
      } else if number > numPages {
        number := numPages;
      }
      var page := new Page(number);
      page := ModifyPage(page, number, perSide);
      return Ok(page);
    }
  }
}
