/** What the list endpoints share: reading integer query parameters with
    `parseInt`, the case-insensitive search on name and description, and
    slicing one page out of the filtered list together with the page
    summary. A `parseInt` result that is NaN is None, and so is any non-finite
    number the summary would carry (JSON writes both as null). */
module RouteCommon {
  import opened Wrappers
  import opened Seqs
  import opened Strings

  /** A handler's outcome: the JSON success body with its optional
      message, a 400 or a 500, each error with its message. */
  datatype Response<T> = Success(data: T, message: Option<string>) | BadRequest(error: string) | ServerError(error: string)

  /** `searchParams.get(name) || fallback`: a missing or empty parameter
      takes the fallback. */
  function ParamOr(p: Option<string>, fallback: string): (r: string)
    ensures p.Some? && p.value != "" ==> r == p.value
    ensures p.None? || p.value == "" ==> r == fallback
  {
    if p.Some? && p.value != "" then p.value else fallback
  }

  /** The value of a digit in base 10 or 16 (`0`-`9`, `a`-`f`, `A`-`F`), or
      -1 for a character that is not a digit of that base. */
  function DigitValue(c: char, radix: nat): (d: int)
    requires radix == 10 || radix == 16
    ensures -1 <= d < radix
  {
    if '0' <= c <= '9' then c as int - '0' as int
    else if radix == 16 && 'a' <= c <= 'f' then c as int - 'a' as int + 10
    else if radix == 16 && 'A' <= c <= 'F' then c as int - 'A' as int + 10
    else -1
  }

  /** The length of the longest prefix of digits of the base. */
  function DigitRun(s: string, radix: nat): (n: nat)
    requires radix == 10 || radix == 16
    ensures n <= |s|
    ensures forall k :: 0 <= k < n ==> DigitValue(s[k], radix) >= 0
    ensures n < |s| ==> DigitValue(s[n], radix) < 0
  {
    if s == [] || DigitValue(s[0], radix) < 0 then 0 else 1 + DigitRun(s[1..], radix)
  }

  /** The value of a string of digits of the base. */
  function DigitsValue(s: string, radix: nat): nat
    requires radix == 10 || radix == 16
    requires forall k :: 0 <= k < |s| ==> DigitValue(s[k], radix) >= 0
  {
    if s == [] then 0
    else radix * DigitsValue(s[..|s| - 1], radix) + DigitValue(s[|s| - 1], radix)
  }

  /** The digits after any sign: a `0x`/`0X` prefix switches to base 16,
      the longest run of digits that follows is read, and with no digit
      the result is NaN (None). */
  function ParseUnsigned(u: string): (r: Option<nat>)
  {
    var hex := |u| >= 2 && u[0] == '0' && (u[1] == 'x' || u[1] == 'X');
    var radix := if hex then 16 else 10;
    var digits := if hex then u[2..] else u;
    var n := DigitRun(digits, radix);
    if n == 0 then None else Some(DigitsValue(digits[..n], radix))
  }

  /** `parseInt(s)` with no radix: leading white space is skipped, then an
      optional sign, then the digits. */
  function JsParseInt(s: string): (r: Option<int>)
    ensures r.Some? ==> exists k :: 0 <= k < |s| && '0' <= s[k] <= '9'
    ensures r.Some? && r.value < 0 ==> exists k :: 0 <= k < |s| && s[k] == '-'
  {
    var t := s[LeadingSpace(s)..];
    if t != [] && t[0] == '-' then
      var v := ParseUnsigned(t[1..]);
      if v.None? then None else var n: int := v.value; Some(-n)
    else if t != [] && t[0] == '+' then
      var v := ParseUnsigned(t[1..]);
      if v.None? then None else Some(v.value)
    else
      var v := ParseUnsigned(t);
      if v.None? then None else Some(v.value)
  }

  lemma DecimalDigitsValue(s: string)
    requires forall k :: 0 <= k < |s| ==> '0' <= s[k] <= '9'
    ensures forall k :: 0 <= k < |s| ==> DigitValue(s[k], 10) >= 0
    ensures DigitsValue(s, 10) == DecimalValue(s)
  {
    if s != [] {
      DecimalDigitsValue(s[..|s| - 1]);
    }
  }

  lemma ParseUnsignedOfDigits(s: string)
    requires s != [] && forall k :: 0 <= k < |s| ==> '0' <= s[k] <= '9'
    ensures ParseUnsigned(s) == Some(DecimalValue(s))
  {
    assert !(|s| >= 2 && s[0] == '0' && (s[1] == 'x' || s[1] == 'X'));
    DecimalDigitsValue(s);
    assert DigitRun(s, 10) == |s|;
    assert s[..|s|] == s;
  }

  /** A string of decimal digits is read whole, in base 10. */
  lemma ParseIntOfDigits(s: string)
    requires s != [] && forall k :: 0 <= k < |s| ==> '0' <= s[k] <= '9'
    ensures JsParseInt(s) == Some(DecimalValue(s))
  {
    assert !IsJsWhitespace(s[0]);
    assert LeadingSpace(s) == 0;
    assert s[0..] == s;
    ParseUnsignedOfDigits(s);
  }

  /** `parseInt` reads back what `String(n)` writes for every n >= 0. */
  lemma ParseIntOfDecimal(n: nat)
    ensures JsParseInt(DecimalString(n)) == Some(n)
  {
    ParseIntOfDigits(DecimalString(n));
    DecimalRoundTrip(n);
  }

  /** `parseInt(searchParams.get(name) || fallback)` */
  function QueryInt(p: Option<string>, fallback: string): (r: Option<int>)
    ensures p.None? || p.value == "" ==> r == JsParseInt(fallback)
    ensures p.Some? && p.value != "" ==> r == JsParseInt(p.value)
  {
    JsParseInt(ParamOr(p, fallback))
  }

  /** A missing or empty parameter reads as its default, and a parameter
      written as the decimal form of n reads as n. */
  lemma QueryIntReads(p: Option<string>, fallback: nat, n: nat)
    ensures p.None? || p == Some("") ==> QueryInt(p, DecimalString(fallback)) == Some(fallback)
    ensures QueryInt(Some(DecimalString(n)), DecimalString(fallback)) == Some(n)
  {
    ParseIntOfDecimal(fallback);
    ParseIntOfDecimal(n);
  }

  /** Paging with parameters written as decimal numbers reads them as
      those numbers, whatever the defaults. */
  lemma PaginateDecimalQuery<T>(items: seq<T>, page: nat, limit: nat, pageDefault: string, limitDefault: string)
    ensures Paginate(items, QueryInt(Some(DecimalString(page)), pageDefault), QueryInt(Some(DecimalString(limit)), limitDefault)) ==
      Paginate(items, Some(page), Some(limit))
  {
    assert QueryInt(Some(DecimalString(page)), pageDefault) == Some(page) by {
      ParseIntOfDecimal(page);
    }
    assert QueryInt(Some(DecimalString(limit)), limitDefault) == Some(limit) by {
      ParseIntOfDecimal(limit);
    }
  }

  /** `name.toLowerCase().includes(q) || description?.toLowerCase().includes(q)`
      with `q` the lowercased search term. */
  function MatchesSearch(name: string, description: Option<string>, search: string): (b: bool)
    ensures search == "" ==> b
    ensures b ==> |search| <= |name| || (description.Some? && |search| <= |description.value|)
  {
    ContainsTrivial(ToLower(name));
    Contains(ToLower(name), ToLower(search)) ||
    (description.Some? && Contains(ToLower(description.value), ToLower(search)))
  }

  /** Every string contains the empty string, so every item matches an
      empty search. */
  lemma EmptySearchMatchesAll<T>(items: seq<T>, name: T -> string, description: T -> Option<string>)
    ensures forall i :: 0 <= i < |items| ==> MatchesSearch(name(items[i]), description(items[i]), "")
  {
    forall i | 0 <= i < |items|
      ensures MatchesSearch(name(items[i]), description(items[i]), "")
    {
      ContainsTrivial(ToLower(name(items[i])));
    }
  }

  /** `if (search) items = items.filter(...)`: an empty search keeps the
      list; otherwise exactly the items matching it stay, in order. */
  function Search<T(==)>(items: seq<T>, name: T -> string, description: T -> Option<string>, search: string): (r: seq<T>)
    ensures search == "" ==> r == items
    ensures forall i :: 0 <= i < |r| ==> r[i] in items && MatchesSearch(name(r[i]), description(r[i]), search)
    ensures forall i :: 0 <= i < |items| && MatchesSearch(name(items[i]), description(items[i]), search) ==> items[i] in r
  {
    if search == "" then EmptySearchMatchesAll(items, name, description); items
    else Filter(items, (x: T) => MatchesSearch(name(x), description(x), search))
  }

  lemma {:induction false} FilterSamePredicate<T>(s: seq<T>, p: T -> bool, q: T -> bool)
    requires forall x :: p(x) == q(x)
    ensures Filter(s, p) == Filter(s, q)
  {
    if s != [] {
      FilterSamePredicate(s[1..], p, q);
    }
  }

  /** The search ignores the case of the term: searching with the
      lowercased term finds the same items. */
  lemma SearchIgnoresCase<T>(items: seq<T>, name: T -> string, description: T -> Option<string>, search: string)
    ensures Search(items, name, description, ToLower(search)) == Search(items, name, description, search)
  {
    ToLowerIdempotent(search);
    if search != "" {
      assert |ToLower(search)| == |search|;
      FilterSamePredicate(items,
        (x: T) => MatchesSearch(name(x), description(x), ToLower(search)),
        (x: T) => MatchesSearch(name(x), description(x), search));
    }
  }

  /** `Math.ceil(total / limit)` for a non-zero limit; division by zero
      gives a non-finite number (None). */
  function CeilDiv(total: nat, limit: int): (r: Option<int>)
    ensures r.None? <==> limit == 0
    ensures limit > 0 ==> r.value >= 0 && (r.value == 0 <==> total == 0)
    ensures limit > 0 && total > 0 ==> (r.value - 1) * limit < total <= r.value * limit
  {
    if limit == 0 then None
    else if limit > 0 then Some((total + limit - 1) / limit)
    else Some(-(total / -limit))
  }

  /** The `pagination` object of a list response. */
  datatype PageInfo = PageInfo(page: Option<int>, limit: Option<int>, total: nat, totalPages: Option<int>)

  /** `items.slice((page - 1) * limit, (page - 1) * limit + limit)` with the
      summary; a NaN page or limit yields an empty page (slice reads NaN as
      0) and a null page count. */
  function Paginate<T>(items: seq<T>, page: Option<int>, limit: Option<int>): (r: (seq<T>, PageInfo))
    ensures r.1 == PageInfo(page, limit, |items|, if limit.Some? then CeilDiv(|items|, limit.value) else None)
    ensures page.None? || limit.None? ==> r.0 == []
  {
    var info := PageInfo(page, limit, |items|, if limit.Some? then CeilDiv(|items|, limit.value) else None);
    if page.None? || limit.None? then ([], info)
    else
      var start := (page.value - 1) * limit.value;
      (Slice(items, start, start + limit.value), info)
  }

  /** Every item of a page is an item of the list. */
  lemma PageDrawnFromList<T>(items: seq<T>, page: Option<int>, limit: Option<int>)
    ensures var data := Paginate(items, page, limit).0;
      forall i :: 0 <= i < |data| ==> data[i] in items
  {
    var data := Paginate(items, page, limit).0;
    if data != [] {
      var a := ClampIndex((page.value - 1) * limit.value, |items|);
      assert data == items[a..a + |data|];
    }
  }

  /** A page holds at most `limit` items and is a contiguous run of the
      list, in order. */
  lemma PageIsContiguousRun<T>(items: seq<T>, page: int, limit: int)
    requires limit > 0
    ensures var data := Paginate(items, Some(page), Some(limit)).0;
      var a := ClampIndex((page - 1) * limit, |items|);
      |data| <= limit && a + |data| <= |items| && data == items[a..a + |data|]
  {
    SliceAtMost(items, (page - 1) * limit, limit);
  }

  lemma MulMonotone(a: int, b: int, l: int)
    requires a <= b && l > 0
    ensures a * l <= b * l
  {
    assert b * l - a * l == (b - a) * l;
  }

  /** For a page between 1 and the page count the page is exactly the items
      at positions (page-1)*limit up to page*limit, and it is not empty. */
  lemma PageWithinCount<T>(items: seq<T>, page: int, limit: int)
    requires limit > 0 && 1 <= page <= CeilDiv(|items|, limit).value
    ensures var start := (page - 1) * limit;
      var end := if page * limit < |items| then page * limit else |items|;
      start < end <= |items| && Paginate(items, Some(page), Some(limit)).0 == items[start..end]
  {
    var tp := CeilDiv(|items|, limit).value;
    var start := (page - 1) * limit;
    assert start + limit == page * limit;
    MulMonotone(0, page - 1, limit);
    MulMonotone(page - 1, tp - 1, limit);
    var end := if page * limit < |items| then page * limit else |items|;
    assert ClampIndex(start, |items|) == start;
    assert ClampIndex(start + limit, |items|) == end;
  }

  /** A list no longer than the limit is all on page 1, the only page. */
  lemma SinglePage<T>(items: seq<T>, limit: int)
    requires 0 < |items| <= limit
    ensures Paginate(items, Some(1), Some(limit)) == (items, PageInfo(Some(1), Some(limit), |items|, Some(1)))
  {
    var tp := CeilDiv(|items|, limit).value;
    if tp >= 2 {
      MulMonotone(1, tp - 1, limit);
      assert false;
    }
    assert Slice(items, 0, limit) == items;
  }

  /** After the last page every page is empty. */
  lemma PageBeyondCount<T>(items: seq<T>, page: int, limit: int)
    requires limit > 0 && page > CeilDiv(|items|, limit).value
    ensures Paginate(items, Some(page), Some(limit)).0 == []
  {
    var tp := CeilDiv(|items|, limit).value;
    var start := (page - 1) * limit;
    MulMonotone(tp, page - 1, limit);
    assert |items| <= start;
    assert ClampIndex(start, |items|) == |items|;
  }

  /** Every item is on exactly one page: the item at position i is item
      i % limit of page i / limit + 1. */
  lemma EveryItemOnItsPage<T>(items: seq<T>, limit: int, i: nat)
    requires limit > 0 && i < |items|
    ensures var page := i / limit + 1;
      var data := Paginate(items, Some(page), Some(limit)).0;
      i % limit < |data| && data[i % limit] == items[i]
  {
    var page := i / limit + 1;
    assert (page - 1) * limit + i % limit == i;
    var tp := CeilDiv(|items|, limit).value;
    if page > tp {
      MulMonotone(tp, page - 1, limit);
      assert false;
    }
    PageWithinCount(items, page, limit);
  }

  /** A negative page counts from the end of the list, as `slice` reads
      negative indices: page -1 with limit l is the run that ends l items
      before the end. */
  lemma NegativePageCountsFromEnd<T>(items: seq<T>, limit: int)
    requires limit > 0 && 2 * limit <= |items|
    ensures Paginate(items, Some(-1), Some(limit)).0 == items[|items| - 2 * limit..|items| - limit]
  {
  }
}
