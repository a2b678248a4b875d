/**
 Page arithmetic and page slices
 (src/common/paginate.ts, src/common/http.ts:59-77, src/modules/incident/incident.repo.ts:67-92).
 */
module Paging {
  import opened Common
  import opened Digits
  import opened Numerals

  const DEFAULT_PAGE := 1
  const DEFAULT_LIMIT := 20
  const MAX_LIMIT := 100

  datatype PageSpec = PageSpec(page: int, limit: int, skip: int)

  function Max(a: int, b: int): int { if a >= b then a else b }
  function Min(a: int, b: int): int { if a <= b then a else b }

  // ----- The two readings of `page` and `limit` -----

  /** JavaScript's `x || fallback` on numbers. */
  function Or(x: Option<int>, fallback: int): int {
    if x.Some? && x.value != 0 then x.value else fallback
  }

  function ClampLimit(limit: int): int { Min(Max(1, limit), MAX_LIMIT) }

  function Spec(page: int, limit: int): PageSpec {
    PageSpec(Max(1, page), ClampLimit(limit), (Max(1, page) - 1) * ClampLimit(limit))
  }

  /** `parsePagination`: what the controllers report, and what the check repository slices with. */
  function ParsePagination(page: Option<string>, limit: Option<string>): PageSpec {
    Spec(if page.Some? then Or(ParseInt(page.value), DEFAULT_PAGE) else DEFAULT_PAGE,
         if limit.Some? then Or(ParseInt(limit.value), DEFAULT_LIMIT) else DEFAULT_LIMIT)
  }

  /**
   The incident repository's own reading, through `Number`. The schema has refused every other text before: it lets
   through the accepted ones, and for the limit those up to 100.
   */
  function RepoPagination(page: Option<string>, limit: Option<string>): PageSpec {
    Spec(if page.Some? then Or(Number(page.value), DEFAULT_PAGE) else DEFAULT_PAGE,
         if limit.Some? then Or(Number(limit.value), DEFAULT_LIMIT) else DEFAULT_LIMIT)
  }

  /** What a reading of a page number comes to: itself from 1 on, and otherwise 1. */
  predicate PageRead(n: Option<int>, page: int) {
    page == match n { case Some(v) => if v >= 1 then v else 1 case None => 1 }
  }

  /** What a reading of a limit comes to: itself from 1 to 100, the nearer bound beyond, and 20 for zero or none. */
  predicate LimitRead(n: Option<int>, limit: int) {
    limit == match n
             case Some(v) => if v == 0 then 20 else if v < 1 then 1 else if v > 100 then 100 else v
             case None => 20
  }

  /** What any query asks for, malformed or out of range, in both readings. */
  lemma QueryIsRead(page: Option<string>, limit: Option<string>)
    ensures var spec := ParsePagination(page, limit);
            && PageRead(if page.Some? then ParseInt(page.value) else None, spec.page)
            && LimitRead(if limit.Some? then ParseInt(limit.value) else None, spec.limit)
            && spec.skip == (spec.page - 1) * spec.limit && spec.page >= 1 && 1 <= spec.limit <= 100
    ensures var spec := RepoPagination(page, limit);
            && PageRead(if page.Some? then Number(page.value) else None, spec.page)
            && LimitRead(if limit.Some? then Number(limit.value) else None, spec.limit)
            && spec.skip == (spec.page - 1) * spec.limit && spec.page >= 1 && 1 <= spec.limit <= 100
  {
  }

  /** Is the text a decimal literal with something before its point? */
  predicate HasWholePart(s: string) {
    FormOf(s).Dec? && ValueOf(FormOf(s).whole) > 0
  }

  /** What `parseInt(s, 10) || fallback` makes of an accepted text. */
  lemma {:induction false} ReportedIs(s: string, fallback: int)
    requires Accepted(s)
    ensures Or(ParseInt(s), fallback) == if HasWholePart(s) then ValueOf(FormOf(s).whole) else fallback
  {
    ParseIntOf(s);
    if FormOf(s).Dec? {
      NotNegative(s);
      FormHasDigits(s);
      FractionBelowOne(FormOf(s).whole);
    }
  }

  /**
   For every text the schema accepts, the page the controller reports is the page the incident repository returned if
   and only if the text is a decimal literal with a positive whole part and no exponent, or an exponent of zero; or else
   has the value 1, the default that `parseInt` ends up with.
   */
  lemma {:induction false} ReportedPageIsSlicedPage(page: string, limit: Option<string>)
    requires Accepted(page)
    ensures ParsePagination(Some(page), limit).page == RepoPagination(Some(page), limit).page <==>
            if HasWholePart(page) then FormOf(page).exponent == 0 else Number(page).value == 1
  {
    ReportedIs(page, DEFAULT_PAGE);
    if HasWholePart(page) {
      ExponentDecides(page);
    }
  }

  /** The same for the limit, with its own default; there the clamp hides the difference between 100 and more. */
  lemma {:induction false} ReportedLimitIsSlicedLimit(page: Option<string>, limit: string)
    requires Accepted(limit) && Number(limit).value <= 100
    ensures ParsePagination(page, Some(limit)).limit == RepoPagination(page, Some(limit)).limit <==>
            if HasWholePart(limit)
            then FormOf(limit).exponent == 0
                 || (Number(limit).value == 100 && ValueOf(FormOf(limit).whole) >= 100)
            else Number(limit).value == 20
  {
    ReportedIs(limit, DEFAULT_LIMIT);
    if HasWholePart(limit) {
      ExponentDecides(limit);
    }
  }

  /** On plain decimal strings, or when the parameters are absent, both readings agree altogether. */
  lemma PlainReadingsAgree(page: Option<string>, limit: Option<string>)
    requires (page.Some? ==> AllDigits(page.value)) && (limit.Some? ==> AllDigits(limit.value))
    ensures ParsePagination(page, limit) == RepoPagination(page, limit)
  {
    if page.Some? { PlainForm(page.value); }
    if limit.Some? { PlainForm(limit.value); }
  }

  lemma TenByExponent()
    ensures Number("1e1") == Some(10) && ParseInt("1e1") == Some(1)
  {
    assert FormOf("1e1") == Dec(false, "1", "", 1) by { OneThenTail("e1"); }
    assert "1" + "" == "1" && "1"[..0] == "";
    assert Pow10(1) == 10 * Pow10(0) && Pow10(0) == 1;
    ParseIntOf("1e1");
  }

  lemma TenByPrefix()
    ensures Number("0xa") == Some(10) && ParseInt("0xa") == Some(0)
  {
    assert Trim("0xa") == "0xa" && TrimLeft("0xa") == "0xa";
    assert FormOf("0xa") == Radix(10) by { assert "0xa"[2..] == "a"; }
    PrefixReadsZero("0xa");
  }

  lemma {:induction false} OneThenTail(tail: string)
    requires tail != "" && !IsDigit(tail[0]) && !IsSpace(tail[|tail| - 1])
    ensures LeadingDigits("1" + tail) == "1" && ("1" + tail)[1..] == tail
    ensures Trim("1" + tail) == "1" + tail
  {
    LeadingDigitsOf("1", tail);
  }

  /** The tenth page asked for as 1e1 or 0xa is sliced as the tenth and reported as the first. */
  lemma {:induction false} TenthPageReportedAsFirst(limit: Option<string>, page: string)
    requires page == "1e1" || page == "0xa"
    ensures RepoPagination(Some(page), limit).page == 10 && ParsePagination(Some(page), limit).page == 1
  {
    TenByExponent();
    TenByPrefix();
  }

  // ----- Pages -----

  /** `.skip(skip).limit(limit)` on an ordered result. */
  function Slice<T>(rows: seq<T>, skip: nat, limit: nat): seq<T> {
    var from := if skip <= |rows| then skip else |rows|;
    var to := if from + limit <= |rows| then from + limit else |rows|;
    rows[from..to]
  }

  /** The page a parsed query asks for. */
  function PageOf<T>(rows: seq<T>, spec: PageSpec): seq<T>
    requires spec.skip >= 0 && spec.limit >= 0
  {
    Slice(rows, spec.skip, spec.limit)
  }

  /** The `pages` field of the envelope: the ceiling of total / limit. */
  function PageCount(total: nat, limit: nat): nat
    requires limit > 0
  {
    (total + limit - 1) / limit
  }

  /** Page `k` of pages of `limit` rows. */
  function NthPage<T>(rows: seq<T>, limit: nat, k: nat): seq<T>
    requires k > 0
  {
    Slice(rows, (k - 1) * limit, limit)
  }

  /** Pages 1 to n, one after the other. */
  function Pages<T>(rows: seq<T>, limit: nat, n: nat): seq<T> {
    if n == 0 then [] else Pages(rows, limit, n - 1) + NthPage(rows, limit, n)
  }

  lemma {:induction false} PagesArePrefix<T>(rows: seq<T>, limit: nat, n: nat)
    requires limit > 0
    ensures Pages(rows, limit, n) == rows[..if n * limit <= |rows| then n * limit else |rows|]
  {
    if n > 0 {
      PagesArePrefix(rows, limit, n - 1);
      assert n * limit == (n - 1) * limit + limit;
    }
  }

  lemma PageCountBounds(total: nat, limit: nat)
    requires limit > 0
    ensures var n := PageCount(total, limit); n * limit >= total && (n - 1) * limit < total
  {
    var n := PageCount(total, limit);
    var r := (total + limit - 1) % limit;
    assert total + limit - 1 == n * limit + r;
    assert (n - 1) * limit == n * limit - limit;
  }

  /** Page `k` starts before the end of the result exactly when it is counted. */
  lemma PageStarts(total: nat, limit: nat, k: nat)
    requires limit > 0
    ensures (k - 1) * limit < total <==> k <= PageCount(total, limit)
  {
    var n: int := PageCount(total, limit);
    PageCountBounds(total, limit);
    if k <= n {
      MulMonotone(k - 1, n - 1, limit);
    } else {
      MulMonotone(n, k - 1, limit);
    }
  }

  lemma {:induction false} PageIsEmpty<T>(rows: seq<T>, limit: nat, k: nat)
    requires limit > 0 && k > 0
    ensures NthPage(rows, limit, k) != [] <==> (k - 1) * limit < |rows|
  {
    MulMonotone(0, k - 1, limit);
  }

  /**
   The pages 1 to PageCount put together are the whole result, in order and without overlap; none of them is empty,
   and every later page is.
   */
  lemma {:induction false} PagesCover<T>(rows: seq<T>, limit: nat, k: nat)
    requires limit > 0
    ensures Pages(rows, limit, PageCount(|rows|, limit)) == rows
    ensures k > 0 ==> (NthPage(rows, limit, k) != [] <==> k <= PageCount(|rows|, limit))
  {
    assert Pages(rows, limit, PageCount(|rows|, limit)) == rows by {
      PageCountBounds(|rows|, limit);
      PagesArePrefix(rows, limit, PageCount(|rows|, limit));
      assert rows[..|rows|] == rows;
    }
    if k > 0 {
      PageIsEmpty(rows, limit, k);
      PageStarts(|rows|, limit, k);
    }
  }

  /** Any query at all, malformed or out of range, asks for one of those pages with a limit between 1 and 100. */
  lemma {:induction false} EveryQueryAsksForAPage<T>(rows: seq<T>, page: Option<string>, limit: Option<string>)
    ensures var spec := ParsePagination(page, limit);
            && 1 <= spec.limit <= 100 && spec.page >= 1 && spec.skip >= 0
            && PageOf(rows, spec) == NthPage(rows, spec.limit, spec.page)
  {
    var spec := ParsePagination(page, limit);
    MulMonotone(0, spec.page - 1, spec.limit);
  }

  // ----- A deterministic order -----

  /** Sort keys by document; ties are broken by the document. */
  type Keys = map<nat, int>

  predicate NotAfter(keys: Keys, i: nat, j: nat)
    requires i in keys && j in keys
  {
    keys[i] < keys[j] || (keys[i] == keys[j] && i <= j)
  }

  lemma {:induction false} FirstExists(keys: Keys) returns (first: nat)
    requires keys != map[]
    ensures first in keys && forall j | j in keys :: NotAfter(keys, first, j)
    decreases |keys|
  {
    var i :| i in keys;
    var rest := keys - {i};
    if rest == map[] {
      first := i;
      forall j | j in keys
        ensures NotAfter(keys, first, j)
      {
        assert j == i || j in rest;
      }
    } else {
      assert keys.Keys == rest.Keys + {i};
      var f := FirstExists(rest);
      first := if NotAfter(keys, i, f) then i else f;
      forall j | j in keys
        ensures NotAfter(keys, first, j)
      {
        assert j == i || (j in rest && NotAfter(rest, f, j));
      }
    }
  }

  function First(keys: Keys): (first: nat)
    requires keys != map[]
    ensures first in keys && forall j | j in keys :: NotAfter(keys, first, j)
  {
    assert exists i :: i in keys && forall j | j in keys :: NotAfter(keys, i, j) by {
      var f := FirstExists(keys);
    }
    var i :| i in keys && forall j | j in keys :: NotAfter(keys, i, j);
    i
  }

  /** The documents in order. */
  function Sorted(keys: Keys): (order: seq<nat>)
    decreases |keys|
  {
    if keys == map[] then []
    else
      var i := First(keys);
      assert |keys - {i}| < |keys| by {
        assert keys.Keys == (keys - {i}).Keys + {i};
      }
      [i] + Sorted(keys - {i})
  }

  lemma {:induction false} SortedHas(keys: Keys, i: nat)
    ensures i in Sorted(keys) <==> i in keys
    decreases |keys|
  {
    if keys != map[] {
      var rest := keys - {First(keys)};
      assert keys.Keys == rest.Keys + {First(keys)};
      SortedHas(rest, i);
    }
  }

  /** Sorting loses and repeats nothing and respects the keys. */
  lemma {:induction false} SortedIsFaithful(keys: Keys, a: nat, b: nat)
    requires a < b < |Sorted(keys)|
    ensures Sorted(keys)[a] in keys && Sorted(keys)[b] in keys
    ensures Sorted(keys)[a] != Sorted(keys)[b] && NotAfter(keys, Sorted(keys)[a], Sorted(keys)[b])
    decreases |keys|
  {
    var rest := keys - {First(keys)};
    assert keys.Keys == rest.Keys + {First(keys)};
    SortedHas(rest, Sorted(rest)[b - 1]);
    if a > 0 {
      SortedIsFaithful(rest, a - 1, b - 1);
    }
  }
}
