/** Client-side pagination shared by the order, food-item and complaint tables:
    `totalPages = Math.ceil(n / perPage)` and page `p` is
    `items.slice((p - 1) * perPage, (p - 1) * perPage + perPage)`. */
module Pagination {

  /** `Math.ceil(n / perPage)` for a positive page size. */
  function TotalPages(n: nat, perPage: nat): (r: nat)
    requires perPage > 0
    ensures n <= r * perPage
    ensures r == 0 || (r - 1) * perPage < n
  {
    (n + perPage - 1) / perPage
  }

  /** How `Array.prototype.slice` reads an index: negative counts from the end,
      then the result is clamped to `[0, len]`. */
  function SliceIndex(i: int, len: nat): (r: nat)
    ensures r <= len
  {
    if i < 0 then (if i + len < 0 then 0 else i + len)
    else if i > len then len
    else i
  }

  /** `s.slice(start, end)`. */
  function JsSlice<T>(s: seq<T>, start: int, end: int): seq<T>
  {
    var a := SliceIndex(start, |s|);
    var b := SliceIndex(end, |s|);
    if a < b then s[a..b] else []
  }

  /** The rows shown on page `page` (pages are numbered from 1). */
  function PageItems<T>(s: seq<T>, page: int, perPage: nat): seq<T>
  {
    var start := (page - 1) * perPage;
    JsSlice(s, start, start + perPage)
  }

  /** A page never shows more than `perPage` rows, whatever page number is asked for. */
  lemma PageAtMostPerPage<T>(s: seq<T>, page: int, perPage: nat)
    ensures |PageItems(s, page, perPage)| <= perPage
  {
    var start := (page - 1) * perPage;
    var a := SliceIndex(start, |s|);
    var b := SliceIndex(start + perPage, |s|);
    if start < 0 && start + perPage >= 0 {
      assert a >= start + |s|;
    }
  }

  /** Row `k` of page `page` is row `(page - 1) * perPage + k` of the whole list. */
  lemma PageItemAt<T>(s: seq<T>, page: int, perPage: nat, k: nat)
    requires page >= 1 && k < perPage && (page - 1) * perPage + k < |s|
    ensures k < |PageItems(s, page, perPage)|
    ensures PageItems(s, page, perPage)[k] == s[(page - 1) * perPage + k]
  {
    assert (page - 1) * perPage >= 0 by {
      assert page - 1 >= 0;
    }
  }

  /** Pages 1..totalPages are non-empty; every page after them is empty. */
  lemma PageEmptyIffBeyondLast<T>(s: seq<T>, page: int, perPage: nat)
    requires perPage > 0 && page >= 1
    ensures PageItems(s, page, perPage) == [] <==> page > TotalPages(|s|, perPage)
  {
    var t := TotalPages(|s|, perPage);
    var start := (page - 1) * perPage;
    assert start >= 0 by { assert page - 1 >= 0; }
    if page > t {
      assert page - 1 >= t;
      MulMonotone(t, page - 1, perPage);
    } else {
      assert page - 1 <= t - 1;
      MulMonotone(page - 1, t - 1, perPage);
    }
  }

  lemma MulMonotone(x: nat, y: nat, k: nat)
    requires x <= y
    ensures x * k <= y * k
  {
  }

  /** The first `m` pages, concatenated. */
  function FirstPages<T>(s: seq<T>, perPage: nat, m: nat): seq<T>
  {
    if m == 0 then [] else FirstPages(s, perPage, m - 1) + PageItems(s, m, perPage)
  }

  function Min(a: nat, b: nat): nat { if a <= b then a else b }

  /** For a page numbered from 1 the slice bounds are non-negative, so no wrap-around happens. */
  lemma PageAsSlice<T>(s: seq<T>, page: int, perPage: nat)
    requires page >= 1
    ensures (page - 1) * perPage >= 0
    ensures PageItems(s, page, perPage)
         == s[Min((page - 1) * perPage, |s|)..Min((page - 1) * perPage + perPage, |s|)]
  {
    var lo := (page - 1) * perPage;
    assert lo >= 0 by { MulMonotone(0, page - 1, perPage); }
  }

  lemma SliceJoin<T>(s: seq<T>, a: nat, b: nat)
    requires a <= b <= |s|
    ensures s[..a] + s[a..b] == s[..b]
  {
  }

  lemma {:induction false} FirstPagesPrefix<T>(s: seq<T>, perPage: nat, m: nat)
    ensures FirstPages(s, perPage, m) == s[..Min(m * perPage, |s|)]
  {
    if m > 0 {
      FirstPagesPrefix(s, perPage, m - 1);
      PageAsSlice(s, m, perPage);
      var lo := (m - 1) * perPage;
      assert lo + perPage == m * perPage;
      SliceJoin(s, Min(lo, |s|), Min(lo + perPage, |s|));
    }
  }

  /** Pages 1..totalPages, concatenated, give back the whole list: pagination
      loses and repeats nothing. */
  lemma PagesCoverList<T>(s: seq<T>, perPage: nat)
    requires perPage > 0
    ensures FirstPages(s, perPage, TotalPages(|s|, perPage)) == s
  {
    var t := TotalPages(|s|, perPage);
    FirstPagesPrefix(s, perPage, t);
    assert Min(t * perPage, |s|) == |s|;
  }

  /** Every row a page shows is a row of the list. */
  lemma PageRowsFromList<T>(s: seq<T>, page: int, perPage: nat)
    ensures forall k :: 0 <= k < |PageItems(s, page, perPage)| ==> PageItems(s, page, perPage)[k] in s
  {
    var p := PageItems(s, page, perPage);
    var a := SliceIndex((page - 1) * perPage, |s|);
    var b := SliceIndex((page - 1) * perPage + perPage, |s|);
    if a < b {
      forall k | 0 <= k < |p| ensures p[k] in s {
        assert p[k] == s[a + k];
      }
    }
  }

  /** What a table shows on one page: at most `perPage` rows of the list, and
      nothing exactly when the page is past the last one. */
  lemma PageFacts<T>(s: seq<T>, page: int, perPage: nat)
    requires perPage > 0
    ensures |PageItems(s, page, perPage)| <= perPage
    ensures page >= 1 ==> (PageItems(s, page, perPage) == [] <==> page > TotalPages(|s|, perPage))
    ensures forall k :: 0 <= k < |PageItems(s, page, perPage)| ==> PageItems(s, page, perPage)[k] in s
  {
    PageAtMostPerPage(s, page, perPage);
    if page >= 1 {
      PageEmptyIffBeyondLast(s, page, perPage);
    }
    PageRowsFromList(s, page, perPage);
  }
}
