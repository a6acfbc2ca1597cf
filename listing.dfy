/**
 * The `/transactions` listing: every record matching the search, in store
 * order, skipped and limited to one page. No month filter takes part.
 */
module Listing {
  import opened Wrappers
  import opened Records
  import opened Search

  const DefaultPage := 1
  const DefaultPerPage := 10
  const DefaultSearch: string := ""

  function Min(a: int, b: int): int {
    if a <= b then a else b
  }

  /** The store's `skip(n)`: drop the first `n` results, or all of them. */
  function Skip(s: seq<Transaction>, n: nat): (r: seq<Transaction>)
    ensures |r| == if n >= |s| then 0 else |s| - n
    ensures forall i :: 0 <= i < |r| ==> r[i] == s[n + i]
  {
    if n >= |s| then [] else s[n..]
  }

  /** The store's `limit(n)` for a positive `n`: keep at most the first `n` results. */
  function Limit(s: seq<Transaction>, n: nat): (r: seq<Transaction>)
    requires n >= 1
    ensures |r| == Min(n, |s|)
    ensures r <= s
  {
    if n >= |s| then s else s[..n]
  }

  /** The number of results skipped before page `page`: `(page - 1) * perPage`. */
  function Offset(page: int, perPage: int): nat
    requires page >= 1 && perPage >= 1
  {
    PageOffsets(page, perPage);
    (page - 1) * perPage
  }

  /**
   * One page of a result sequence: the results from offset `(page - 1) * perPage` on,
   * at most `perPage` of them, and none once the offset is past the end.
   */
  function Page(results: seq<Transaction>, page: int, perPage: int): (r: seq<Transaction>)
    requires page >= 1 && perPage >= 1
    ensures var offset := Offset(page, perPage);
      && |r| == (if offset >= |results| then 0 else Min(perPage, |results| - offset))
      && forall i :: 0 <= i < |r| ==> r[i] == results[offset + i]
  {
    Limit(Skip(results, Offset(page, perPage)), perPage)
  }

  /** The results between the offset of page `page` and that of the next page, both capped at the end. */
  function PageSlice(results: seq<Transaction>, page: int, perPage: int): seq<Transaction>
    requires page >= 1 && perPage >= 1
  {
    var offset := Offset(page, perPage);
    results[Min(offset, |results|)..Min(offset + perPage, |results|)]
  }

  /** The listing: one page of the records matching `search`, taken from the whole store. */
  function ListTransactions(store: seq<Transaction>, search: string, page: int, perPage: int): (r: seq<Transaction>)
    requires page >= 1 && perPage >= 1
    ensures var matches, offset := SearchResults(store, search), Offset(page, perPage);
      && |r| == (if offset >= |matches| then 0 else Min(perPage, |matches| - offset))
      && forall i :: 0 <= i < |r| ==> r[i] == matches[offset + i]
  {
    Page(SearchResults(store, search), page, perPage)
  }

  /** The query string of the route; an absent parameter takes its default. */
  datatype ListQuery = ListQuery(page: Option<int>, perPage: Option<int>, search: Option<string>)

  predicate ValidQuery(q: ListQuery) {
    (q.page.Some? ==> q.page.value >= 1) && (q.perPage.Some? ==> q.perPage.value >= 1)
  }

  /**
   * The route: each absent parameter takes its own default (page 1, 10 per page,
   * the empty search), then one page of the matching records.
   */
  function ListRoute(store: seq<Transaction>, q: ListQuery): (r: seq<Transaction>)
    requires ValidQuery(q)
    ensures r == Page(SearchResults(store, q.search.GetOr("")), q.page.GetOr(1), q.perPage.GetOr(10))
    ensures q.perPage.None? ==> |r| <= 10
    ensures q.page.None? ==> r <= SearchResults(store, q.search.GetOr(""))
    ensures q.search.None? ==> r == PageSlice(store, q.page.GetOr(1), q.perPage.GetOr(10))
    ensures q == ListQuery(None, None, None) ==> r == store[..Min(10, |store|)]
  {
    var page := q.page.GetOr(DefaultPage);
    var perPage := q.perPage.GetOr(DefaultPerPage);
    var search := q.search.GetOr(DefaultSearch);
    PageBounds(SearchResults(store, search), page, perPage);
    if q.search.None? then
      ListingHasNoMonthFilter(store, page, perPage);
      ListTransactions(store, search, page, perPage)
    else
      ListTransactions(store, search, page, perPage)
  }

  /** A page holds at most `perPage` results, and the first page is a prefix of them. */
  lemma PageBounds(results: seq<Transaction>, page: int, perPage: int)
    requires page >= 1 && perPage >= 1
    ensures |Page(results, page, perPage)| <= perPage
    ensures page == 1 ==> Page(results, page, perPage) <= results
  {
    PageAsSlice(results, page, perPage);
  }

  /** Without a search, a page is the same slice of the whole store, whatever month the records are in. */
  lemma ListingHasNoMonthFilter(store: seq<Transaction>, page: int, perPage: int)
    requires page >= 1 && perPage >= 1
    ensures ListTransactions(store, "", page, perPage)
         == PageSlice(store, page, perPage)
  {
    EmptySearchMatchesAll(store);
    PageIsSlice(store, Offset(page, perPage), perPage, ListTransactions(store, "", page, perPage));
  }

  /** Pages 1 to `n` of `results` in turn, concatenated. */
  function PagesUpTo(results: seq<Transaction>, perPage: int, n: nat): seq<Transaction>
    requires perPage >= 1
  {
    if n == 0 then [] else PagesUpTo(results, perPage, n - 1) + Page(results, n, perPage)
  }

  /**
   * Paging is a tiling: pages 1 to `n` together are exactly the results before the
   * offset of page `n + 1` (the first `n * perPage`), in order, so every result is
   * listed once and none is skipped.
   */
  lemma {:induction false} PagesTileResults(results: seq<Transaction>, perPage: int, n: nat)
    requires perPage >= 1
    ensures PagesUpTo(results, perPage, n) == results[..Min(Offset(n + 1, perPage), |results|)]
  {
    if n > 0 {
      var lo := Offset(n, perPage);
      PagesTileResults(results, perPage, n - 1);
      PageAsSlice(results, n, perPage);
      SlicesJoin(results, lo, lo + perPage);
      OffsetNext(n, perPage);
    }
  }

  /** Two adjacent capped slices join into one. */
  lemma SlicesJoin(results: seq<Transaction>, lo: nat, hi: nat)
    requires lo <= hi
    ensures results[..Min(lo, |results|)] + results[Min(lo, |results|)..Min(hi, |results|)]
         == results[..Min(hi, |results|)]
  {
  }

  /** Page `page` is the slice of the results between its offset and the next page's, both capped at the end. */
  lemma PageAsSlice(results: seq<Transaction>, page: int, perPage: int)
    requires page >= 1 && perPage >= 1
    ensures var offset := Offset(page, perPage);
      Page(results, page, perPage) == results[Min(offset, |results|)..Min(offset + perPage, |results|)]
  {
    PageIsSlice(results, Offset(page, perPage), perPage, Page(results, page, perPage));
  }

  /** Each page starts `perPage` results after the previous one. */
  lemma OffsetNext(n: int, perPage: int)
    requires n >= 1 && perPage >= 1
    ensures Offset(n + 1, perPage) == Offset(n, perPage) + perPage
  {
    PageOffsets(n, perPage);
  }

  lemma PageOffsets(n: int, perPage: int)
    requires n >= 1 && perPage >= 1
    ensures (n - 1) * perPage >= 0
    ensures n * perPage == (n - 1) * perPage + perPage
  {
  }

  /** A page fixed by its length and elements is the slice between its two bounds. */
  lemma PageIsSlice(matches: seq<Transaction>, lo: nat, perPage: int, page: seq<Transaction>)
    requires perPage >= 1
    requires |page| == (if lo >= |matches| then 0 else Min(perPage, |matches| - lo))
    requires forall i :: 0 <= i < |page| ==> page[i] == matches[lo + i]
    ensures page == matches[Min(lo, |matches|)..Min(lo + perPage, |matches|)]
  {
  }
}
