/**
 * The paginator of ASCReaderApp: the page slice copied into the table by
 * `updateTableWithCurrentPage` and the page numbers and button flags computed
 * by `updatePaginationControls`, over a record list of any length.
 */
module Paging {

  /** `RECORDS_PER_PAGE`. */
  const RecordsPerPage := 100

  /**
   * `(int) Math.ceil((double) n / RECORDS_PER_PAGE)`, as integer ceiling division:
   * the fewest pages of 100 that hold `n` records, 0 for no records.
   */
  function TotalPages(n: nat): (t: nat)
    ensures t * RecordsPerPage >= n
    ensures n > 0 ==> (t - 1) * RecordsPerPage < n
    ensures t == 0 <==> n == 0
  {
    (n + RecordsPerPage - 1) / RecordsPerPage
  }

  /** The index invariant: a page of the list, or page 0 when the list is empty. */
  predicate ValidPage(n: nat, p: nat)
  {
    if n == 0 then p == 0 else p < TotalPages(n)
  }

  function Min(a: int, b: int): int
  {
    if a <= b then a else b
  }

  /** `startIndex` of page `p`. */
  function PageStart(p: nat): nat
  {
    p * RecordsPerPage
  }

  /** `endIndex` of page `p`: one past its last record. */
  function PageEnd(n: nat, p: nat): nat
  {
    Min(PageStart(p) + RecordsPerPage, n)
  }

  /** The records the table shows for page `p`: those from `startIndex` up to `endIndex`. */
  function PageSlice<T>(records: seq<T>, p: nat): (page: seq<T>)
    ensures |page| <= RecordsPerPage
    ensures PageStart(p) < |records| ==> |page| == PageEnd(|records|, p) - PageStart(p)
    ensures PageStart(p) >= |records| ==> page == []
    ensures forall i :: 0 <= i < |page| ==> PageStart(p) + i < |records| && page[i] == records[PageStart(p) + i]
  {
    var start := PageStart(p);
    var end := PageEnd(|records|, p);
    if start < end then records[start..end] else []
  }

  /**
   * A valid page of a non-empty list holds between 1 and 100 records, all pages
   * but the last hold exactly 100, and the page is the infix of the list from
   * `100 p` to `min(100 p + 100, n)`.
   */
  lemma PageSize<T>(records: seq<T>, p: nat)
    requires |records| > 0 && ValidPage(|records|, p)
    ensures 1 <= |PageSlice(records, p)| <= RecordsPerPage
    ensures p < TotalPages(|records|) - 1 ==> |PageSlice(records, p)| == RecordsPerPage
    ensures p == TotalPages(|records|) - 1 ==> PageEnd(|records|, p) == |records|
    ensures PageSlice(records, p) == records[PageStart(p)..PageEnd(|records|, p)]
  {
  }

  /** The first `k` pages, one after the other. */
  function Pages<T>(records: seq<T>, k: nat): seq<T>
  {
    if k == 0 then [] else Pages(records, k - 1) + PageSlice(records, k - 1)
  }

  /** A page before the last page count starts inside the list and ends 100 records later or at the end. */
  lemma PageBounds(n: nat, p: nat)
    requires p < TotalPages(n)
    ensures PageStart(p) < PageEnd(n, p)
    ensures PageStart(p) == Min(p * RecordsPerPage, n)
    ensures PageEnd(n, p) == Min((p + 1) * RecordsPerPage, n)
  {
  }

  /** A prefix followed by the infix after it is the longer prefix. */
  lemma PrefixThenInfix<T>(s: seq<T>, lo: nat, hi: nat)
    requires lo <= hi <= |s|
    ensures s[..lo] + s[lo..hi] == s[..hi]
  {
  }

  /** The first `k` pages are the list's first `min(100 k, n)` records. */
  lemma {:induction false} PagesPrefix<T>(records: seq<T>, k: nat)
    requires k <= TotalPages(|records|)
    ensures Pages(records, k) == records[..Min(k * RecordsPerPage, |records|)]
  {
    if k > 0 {
      PagesPrefix(records, k - 1);
      PageBounds(|records|, k - 1);
      PrefixThenInfix(records, PageStart(k - 1), PageEnd(|records|, k - 1));
    }
  }

  /** Paging loses, repeats and reorders nothing: the pages in order are the whole list. */
  lemma PagesCoverRecords<T>(records: seq<T>)
    ensures Pages(records, TotalPages(|records|)) == records
  {
    PagesPrefix(records, TotalPages(|records|));
    assert records[..|records|] == records;
  }

  /** The page label "Página x de y (a-b de n registros)", or the empty-list label. */
  datatype PageInfo =
    | NoPages
    | Showing(pageNumber: int, totalPages: int, startRecord: int, endRecord: int, totalRecords: int)

  /** What `updatePaginationControls` shows: the label's numbers and whether each button is enabled. */
  datatype PageControls = PageControls(info: PageInfo, previousEnabled: bool, nextEnabled: bool)

  /** `updatePaginationControls` for `n` records on page `p`. */
  function Controls(n: nat, p: nat): PageControls
  {
    var totalPages := TotalPages(n);
    if totalPages == 0 then PageControls(NoPages, false, false)
    else
      var startRecord := p * RecordsPerPage + 1;
      var endRecord := Min((p + 1) * RecordsPerPage, n);
      PageControls(Showing(p + 1, totalPages, startRecord, endRecord, n), p > 0, p < totalPages - 1)
  }

  /**
   * The label numbers the records on the page: it counts pages from 1,
   * `startRecord` is one past `startIndex` and `endRecord` is `endIndex`, so the
   * page is exactly the records numbered `startRecord` to `endRecord` (counting
   * from 1). Previous is enabled exactly when there is an earlier page, next
   * exactly when records follow this page. An empty list shows no pages and
   * enables neither button.
   */
  lemma ControlsDescribePage<T>(records: seq<T>, p: nat)
    requires ValidPage(|records|, p)
    ensures var c := Controls(|records|, p);
      && (|records| == 0 ==> c == PageControls(NoPages, false, false))
      && (|records| > 0 ==>
            && c.info.Showing?
            && c.info.pageNumber == p + 1
            && c.info.totalPages == TotalPages(|records|)
            && c.info.totalRecords == |records|
            && c.info.startRecord == PageStart(p) + 1
            && c.info.endRecord == PageEnd(|records|, p)
            && 1 <= c.info.startRecord <= c.info.endRecord <= |records|
            && PageSlice(records, p) == records[c.info.startRecord - 1..c.info.endRecord])
      && (c.previousEnabled <==> p > 0)
      && (c.nextEnabled <==> PageEnd(|records|, p) < |records|)
  {
  }

  /**
   * 250 records: three pages; page 0 holds records 1 to 100 and page 2 records
   * 201 to 250; previous is disabled on page 0 and next on page 2.
   */
  lemma TwoHundredFiftyRecords<T>(records: seq<T>)
    requires |records| == 250
    ensures TotalPages(250) == 3
    ensures PageSlice(records, 0) == records[0..100]
    ensures PageSlice(records, 2) == records[200..250]
    ensures !Controls(250, 0).previousEnabled && Controls(250, 0).nextEnabled
    ensures Controls(250, 2).previousEnabled && !Controls(250, 2).nextEnabled
    ensures Controls(250, 2).info == Showing(3, 3, 201, 250, 250)
  {
  }
}
