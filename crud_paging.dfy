/** The query-dependent decisions of the CRUD store: which page window
    `getPage` fetches, which options `refreshDocuments` hands to the count and
    find calls, and the two query predicates. */
module CrudPaging {
  import opened Base

  /** The top-level keys of a query sub-document (filter, projection,
      collation, sort); an absent sub-document has no keys. */
  type Fields = seq<string>

  /** The last query applied in the query bar. */
  datatype Query = Query(
    filter: Fields,
    project: Fields,
    collation: Fields,
    sort: Option<Fields>,
    skip: Option<int>,
    limit: Option<int>,
    maxTimeMS: Option<int>)

  /** The documents status constants of the store. */
  datatype DocumentsStatus =
    | StatusInitial
    | StatusFetching
    | StatusFetchedInitial
    | StatusFetchedCustom
    | StatusFetchedPagination
    | StatusError

  /** Count queries get at most this many milliseconds, unless the query
      asks for less. */
  const COUNT_MAX_TIME_MS_CAP: int := 5000

  /** `getPage`'s `if (limit)`: a limit is set when present and non-zero. */
  predicate IsLimitSet(q: Query) {
    q.limit.Some? && q.limit.value != 0
  }

  /** The sort the find call uses: the query's own (even an empty one), else
      the preference's default sort order when one is set, else none. */
  datatype SortChoice = QuerySort(keys: Fields) | DefaultSortOrder | NoSort

  /** The find call `getPage` issues: the page it is for, the documents it
      skips, how many it asks for, the sort it passes on, and the maxTimeMS it
      hands to the preference cap. */
  datatype PageRequest = PageRequest(page: int, skip: int, limit: int, sort: SortChoice, maxTimeMS: Option<int>)

  /** `getPage` passes the query's own sort on as it is: the query's keys
      when it has a sort, otherwise none. It never falls back to the default
      sort order. */
  function PageSort(q: Query): (sort: SortChoice)
    ensures !sort.DefaultSortOrder?
    ensures sort.QuerySort? <==> q.sort.Some?
    ensures q.sort.Some? ==> sort.keys == q.sort.value
  {
    match q.sort
    case Some(keys) => QuerySort(keys)
    case None => NoSort
  }

  /** The request `getPage(page)` issues as the code is written, or None when
      it returns without fetching. The documents left under a set limit are
      computed as limit - (query skip + page * docsPerPage), which counts the
      query's skip against a limit that the server applies after the skip. */
  function PageRequestAsWritten(page: int, status: DocumentsStatus, docsPerPage: int, q: Query): (r: Option<PageRequest>)
    ensures r.None? <==>
      page < 0 || status == StatusFetching ||
      (IsLimitSet(q) && q.limit.value - (q.skip.GetOr(0) + page * docsPerPage) < 1)
    ensures r.Some? ==>
      r.value.page == page && r.value.maxTimeMS == q.maxTimeMS && r.value.sort == PageSort(q) &&
      r.value.skip == q.skip.GetOr(0) + page * docsPerPage
    ensures r.Some? && !IsLimitSet(q) ==> r.value.limit == docsPerPage
    ensures r.Some? && IsLimitSet(q) ==>
      r.value.limit == Min(docsPerPage, q.limit.value - r.value.skip) &&
      r.value.skip + r.value.limit <= q.limit.value
  {
    if page < 0 then None
    else if status == StatusFetching then None
    else
      var skip := q.skip.GetOr(0) + page * docsPerPage;
      if IsLimitSet(q) then
        var remaining := q.limit.value - skip;
        if remaining < 1 then None
        else Some(PageRequest(page, skip, if remaining < docsPerPage then remaining else docsPerPage, PageSort(q), q.maxTimeMS))
      else Some(PageRequest(page, skip, docsPerPage, PageSort(q), q.maxTimeMS))
  }

  /** The request `getPage(page)` issues, or None when it returns without
      fetching, with the limit counted from the query's skip: the documents
      left are limit - page * docsPerPage. It never reads past the limited
      result and never asks for more than a page. */
  function PageRequestFor(page: int, status: DocumentsStatus, docsPerPage: int, q: Query): (r: Option<PageRequest>)
    ensures r.None? <==>
      page < 0 || status == StatusFetching ||
      (IsLimitSet(q) && q.limit.value - page * docsPerPage < 1)
    ensures r.Some? ==>
      r.value.page == page && r.value.maxTimeMS == q.maxTimeMS && r.value.sort == PageSort(q) &&
      r.value.skip == q.skip.GetOr(0) + page * docsPerPage
    ensures r.Some? && !IsLimitSet(q) ==> r.value.limit == docsPerPage
    ensures r.Some? && IsLimitSet(q) ==>
      r.value.limit == Min(docsPerPage, q.limit.value - page * docsPerPage) &&
      r.value.skip + r.value.limit <= q.skip.GetOr(0) + q.limit.value
  {
    if page < 0 then None
    else if status == StatusFetching then None
    else
      var skip := q.skip.GetOr(0) + page * docsPerPage;
      if IsLimitSet(q) then
        var remaining := q.limit.value - page * docsPerPage;
        if remaining < 1 then None
        else Some(PageRequest(page, skip, if remaining < docsPerPage then remaining else docsPerPage, PageSort(q), q.maxTimeMS))
      else Some(PageRequest(page, skip, docsPerPage, PageSort(q), q.maxTimeMS))
  }

  /** How many documents the requests for pages 0 .. pages-1 ask for. */
  function PagedTotal(pages: nat, status: DocumentsStatus, docsPerPage: int, q: Query): int
    decreases pages
  {
    if pages == 0 then 0
    else
      PagedTotal(pages - 1, status, docsPerPage, q) +
      (match PageRequestFor(pages - 1, status, docsPerPage, q)
       case Some(r) => r.limit
       case None => 0)
  }

  /** Under a positive limit, page p asks for the documents between
      p * docsPerPage and (p + 1) * docsPerPage that lie within the limit. */
  lemma PageSizeWithinLimit(p: nat, status: DocumentsStatus, docsPerPage: int, q: Query)
    requires status != StatusFetching
    requires docsPerPage > 0
    requires HasPositiveLimit(q)
    ensures var r := PageRequestFor(p, status, docsPerPage, q);
      (if r.Some? then r.value.limit else 0) ==
        Min(p * docsPerPage + docsPerPage, q.limit.value) - Min(p * docsPerPage, q.limit.value)
  {
  }

  /** Page p + 1 starts one page after page p. */
  lemma NextPageStart(p: nat, docsPerPage: int)
    ensures (p + 1) * docsPerPage == p * docsPerPage + docsPerPage
  {
  }

  /** Under a positive limit, the first `pages` pages together ask for
      min(pages * docsPerPage, limit) documents: paging reaches every
      document of the limited result and none past it. */
  lemma {:induction false} PagesReachTheLimit(pages: nat, status: DocumentsStatus, docsPerPage: int, q: Query)
    requires status != StatusFetching
    requires docsPerPage > 0
    requires HasPositiveLimit(q)
    ensures PagedTotal(pages, status, docsPerPage, q) == Min(pages * docsPerPage, q.limit.value)
  {
    if pages > 0 {
      var p := pages - 1;
      PagesReachTheLimit(p, status, docsPerPage, q);
      PageSizeWithinLimit(p, status, docsPerPage, q);
      NextPageStart(p, docsPerPage);
    }
  }

  /** With query skip 10, limit 30 and 25 documents per page, the code as
      written asks for 20 documents on page 0 where the refresh asks for 25,
      and never requests page 1, although the count reports 30 documents;
      the corrected request fetches the remaining 5. */
  lemma SkipCountedAgainstLimit()
    ensures var q := Query([], [], [], None, Some(10), Some(30), None);
      var plan := RefreshPlanFor(25, false, q, false);
      PageRequestAsWritten(0, StatusFetchedInitial, 25, q).value.limit == 20 &&
      plan.find.limit == 25 && plan.count.limit == Some(30) &&
      PageRequestAsWritten(1, StatusFetchedInitial, 25, q).None? &&
      PageRequestFor(1, StatusFetchedInitial, 25, q) == Some(PageRequest(1, 35, 5, NoSort, None))
  {
  }

  /** The 1-based positions `start`..`end` the store shows after loading
      `count` documents that follow `skip` others. */
  datatype Window = Window(start: int, end: int)

  function LoadedWindow(skip: int, count: nat): (w: Window)
    ensures count > 0 ==> w.start == skip + 1 && w.end - w.start + 1 == count
    ensures count == 0 ==> w.start == 0 && w.end == skip
  {
    Window(if count == 0 then 0 else skip + 1, skip + count)
  }

  /** After `refreshDocuments` the window starts at 1 whatever the query's
      skip, while `getPage(0)` counts the query's skip in: for the same
      non-empty result the two windows differ by exactly that skip. */
  lemma {:induction false} PageZeroWindowShiftedBySkip(q: Query, status: DocumentsStatus, docsPerPage: int, count: nat)
    requires status != StatusFetching
    requires !IsLimitSet(q)
    ensures var r := PageRequestAsWritten(0, status, docsPerPage, q);
      r.Some? &&
      LoadedWindow(r.value.skip, count).start ==
        LoadedWindow(0, count).start + (if count > 0 then q.skip.GetOr(0) else 0) &&
      LoadedWindow(r.value.skip, count).end == LoadedWindow(0, count).end + q.skip.GetOr(0)
  {
    var r := PageRequestAsWritten(0, status, docsPerPage, q);
    assert r.value.skip == q.skip.GetOr(0) + 0 * docsPerPage;
  }

  /** The maxTimeMS handed (before the preference cap) to the count call:
      the query's, capped at COUNT_MAX_TIME_MS_CAP. */
  function CountMaxTime(maxTimeMS: Option<int>): (r: Option<int>)
    ensures r.None? <==> maxTimeMS.None?
    ensures r.Some? ==> r.value == Min(maxTimeMS.value, COUNT_MAX_TIME_MS_CAP)
  {
    if maxTimeMS.GetOr(0) > COUNT_MAX_TIME_MS_CAP then Some(COUNT_MAX_TIME_MS_CAP) else maxTimeMS
  }

  /** A positive query limit applies to find and count; any other limit is
      ignored (read-only views cannot take a limit of 0). */
  predicate HasPositiveLimit(q: Query) {
    q.limit.Some? && q.limit.value > 0
  }

  /** It is safe to hint the `_id_` index to the count when the collection
      is not time-series (those have no `_id_` index) and the filter is empty. */
  function IsCountHintSafe(isTimeSeries: bool, q: Query): (safe: bool)
    ensures safe <==> !isTimeSeries && |q.filter| == 0
  {
    if isTimeSeries then false
    else if |q.filter| > 0 then false
    else true
  }

  /** The query is the initial one: no filter, projection or collation
      (lodash `isEmpty` of each, an absent one counting as empty). */
  function IsInitialQuery(q: Query): (initial: bool)
    ensures initial ==> IsCountHintSafe(false, q)
    ensures initial <==> q.filter == [] && q.project == [] && q.collation == []
  {
    |q.filter| == 0 && |q.project| == 0 && |q.collation| == 0
  }

  /** `hasProjection`: the query projects some fields. */
  function HasProjection(q: Query): (projects: bool)
    ensures projects ==> !IsInitialQuery(q)
    ensures projects <==> q.project != []
  {
    |q.project| > 0
  }

  datatype FindOptions = FindOptions(skip: Option<int>, limit: int, sort: SortChoice, maxTimeMS: Option<int>)

  datatype CountOptions = CountOptions(skip: Option<int>, limit: Option<int>, maxTimeMS: Option<int>, idHint: bool)

  /** What `refreshDocuments` decides before it awaits: the find and count
      options, whether it asks for an explain plan (which otherwise resets
      the collection-scan flag), and which fetched status a success reports. */
  datatype RefreshPlan = RefreshPlan(find: FindOptions, count: CountOptions, explain: bool, initialQuery: bool)

  /** The plan `refreshDocuments` builds for a query. */
  function RefreshPlanFor(docsPerPage: int, isTimeSeries: bool, q: Query, hasDefaultSort: bool): (p: RefreshPlan)
    ensures p.count.maxTimeMS.None? <==> q.maxTimeMS.None?
    ensures p.count.maxTimeMS.Some? ==> p.count.maxTimeMS.value == Min(q.maxTimeMS.value, COUNT_MAX_TIME_MS_CAP)
    ensures p.find.maxTimeMS == q.maxTimeMS
    ensures p.find.limit <= docsPerPage
    ensures HasPositiveLimit(q) ==> p.find.limit == Min(docsPerPage, q.limit.value) && p.count.limit == q.limit
    ensures !HasPositiveLimit(q) ==> p.find.limit == docsPerPage && p.count.limit.None?
    ensures p.find.skip == q.skip && p.count.skip == q.skip
    ensures p.count.idHint <==> !isTimeSeries && |q.filter| == 0
    ensures p.explain <==> |q.filter| > 0 || (q.sort.Some? && |q.sort.value| > 0)
    ensures p.initialQuery <==> IsInitialQuery(q)
    ensures p.find.sort.QuerySort? <==> q.sort.Some?
    ensures q.sort.Some? ==> p.find.sort == QuerySort(q.sort.value)
    ensures p.find.sort.DefaultSortOrder? <==> q.sort.None? && hasDefaultSort
  {
    var sort := if q.sort.Some? then QuerySort(q.sort.value)
                else if hasDefaultSort then DefaultSortOrder
                else NoSort;
    var findLimit := if HasPositiveLimit(q) then Min(docsPerPage, q.limit.value) else docsPerPage;
    var countLimit := if HasPositiveLimit(q) then q.limit else None;
    RefreshPlan(
      FindOptions(q.skip, findLimit, sort, q.maxTimeMS),
      CountOptions(q.skip, countLimit, CountMaxTime(q.maxTimeMS), IsCountHintSafe(isTimeSeries, q)),
      |q.filter| > 0 || (q.sort.Some? && |q.sort.value| > 0),
      IsInitialQuery(q))
  }

  /** What a refresh does with the initial query: on an ordinary collection
      its count always gets the `_id_` hint, without a sort it asks for no
      explain plan (so the collection-scan badge is reset), and a query with
      a projection is never reported as the initial one. */
  lemma InitialQueryPlan(docsPerPage: int, isTimeSeries: bool, q: Query, hasDefaultSort: bool)
    ensures var p := RefreshPlanFor(docsPerPage, isTimeSeries, q, hasDefaultSort);
      (HasProjection(q) ==> !p.initialQuery) &&
      (IsInitialQuery(q) && !isTimeSeries ==> p.count.idHint) &&
      (IsInitialQuery(q) && (q.sort.None? || q.sort.value == []) ==> !p.explain)
  {
  }

  /** The first page of a refresh and the corrected request for page 0 ask
      for the same number of documents after the same skip, whatever the
      query's skip, when the limit is positive or not set. */
  lemma FirstPageAgreesWithRefresh(q: Query, status: DocumentsStatus, docsPerPage: int, isTimeSeries: bool, hasDefaultSort: bool)
    requires status != StatusFetching
    requires HasPositiveLimit(q) || !IsLimitSet(q)
    ensures var r := PageRequestFor(0, status, docsPerPage, q);
      var find := RefreshPlanFor(docsPerPage, isTimeSeries, q, hasDefaultSort).find;
      r.Some? && r.value.limit == find.limit && r.value.skip == find.skip.GetOr(0)
  {
    var r := PageRequestFor(0, status, docsPerPage, q);
    assert 0 * docsPerPage == 0;
  }

  /** `getPage(0)` as written asks for as many documents as the first page
      of a refresh when the query has no skip and the limit is positive or
      not set; with a skip, `SkipCountedAgainstLimit` shows they differ. */
  lemma FirstPageAsWrittenAgreesWithoutSkip(q: Query, status: DocumentsStatus, docsPerPage: int, isTimeSeries: bool, hasDefaultSort: bool)
    requires status != StatusFetching
    requires q.skip.GetOr(0) == 0
    requires HasPositiveLimit(q) || !IsLimitSet(q)
    ensures var r := PageRequestAsWritten(0, status, docsPerPage, q);
      var find := RefreshPlanFor(docsPerPage, isTimeSeries, q, hasDefaultSort).find;
      r.Some? && r.value.limit == find.limit && r.value.skip == find.skip.GetOr(0)
  {
    var r := PageRequestAsWritten(0, status, docsPerPage, q);
    assert 0 * docsPerPage == 0;
  }

  /** `getPage` and the refresh sort alike exactly when the query has its
      own sort: with no sort and a default sort order set, the refresh's
      first page is sorted by the default order and every page `getPage`
      fetches is not sorted at all. */
  lemma PageSortAgreesWithRefreshIffQuerySorts(page: int, status: DocumentsStatus, docsPerPage: int, isTimeSeries: bool, q: Query, hasDefaultSort: bool)
    requires PageRequestAsWritten(page, status, docsPerPage, q).Some?
    ensures var r := PageRequestAsWritten(page, status, docsPerPage, q).value;
      var find := RefreshPlanFor(docsPerPage, isTimeSeries, q, hasDefaultSort).find;
      (r.sort == find.sort <==> q.sort.Some? || !hasDefaultSort) &&
      (q.sort.None? && hasDefaultSort ==> r.sort == NoSort && find.sort == DefaultSortOrder)
  {
  }
}
