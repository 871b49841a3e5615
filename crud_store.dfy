/** The CRUD documents store (`CrudStoreImpl`): the paged document list of
    one collection, its single-document edits, the bulk-delete dialog and
    the table-view path. The store's `state` record is replaced field-wise
    by `setState`, which is what every method below does to `state`. Driver
    calls are inputs to the methods: each method takes how the call it makes
    would settle. Methods that await a fetch are split at the await into a
    start method and a completion method. */
module Crud {
  import opened Base
  import opened DocumentList
  import opened CrudPaging
  import opened FleFallback

  datatype DocumentView = List | Json | Table

  /** One step of the table view's path: a field name or an array index. */
  datatype PathKey = FieldKey(name: string) | IndexKey(index: int)

  datatype EditParams = EditParams(colId: PathKey, rowIndex: int)

  datatype TableState = TableState(doc: Option<Doc>, path: seq<PathKey>, types: seq<string>, editParams: Option<EditParams>)

  const INITIAL_TABLE_STATE: TableState := TableState(None, [], [], None)

  datatype BulkDeleteStatus = Open | Closed | InProgress

  datatype BulkDeleteState = BulkDeleteState(previews: seq<Doc>, status: BulkDeleteStatus, affected: Option<int>)

  /** The part of the store's state the model keeps. `count` is null while
      unknown; `hasAbortController` says whether a fetch can be cancelled. */
  datatype CrudState = CrudState(
    ns: string,
    docs: seq<Doc>,
    start: int,
    end: int,
    page: int,
    count: Option<int>,
    status: DocumentsStatus,
    error: Option<Error>,
    hasAbortController: bool,
    view: DocumentView,
    isTimeSeries: bool,
    isCollectionScan: bool,
    loadingCount: bool,
    shardKeys: Option<Fields>,
    docsPerPage: int,
    table: TableState,
    bulkDelete: BulkDeleteState)

  /** The events the store emits on an app registry. `document-deleted` goes
      to the plugin-local registry and to the connection-scoped one. */
  datatype Registry = LocalRegistry | ConnectionScopedRegistry

  datatype RegistryEvent = DocumentDeleted(registry: Registry, view: DocumentView, ns: string)

  /** What the store reports on the edited document object. */
  datatype DocFeedback =
    | RemoveSucceeded
    | RemoveFailed(error: Error)
    | UpdateSucceeded(doc: Option<Doc>)
    | UpdateFailed(error: Error)
    | UpdateBlocked

  datatype BulkDeleteResult = NotConfirmed | DeleteManySucceeded | DeleteManyFailed(error: Error)

  /** How the count started by a refresh settles: a count (null when the
      count helper swallowed a server error) or a cancellation. */
  datatype CountOutcome = Counted(count: Option<int>) | CountCancelled

  const DEFAULT_NUM_PAGE_DOCS: int := 25

  const PREVIEW_DOCS: nat := 5

  const DELETE_ERROR: Error := MessageError("Cannot delete documents that do not have an _id field.")

  const EMPTY_UPDATE_ERROR: Error := MessageError("Unable to update, no changes have been made.")

  const UPDATE_NOT_ALLOWED_ERROR: Error :=
    MessageError("Update blocked as it could unintentionally write unencrypted data due to a missing or incomplete schema.")

  const PIPELINE_OPERATOR_HINT: string :=
    " (Updating fields whose names contain dots or start with $ require MongoDB\U{00a0}5.0 or above.)"

  /** The page size: the one last stored, else the default. */
  function InitialDocsPerPage(stored: Option<int>): (n: int)
    ensures stored.Some? ==> n == stored.value
    ensures stored.None? ==> n == DEFAULT_NUM_PAGE_DOCS
  {
    stored.GetOr(DEFAULT_NUM_PAGE_DOCS)
  }

  function InitialState(ns: string, isTimeSeries: bool, storedDocsPerPage: Option<int>): (s: CrudState)
    ensures s.ns == ns && s.isTimeSeries == isTimeSeries
    ensures s.docs == [] && s.start == 0 && s.end == 0 && s.page == 0 && WindowMatchesDocs(s)
    ensures s.count.None? && s.status == StatusInitial && s.error.None? && !s.hasAbortController
    ensures s.view == List && !s.isCollectionScan && !s.loadingCount && s.shardKeys.None?
    ensures s.docsPerPage == InitialDocsPerPage(storedDocsPerPage)
    ensures s.table == INITIAL_TABLE_STATE && s.bulkDelete == BulkDeleteState([], Closed, Some(0))
  {
    CrudState(
      ns, [], 0, 0, 0, None, StatusInitial, None, false, List, isTimeSeries,
      false, false, None, InitialDocsPerPage(storedDocsPerPage), INITIAL_TABLE_STATE,
      BulkDeleteState([], Closed, Some(0)))
  }

  /** The documents the bulk-delete dialog previews: the first PREVIEW_DOCS. */
  function Previews(docs: seq<Doc>): (p: seq<Doc>)
    ensures |p| == Min(PREVIEW_DOCS, |docs|)
    ensures p <= docs
  {
    docs[..Min(PREVIEW_DOCS, |docs|)]
  }

  /** A failed update whose server error names `$getField` or `$setField`
      as an invalid pipeline operator gets a hint appended to its message. */
  function UpdateErrorShown(e: Error): (r: Error)
    ensures r.code == e.code && r.codeName == e.codeName
    ensures r != e <==>
      e.codeName == Some("InvalidPipelineOperator") &&
      (Contains(e.message, "$getField") || Contains(e.message, "$setField"))
    ensures r != e ==> r.message == e.message + PIPELINE_OPERATOR_HINT
  {
    if e.codeName == Some("InvalidPipelineOperator") &&
       (Contains(e.message, "$getField") || Contains(e.message, "$setField"))
    then e.(message := e.message + PIPELINE_OPERATOR_HINT)
    else e
  }

  /** A refresh goes ahead only while the data service is connected and no
      fetch is running. */
  predicate RefreshProceeds(s: CrudState, connected: bool) {
    connected && s.status != StatusFetching
  }

  /** The state `refreshDocuments` sets before it awaits. */
  function RefreshStarted(s: CrudState, plan: RefreshPlan): CrudState {
    s.(isCollectionScan := if plan.explain then s.isCollectionScan else false,
       status := StatusFetching,
       hasAbortController := true,
       error := None,
       count := None,
       loadingCount := true)
  }

  /** The window shown matches the documents shown: a non-empty list is
      numbered `start`..`end` from position 1 on. */
  predicate WindowMatchesDocs(s: CrudState) {
    |s.docs| > 0 ==> s.start >= 1 && s.end - s.start + 1 == |s.docs|
  }

  /** The state after a successful delete of the document with id `id`:
      the list loses that document, the count drops by one unless unknown
      and `end` drops by one but not below 0. */
  function AfterRemove(s: CrudState, id: Option<string>): CrudState {
    s.(docs := RemoveById(s.docs, id),
       count := if s.count.None? then None else Some(s.count.value - 1),
       end := Max(s.end - 1, 0))
  }

  /** The state after a write returned `d` for the document with id `id`. */
  function AfterReplace(s: CrudState, id: Option<string>, d: Doc): CrudState {
    s.(docs := ReplaceById(s.docs, id, d))
  }

  /** Removing a document after a successful delete keeps the window
      matching the list. */
  lemma {:induction false} RemoveKeepsWindow(s: CrudState, id: Option<string>)
    ensures WindowMatchesDocs(s) ==> WindowMatchesDocs(AfterRemove(s, id))
    ensures AfterRemove(s, id).end >= 0
  {
    RemoveLength(s.docs, id);
  }

  /** Replacing a document in a non-empty list keeps the window matching
      the list. */
  lemma {:induction false} ReplaceKeepsWindow(s: CrudState, id: Option<string>, d: Doc)
    requires s.docs != []
    ensures WindowMatchesDocs(s) ==> WindowMatchesDocs(AfterReplace(s, id, d))
  {
    ReplaceLength(s.docs, id, d);
  }

  class CrudStore {
    var state: CrudState
    var emitted: seq<RegistryEvent>

    /** `getInitialState`. */
    constructor (ns: string, isTimeSeries: bool, storedDocsPerPage: Option<int>)
      ensures state == InitialState(ns, isTimeSeries, storedDocsPerPage)
      ensures emitted == []
    {
      state := InitialState(ns, isTimeSeries, storedDocsPerPage);
      emitted := [];
    }

    /** The position of the document with `doc`'s id in the list, or -1. */
    method FindDocumentIndex(doc: Doc) returns (index: int)
      ensures index == IndexOfId(state.docs, doc.id)
    {
      var docs := state.docs;
      index := -1;
      var i := 0;
      while i < |docs|
        invariant 0 <= i <= |docs|
        invariant forall j :: 0 <= j < i ==> docs[j].id != doc.id
      {
        if docs[i].id == doc.id {
          index := i;
          return;
        }
        i := i + 1;
      }
    }

    /** `getPage(page)` up to its await: nothing happens for a negative page,
      while a fetch is running, or when the page starts at or after a set
      limit (counted, as the code does, from the start of the collection
      rather than from the query's skip); otherwise the store marks itself
      fetching and issues `req`. */
    method GetPage(page: int, q: Query) returns (req: Option<PageRequest>)
      modifies this
      ensures req == PageRequestAsWritten(page, old(state.status), old(state.docsPerPage), q)
      ensures req.None? ==> state == old(state)
      ensures req.Some? ==> state == old(state).(status := StatusFetching, hasAbortController := true, error := None)
      ensures emitted == old(emitted)
    {
      if page < 0 {
        return None;
      }
      if state.status == StatusFetching {
        return None;
      }
      var skip := q.skip.GetOr(0) + page * state.docsPerPage;
      var nextPageCount := state.docsPerPage;
      if q.limit.Some? && q.limit.value != 0 {
        var remaining := q.limit.value - skip;
        if remaining < 1 {
          return None;
        }
        if remaining < nextPageCount {
          nextPageCount := remaining;
        }
      }
      req := Some(PageRequest(page, skip, nextPageCount, PageSort(q), q.maxTimeMS));
      state := state.(status := StatusFetching, hasAbortController := true, error := None);
    }

    /** `getPage` after its fetch settles: the page's documents (none on an
      error), the window they occupy, the page number, a reset table path
      and no abort controller. */
    method PageLoaded(req: PageRequest, fetched: Outcome<seq<Doc>>)
      modifies this
      ensures fetched.Ok? ==> state == old(state).(
        error := None, status := StatusFetchedPagination, docs := fetched.value,
        start := LoadedWindow(req.skip, |fetched.value|).start,
        end := LoadedWindow(req.skip, |fetched.value|).end,
        page := req.page, table := INITIAL_TABLE_STATE, hasAbortController := false)
      ensures fetched.Fail? ==> state == old(state).(
        error := Some(fetched.error), status := StatusError, docs := [],
        start := 0, end := req.skip,
        page := req.page, table := INITIAL_TABLE_STATE, hasAbortController := false)
      ensures req.skip >= 0 ==> WindowMatchesDocs(state)
      ensures emitted == old(emitted)
    {
      var documents: seq<Doc>;
      var error: Option<Error>;
      match fetched {
        case Ok(ds) =>
          documents, error := ds, None;
        case Fail(e) =>
          documents, error := [], Some(e);
      }
      var length := if error.Some? then 0 else |documents|;
      state := state.(
        error := error,
        status := if error.Some? then StatusError else StatusFetchedPagination,
        docs := documents,
        start := if length == 0 then 0 else req.skip + 1,
        end := req.skip + length,
        page := req.page,
        table := INITIAL_TABLE_STATE,
        hasAbortController := false);
    }

    /** `refreshDocuments` up to its await: skipped while disconnected or
      fetching; otherwise it builds the find and count options, clears the
      count and marks the store fetching. */
    method RefreshDocuments(connected: bool, q: Query, hasDefaultSort: bool) returns (plan: Option<RefreshPlan>)
      modifies this
      ensures !RefreshProceeds(old(state), connected) ==> plan.None? && state == old(state)
      ensures RefreshProceeds(old(state), connected) ==>
        plan == Some(RefreshPlanFor(old(state.docsPerPage), old(state.isTimeSeries), q, hasDefaultSort)) &&
        state == RefreshStarted(old(state), plan.value)
      ensures emitted == old(emitted)
    {
      if !connected {
        return None;
      }
      if state.status == StatusFetching {
        return None;
      }
      var countHint := false;
      if IsCountHintSafe(state.isTimeSeries, q) {
        countHint := true;
      }
      var sort := q.sort;
      var sortChoice := if sort.Some? then QuerySort(sort.value) else NoSort;
      if sort.None? && hasDefaultSort {
        sortChoice := DefaultSortOrder;
      }
      var findLimit := state.docsPerPage;
      var countLimit: Option<int> := None;
      if q.limit.Some? && q.limit.value > 0 {
        countLimit := q.limit;
        findLimit := Min(state.docsPerPage, q.limit.value);
      }
      var explain := |q.filter| > 0 || (q.sort.Some? && |q.sort.value| > 0);
      if !explain {
        state := state.(isCollectionScan := false);
      }
      var p := RefreshPlan(
        FindOptions(q.skip, findLimit, sortChoice, q.maxTimeMS),
        CountOptions(q.skip, countLimit, CountMaxTime(q.maxTimeMS), countHint),
        explain,
        IsInitialQuery(q));
      state := state.(status := StatusFetching, hasAbortController := true, error := None,
                      count := None, loadingCount := true);
      plan := Some(p);
    }

    /** `refreshDocuments` after the shard keys and the first page settle
      together: on success the first page, numbered from 1, with a fetched
      status that says whether the query was the initial one; on failure
      only the error, keeping the documents shown. */
    method DocumentsRefreshed(plan: RefreshPlan, fetched: Outcome<(Fields, seq<Doc>)>)
      modifies this
      ensures fetched.Ok? ==> state == old(state).(
        status := if plan.initialQuery then StatusFetchedInitial else StatusFetchedCustom,
        error := None, docs := fetched.value.1, page := 0,
        start := LoadedWindow(0, |fetched.value.1|).start,
        end := LoadedWindow(0, |fetched.value.1|).end,
        table := INITIAL_TABLE_STATE, shardKeys := Some(fetched.value.0),
        hasAbortController := false)
      ensures fetched.Fail? ==> state == old(state).(
        error := Some(fetched.error), status := StatusError, hasAbortController := false)
      ensures WindowMatchesDocs(old(state)) ==> WindowMatchesDocs(state)
      ensures emitted == old(emitted)
    {
      match fetched {
        case Ok((shardKeys, docs)) =>
          state := state.(
            status := if plan.initialQuery then StatusFetchedInitial else StatusFetchedCustom,
            error := None,
            docs := docs,
            page := 0,
            start := if |docs| > 0 then 1 else 0,
            end := |docs|,
            table := INITIAL_TABLE_STATE,
            shardKeys := Some(shardKeys));
        case Fail(e) =>
          state := state.(error := Some(e), status := StatusError);
      }
      state := state.(hasAbortController := false);
    }

    /** The count started by a refresh settles. */
    method CountSettled(outcome: CountOutcome)
      modifies this
      ensures outcome.Counted? ==> state == old(state).(count := outcome.count, loadingCount := false)
      ensures outcome.CountCancelled? ==> state == old(state).(loadingCount := false)
      ensures emitted == old(emitted)
    {
      match outcome {
        case Counted(c) =>
          state := state.(count := c, loadingCount := false);
        case CountCancelled =>
          state := state.(loadingCount := false);
      }
    }

    /** `updateMaxDocumentsPerPage`: store the new page size and refresh
      when it changed. */
    method UpdateMaxDocumentsPerPage(docsPerPage: int, connected: bool, q: Query, hasDefaultSort: bool)
      returns (plan: Option<RefreshPlan>)
      modifies this
      ensures old(state.docsPerPage) == docsPerPage ==> plan.None? && state == old(state)
      ensures old(state.docsPerPage) != docsPerPage && !RefreshProceeds(old(state), connected) ==>
        plan.None? && state == old(state).(docsPerPage := docsPerPage)
      ensures old(state.docsPerPage) != docsPerPage && RefreshProceeds(old(state), connected) ==>
        plan == Some(RefreshPlanFor(docsPerPage, old(state.isTimeSeries), q, hasDefaultSort)) &&
        state == RefreshStarted(old(state).(docsPerPage := docsPerPage), plan.value)
      ensures emitted == old(emitted)
    {
      var previousDocsPerPage := state.docsPerPage;
      state := state.(docsPerPage := docsPerPage);
      plan := None;
      if previousDocsPerPage != docsPerPage {
        plan := RefreshDocuments(connected, q, hasDefaultSort);
      }
    }

    /** `removeDocument`: a document without `_id` is refused without a
      delete; after a successful `deleteOne` both registries hear
      `document-deleted`, the document leaves the list, the count drops by
      one unless unknown and `end` drops by one but not below 0. */
    method RemoveDocument(doc: Doc, deleteOne: Outcome<()>) returns (feedback: DocFeedback, deleteIssued: bool)
      modifies this
      ensures deleteIssued <==> doc.id.Some?
      ensures doc.id.None? ==> feedback == RemoveFailed(DELETE_ERROR) && state == old(state) && emitted == old(emitted)
      ensures doc.id.Some? && deleteOne.Fail? ==>
        feedback == RemoveFailed(deleteOne.error) && state == old(state) && emitted == old(emitted)
      ensures doc.id.Some? && deleteOne.Ok? ==>
        feedback == RemoveSucceeded &&
        emitted == old(emitted) + [DocumentDeleted(LocalRegistry, old(state.view), old(state.ns)),
                                   DocumentDeleted(ConnectionScopedRegistry, old(state.view), old(state.ns))] &&
        state == AfterRemove(old(state), doc.id)
      ensures feedback == RemoveSucceeded ==> state.end >= 0
      ensures WindowMatchesDocs(old(state)) ==> WindowMatchesDocs(state)
    {
      deleteIssued := doc.id.Some?;
      if doc.id.None? {
        feedback := RemoveFailed(DELETE_ERROR);
        return;
      }
      match deleteOne {
        case Fail(e) =>
          feedback := RemoveFailed(e);
        case Ok(_) =>
          feedback := RemoveSucceeded;
          var payload := (state.view, state.ns);
          emitted := emitted + [DocumentDeleted(LocalRegistry, payload.0, payload.1),
                                DocumentDeleted(ConnectionScopedRegistry, payload.0, payload.1)];
          var index := FindDocumentIndex(doc);
          var newDocs := Splice(state.docs, index, 1, []);
          RemoveKeepsWindow(state, doc.id);
          state := state.(
            docs := newDocs,
            count := if state.count.None? then None else Some(state.count.value - 1),
            end := Max(state.end - 1, 0));
      }
    }

    /** `updateDocument`: an empty update is refused without a write, and so
      is one the encryption schema check disallows; otherwise the write goes
      through `findAndModifyWithFLEFallback`, and a returned document takes
      the place of the edited one in the list. No error and no document
      means the document changed in the background: the update is blocked. */
    method UpdateDocument(doc: Doc, updateIsEmpty: bool, updateAllowed: bool, outcomes: DriverOutcomes)
      returns (feedback: DocFeedback, calls: seq<DriverCall>)
      modifies this
      ensures updateIsEmpty ==>
        feedback == UpdateFailed(EMPTY_UPDATE_ERROR) && calls == [] && state == old(state)
      ensures !updateIsEmpty && !updateAllowed ==>
        feedback == UpdateFailed(UPDATE_NOT_ALLOWED_ERROR) && calls == [] && state == old(state)
      ensures !updateIsEmpty && updateAllowed ==>
        var run := FindAndModifyWithFleFallback(Update, outcomes);
        calls == run.calls &&
        (run.outcome.ErrorResult? ==> feedback == UpdateFailed(UpdateErrorShown(run.outcome.error)) && state == old(state)) &&
        (run.outcome == DocResult(None) ==> feedback == UpdateBlocked && state == old(state)) &&
        (run.outcome.DocResult? && run.outcome.doc.Some? ==>
          feedback == UpdateSucceeded(run.outcome.doc) &&
          state == AfterReplace(old(state), doc.id, run.outcome.doc.value))
      ensures old(state.docs) != [] && WindowMatchesDocs(old(state)) ==> WindowMatchesDocs(state)
      ensures emitted == old(emitted)
    {
      calls := [];
      if updateIsEmpty {
        feedback := UpdateFailed(EMPTY_UPDATE_ERROR);
        return;
      }
      if !updateAllowed {
        feedback := UpdateFailed(UPDATE_NOT_ALLOWED_ERROR);
        return;
      }
      var run := FindAndModifyWithFleFallback(Update, outcomes);
      calls := run.calls;
      match run.outcome {
        case ErrorResult(e) =>
          feedback := UpdateFailed(UpdateErrorShown(e));
        case DocResult(Some(d)) =>
          feedback := UpdateSucceeded(Some(d));
          var index := FindDocumentIndex(doc);
          var newDocs := Splice(state.docs, index, 1, [d]);
          if state.docs != [] {
            ReplaceKeepsWindow(state, doc.id, d);
          }
          state := state.(docs := newDocs);
        case DocResult(None) =>
          feedback := UpdateBlocked;
      }
    }

    /** `replaceDocument`: like an update without the empty-update check
      and without the error hint; a result replaces the edited document. */
    method ReplaceDocument(doc: Doc, updateAllowed: bool, outcomes: DriverOutcomes)
      returns (feedback: DocFeedback, calls: seq<DriverCall>)
      modifies this
      ensures !updateAllowed ==>
        feedback == UpdateFailed(UPDATE_NOT_ALLOWED_ERROR) && calls == [] && state == old(state)
      ensures updateAllowed ==>
        var run := FindAndModifyWithFleFallback(Replace, outcomes);
        calls == run.calls &&
        (run.outcome.ErrorResult? ==> feedback == UpdateFailed(run.outcome.error) && state == old(state)) &&
        (run.outcome.DocResult? ==> feedback == UpdateSucceeded(run.outcome.doc)) &&
        (run.outcome == DocResult(None) ==> state == old(state)) &&
        (run.outcome.DocResult? && run.outcome.doc.Some? ==>
          state == AfterReplace(old(state), doc.id, run.outcome.doc.value))
      ensures old(state.docs) != [] && WindowMatchesDocs(old(state)) ==> WindowMatchesDocs(state)
      ensures emitted == old(emitted)
    {
      calls := [];
      if !updateAllowed {
        feedback := UpdateFailed(UPDATE_NOT_ALLOWED_ERROR);
        return;
      }
      var run := FindAndModifyWithFleFallback(Replace, outcomes);
      calls := run.calls;
      match run.outcome {
        case ErrorResult(e) =>
          feedback := UpdateFailed(e);
        case DocResult(d) =>
          feedback := UpdateSucceeded(d);
          if d.Some? {
            var index := FindDocumentIndex(doc);
            var newDocs := Splice(state.docs, index, 1, [d.value]);
            if state.docs != [] {
              ReplaceKeepsWindow(state, doc.id, d.value);
            }
            state := state.(docs := newDocs);
          }
      }
    }

    /** `openBulkDeleteDialog`: open the dialog on the first documents of
      the list, affecting as many documents as the count says. */
    method OpenBulkDeleteDialog()
      modifies this
      ensures state == old(state).(bulkDelete := BulkDeleteState(Previews(old(state.docs)), Open, old(state.count)))
      ensures |state.bulkDelete.previews| <= PREVIEW_DOCS && state.bulkDelete.previews <= state.docs
      ensures emitted == old(emitted)
    {
      var previews := Previews(state.docs);
      state := state.(bulkDelete := BulkDeleteState(previews, Open, state.count));
    }

    method BulkDeleteInProgress()
      modifies this
      ensures state == old(state).(bulkDelete := old(state.bulkDelete).(status := InProgress))
      ensures emitted == old(emitted)
    {
      state := state.(bulkDelete := state.bulkDelete.(status := InProgress));
    }

    /** `closeBulkDeleteDialog`: only the status changes; previews and the
      affected count stay for the confirmation and the toasts. */
    method CloseBulkDeleteDialog()
      modifies this
      ensures state == old(state).(bulkDelete := old(state.bulkDelete).(status := Closed))
      ensures emitted == old(emitted)
    {
      state := state.(bulkDelete := state.bulkDelete.(status := Closed));
    }

    /** `runBulkDelete`: close the dialog, ask for confirmation, and only on
      confirmation mark the delete in progress and run `deleteMany`. The
      status stays in progress once the delete has settled. */
    method RunBulkDelete(confirmed: bool, deleteMany: Outcome<()>) returns (result: BulkDeleteResult)
      modifies this
      ensures result.NotConfirmed? <==> !confirmed
      ensures confirmed && deleteMany.Ok? ==> result == DeleteManySucceeded
      ensures confirmed && deleteMany.Fail? ==> result == DeleteManyFailed(deleteMany.error)
      ensures state == old(state).(bulkDelete := old(state.bulkDelete).(status := if confirmed then InProgress else Closed))
      ensures emitted == old(emitted)
    {
      CloseBulkDeleteDialog();
      if !confirmed {
        return NotConfirmed;
      }
      BulkDeleteInProgress();
      match deleteMany {
        case Ok(_) => result := DeleteManySucceeded;
        case Fail(e) => result := DeleteManyFailed(e);
      }
    }

    /** `drillDown`: the table view descends into one element of `doc`,
      extending the path and the type list by one step. */
    method DrillDown(doc: Doc, key: PathKey, keyType: string, editParams: Option<EditParams>)
      modifies this
      ensures state == old(state).(table := TableState(
        Some(doc), old(state.table.path) + [key], old(state.table.types) + [keyType], editParams))
      ensures |state.table.path| == |old(state.table.path)| + 1 && state.table.path[..|state.table.path| - 1] == old(state.table.path)
      ensures emitted == old(emitted)
    {
      state := state.(table := TableState(Some(doc), state.table.path + [key], state.table.types + [keyType], editParams));
    }

    /** `pathChanged`: a new path and type list, keeping the document and
      the cell being edited. */
    method PathChanged(path: seq<PathKey>, types: seq<string>)
      modifies this
      ensures state == old(state).(table := old(state.table).(path := path, types := types))
      ensures emitted == old(emitted)
    {
      state := state.(table := TableState(state.table.doc, path, types, state.table.editParams));
    }
  }
}
