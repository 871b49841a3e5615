# Compass documents store, deployment awareness and sidebar decisions

This project models three pieces of MongoDB Compass and proves properties of them in Dafny.

- **The CRUD documents store** (`CrudStoreImpl`). It holds the paged document list of one collection and loads it with `getPage` and `refreshDocuments`. It also applies single-document deletes, updates and replaces to the list, runs the bulk-delete dialog, and tracks the table view's path. The model is the class `Crud.CrudStore`. Its `state` field is a record that each method replaces field by field, as `setState` does. Every driver call (`find`, `deleteOne`, `findOneAndUpdate`, `count`, …) is an input to the method that makes it. That input says how the call settles: with a value, or with an error that carries `code` and `codeName`. `getPage` and `refreshDocuments` await a fetch, so each is split into a start method and a completion method. The query-dependent arithmetic (page windows, find and count options) lives in `CrudPaging`. The retry decision of `findAndModifyWithFLEFallback` lives in `FleFallback`. The list operations, lodash `findIndex` by id and JavaScript `splice`, live in `DocumentList`.
- **The deployment-awareness store.** It tracks the current topology (type, replica set name, servers) and the environment (`atlas`, `adl` or `on-prem`). It emits `compass:deployment-awareness:topology-changed` when the topology type changes. The model is the class `DeploymentAwareness.DeploymentAwarenessStore`, specified by the functions `Applied`, `EventFor` and `Refreshed`.
- **The sidebar connections navigation tree.** Its pure decisions are modelled as functions in `NavigationTree`:
  - the action a click runs;
  - an item's actions, and how many of them a connected connection shows inline;
  - the tree id highlighted for the active workspace tab.

Module layout:
- `base.dfy`: `Option`, `Error`, `Outcome`, and substring search.
- `document_list.dfy`: the document list, `findIndex` and `splice`.
- `crud_paging.dfy`: the page requests of `getPage`, and the option building of `refreshDocuments`.
- `fle_fallback.dfy`: `findAndModifyWithFLEFallback`.
- `crud_store.dfy`: the CRUD store class.
- `deployment_awareness.dfy`: the deployment-awareness store.
- `navigation_tree.dfy`: the sidebar decisions.

## Model

| member | source | states |
|---|---|---|
| DocumentList.IndexOfId | packages/compass-crud/src/stores/crud-store.ts:840-844 | the index lies in -1 ..< length; it is -1 exactly when no document has the id; otherwise it is the first document with that id |
| DocumentList.RemoveLength | packages/compass-crud/src/stores/crud-store.ts:595-599 | the found index, or -1, always lands inside a non-empty list, so the delete's splice removes exactly one entry; an empty list stays empty |
| DocumentList.ReplaceLength | packages/compass-crud/src/stores/crud-store.ts:705-709 | the replace splice keeps the length of a non-empty list; on an empty list it yields one entry |
| DocumentList.RemoveListed | packages/compass-crud/src/stores/crud-store.ts:595-604 | removing a listed document drops exactly the entry at its first index: one fewer document, the others kept in order |
| DocumentList.RemoveUnlistedDropsLast | packages/compass-crud/src/stores/crud-store.ts:595-599 | when the document is not listed, findIndex gives -1, and `splice(-1, 1)` drops the last entry of a non-empty list |
| DocumentList.ReplaceListed | packages/compass-crud/src/stores/crud-store.ts:703-712 | replacing a listed document keeps the length, puts the new document at the found index and leaves every other entry untouched |
| DocumentList.ReplaceUnlistedHitsLast | packages/compass-crud/src/stores/crud-store.ts:799-811 | when the document is not listed, `splice(-1, 1, d)` overwrites the last entry; on an empty list it yields `[d]` |
| CrudPaging.PageSort | packages/compass-crud/src/stores/crud-store.ts:862-896 | `getPage` sorts by the query's own sort keys when the query has a sort and not at all otherwise; it never uses the default sort order |
| CrudPaging.PageRequestAsWritten | packages/compass-crud/src/stores/crud-store.ts:851-896 | the code as written: no request iff the page is negative, a fetch is running, or limit - (query skip + page * docsPerPage) < 1 under a set limit; skip = query skip + page * docsPerPage; with a set limit the size is min(docsPerPage, limit - skip); the query's sort and maxTimeMS are passed on |
| CrudPaging.PageRequestFor | packages/compass-crud/src/stores/crud-store.ts:851-896 | the corrected request (see Findings): no request iff the page is negative, a fetch is running, or limit - page * docsPerPage < 1 under a set limit; skip = query skip + page * docsPerPage; with a set limit the size is min(docsPerPage, limit - page * docsPerPage), so no request reads past query skip + limit; the query's sort and maxTimeMS are passed on |
| CrudPaging.PageSizeWithinLimit | packages/compass-crud/src/stores/crud-store.ts:876-886 | the corrected request: under a positive limit, page p asks for exactly the documents between p * docsPerPage and (p+1) * docsPerPage that lie within the limit, none once the page starts at the limit |
| CrudPaging.PagesReachTheLimit | packages/compass-crud/src/stores/crud-store.ts:866-880 | the corrected request: under a positive limit, pages 0 .. n-1 together ask for min(n * docsPerPage, limit) documents: every document of the limited result is reachable and none past it |
| CrudPaging.SkipCountedAgainstLimit | packages/compass-crud/src/stores/crud-store.ts:866-880 | with skip 10, limit 30 and 25 per page, the code as written asks for 20 documents on page 0 where the refresh asks for 25, and never requests page 1 although the count allows 30; the corrected request fetches the last 5 |
| CrudPaging.LoadedWindow | packages/compass-crud/src/stores/crud-store.ts:930-940 | a non-empty load numbers its documents skip+1 .. skip+count; an empty one gives start 0 and end = skip |
| CrudPaging.PageZeroWindowShiftedBySkip | packages/compass-crud/src/stores/crud-store.ts:872-940 | with no limit set and no fetch running, `getPage(0)` fetches, and its window is the refresh window shifted by the query skip |
| CrudPaging.CountMaxTime | packages/compass-crud/src/stores/crud-store.ts:1634-1643 | the count's maxTimeMS is absent iff the query's is; otherwise it is min(query maxTimeMS, 5000) |
| CrudPaging.IsCountHintSafe | packages/compass-crud/src/stores/crud-store.ts:1540-1554 | the `_id_` hint is safe iff the collection is not time-series and the filter has no keys |
| CrudPaging.IsInitialQuery | packages/compass-crud/src/stores/crud-store.ts:1563-1569 | the query is initial iff filter, projection and collation are all empty; an initial query's filter is empty, so it passes the hint check's filter test |
| CrudPaging.HasProjection | packages/compass-crud/src/stores/crud-store.ts:1850-1852 | true iff the projection has keys; a projecting query is never the initial query |
| CrudPaging.InitialQueryPlan | packages/compass-crud/src/stores/crud-store.ts:1645-1709 | in a refresh plan: a projecting query never reports the initial status; an initial query on an ordinary collection gets the `_id_` hint; an initial query without sort keys asks for no explain plan, which resets the collection-scan flag |
| CrudPaging.RefreshPlanFor | packages/compass-crud/src/stores/crud-store.ts:1634-1709 | count maxTimeMS = min(query maxTimeMS, 5000), absent iff the query has none; find maxTimeMS is the query's; find limit = min(docsPerPage, limit) when limit > 0, else docsPerPage; count limit only when limit > 0; `_id_` hint iff not time-series and the filter is empty; explain iff the filter or the sort is non-empty; the find sorts by the query's own sort keys when it has a sort, else by the default sort order when one is set, else not at all |
| CrudPaging.FirstPageAgreesWithRefresh | packages/compass-crud/src/stores/crud-store.ts:1671-1675 | the corrected request: with no fetch running and a positive limit or none, the request for page 0 asks for as many documents as the refresh's find, after the same skip, whatever the query's skip |
| CrudPaging.FirstPageAsWrittenAgreesWithoutSkip | packages/compass-crud/src/stores/crud-store.ts:866-886 | the code as written: with no fetch running, no query skip and a positive limit or none, `getPage(0)` asks for as many documents as the refresh's find, after the same skip; with a skip they can differ (`SkipCountedAgainstLimit`) |
| CrudPaging.PageSortAgreesWithRefreshIffQuerySorts | packages/compass-crud/src/stores/crud-store.ts:1649-1655 | a page fetched by `getPage` as written is sorted like the refresh's first page iff the query has a sort or no default sort order is set; otherwise the refresh uses the default order and `getPage` no sort |
| FleFallback.FindAndModifyWithFleFallback | packages/compass-crud/src/stores/crud-store.ts:2151-2207 | the find-and-modify of the right kind runs first; the plain write runs iff it failed with ShardKeyNotFound or code 6371402; the find by `_id` runs iff the plain write succeeded; a failed plain write ends the run after those two calls and returns its own error; a successful fallback returns the first document found; every other failure returns the original error |
| FleFallback.AbsentResultMeansNoMatch | packages/compass-crud/src/stores/crud-store.ts:2162-2200 | no error and no document comes back exactly when the find-and-modify matched nothing or the fallback's find returned nothing |
| FleFallback.ErrorComesFromDriver | packages/compass-crud/src/stores/crud-store.ts:2174-2206 | a returned error is the find-and-modify's, or, after a fallback error, the plain write's |
| Crud.InitialDocsPerPage | packages/compass-crud/src/stores/crud-store.ts:468-476 | the page size is the stored one when there is one, else 25 |
| Crud.InitialState | packages/compass-crud/src/stores/crud-store.ts:429-513 | getInitialState's fields: empty list with window 0..0 (so the window matches it), page 0, unknown count, initial status, no error or abort controller, List view, no shard keys, the initial page size, reset table, closed bulk-delete dialog affecting 0 |
| Crud.Previews | packages/compass-crud/src/stores/crud-store.ts:1867-1869 | the bulk-delete previews are the first min(5, length) documents of the list |
| Crud.UpdateErrorShown | packages/compass-crud/src/stores/crud-store.ts:694-702 | the hint is appended iff codeName is InvalidPipelineOperator and the message names `$getField` or `$setField`; code and codeName are kept |
| Crud.RemoveKeepsWindow | packages/compass-crud/src/stores/crud-store.ts:595-604 | a delete's list edit and `end = max(end-1, 0)` keep the window numbering the list |
| Crud.ReplaceKeepsWindow | packages/compass-crud/src/stores/crud-store.ts:703-712 | replacing a document in a non-empty list keeps the window numbering the list |
| Crud.CrudStore.constructor | packages/compass-crud/src/stores/crud-store.ts:429-513 | the initial state: empty list, window 0..0, page 0, unknown count, initial status, List view, stored or default (25) page size, closed bulk-delete dialog affecting 0 |
| Crud.CrudStore.FindDocumentIndex | packages/compass-crud/src/stores/crud-store.ts:840-844 | the loop returns the first index whose document has the edited document's id, or -1 when none has |
| Crud.CrudStore.GetPage | packages/compass-crud/src/stores/crud-store.ts:851-906 | the request issued is `PageRequestAsWritten`'s, the code as written; when none is issued nothing changes; otherwise the store is fetching, with an abort controller and no error |
| Crud.CrudStore.PageLoaded | packages/compass-crud/src/stores/crud-store.ts:925-944 | on success: the page's documents, their window, the page, pagination status and a reset table; on error: empty list, start 0, end = skip, error status; the abort controller is cleared; the window numbers the list |
| Crud.CrudStore.RefreshDocuments | packages/compass-crud/src/stores/crud-store.ts:1580-1773 | skipped while disconnected or fetching; otherwise it issues `RefreshPlanFor`'s options, clears the count and error, marks the store fetching, and resets the collection-scan flag when no explain runs |
| Crud.CrudStore.DocumentsRefreshed | packages/compass-crud/src/stores/crud-store.ts:1778-1821 | on success the first page numbered from 1, page 0, shard keys, and initial or custom status by the query; on failure only the error and error status; the abort controller is cleared |
| Crud.CrudStore.CountSettled | packages/compass-crud/src/stores/crud-store.ts:1712-1736 | a count sets count and stops the count loading; a cancellation only stops the count loading |
| Crud.CrudStore.UpdateMaxDocumentsPerPage | packages/compass-crud/src/stores/crud-store.ts:563-572 | stores the page size and refreshes (with the new size) only when it changed |
| Crud.CrudStore.RemoveDocument | packages/compass-crud/src/stores/crud-store.ts:579-614 | no `_id`: DELETE_ERROR, no delete, nothing changes; failed delete: its error, nothing changes; success: two `document-deleted` events, the document removed, count one lower unless unknown, end = max(end-1, 0) |
| Crud.CrudStore.UpdateDocument | packages/compass-crud/src/stores/crud-store.ts:656-725 | empty update: EMPTY_UPDATE_ERROR and no write; disallowed: the schema error and no write; otherwise the fallback's calls are made; an error is shown with the pipeline hint; a document replaces the edited one; no document blocks the update |
| Crud.CrudStore.ReplaceDocument | packages/compass-crud/src/stores/crud-store.ts:732-821 | disallowed: the schema error and no write; otherwise the fallback's calls are made; an error is reported as is; a returned document replaces the edited one |
| Crud.CrudStore.OpenBulkDeleteDialog | packages/compass-crud/src/stores/crud-store.ts:1864-1885 | status open, at most 5 previews taken from the front of the list, affected = count |
| Crud.CrudStore.BulkDeleteInProgress | packages/compass-crud/src/stores/crud-store.ts:1887-1898 | only the dialog status changes, to in-progress |
| Crud.CrudStore.CloseBulkDeleteDialog | packages/compass-crud/src/stores/crud-store.ts:1921-1928 | only the dialog status changes, to closed; previews and affected are kept |
| Crud.CrudStore.RunBulkDelete | packages/compass-crud/src/stores/crud-store.ts:1930-1957 | the dialog closes; `deleteMany` runs and the status becomes in-progress iff the user confirms; the result is the delete's outcome |
| Crud.CrudStore.DrillDown | packages/compass-crud/src/stores/crud-store.ts:1495-1508 | the table path and type list grow by exactly the drilled element, with the document and edit parameters set |
| Crud.CrudStore.PathChanged | packages/compass-crud/src/stores/crud-store.ts:1516-1525 | path and types are replaced; the document and edit parameters are kept |
| DeploymentAwareness.ServersOf | packages/compass-deployment-awareness/src/stores/index.js:62-69 | one server entry per described server |
| DeploymentAwareness.ServersOfAt | packages/compass-deployment-awareness/src/stores/index.js:62-69 | the i-th entry holds the i-th described server's address, type and tags |
| DeploymentAwareness.Applied | packages/compass-deployment-awareness/src/stores/index.js:81-85 | after a description the state holds its topology type and set name and one server per described server; environment and data-lake flag are kept |
| DeploymentAwareness.EventFor | packages/compass-deployment-awareness/src/stores/index.js:70-80 | an event iff the topology type changes; its payload is the new type, the new set name, the rebuilt server list and the environment held before |
| DeploymentAwareness.AppliedReflectsDescription | packages/compass-deployment-awareness/src/stores/index.js:62-85 | after a description: its type and set name, one server per described server in order, environment and data-lake flag untouched |
| DeploymentAwareness.ReapplyIsSilent | packages/compass-deployment-awareness/src/stores/index.js:70-85 | the same description twice: the second leaves the state unchanged and emits nothing, so the pair emits at most one event |
| DeploymentAwareness.Refreshed | packages/compass-deployment-awareness/src/stores/index.js:34-42 | env becomes adl for a data lake, else atlas for an id containing "atlas", else stays; the data-lake flag is set only in those two cases; the topology fields are untouched |
| DeploymentAwareness.RefreshedClassifies | packages/compass-deployment-awareness/src/stores/index.js:34-42 | a data lake becomes `adl`; a non-data-lake id containing "atlas" becomes `atlas`; anything else changes nothing; the topology is untouched |
| DeploymentAwareness.AtlasIdIsAtlas | packages/compass-deployment-awareness/src/stores/index.js:35-38 | any id with "atlas" inside it classifies a non-data-lake deployment as `atlas` |
| DeploymentAwareness.RefreshAndTopologyCommute | packages/compass-deployment-awareness/src/stores/index.js:34-85 | an instance refresh and a topology change give the same state in either order |
| DeploymentAwareness.DeploymentAwarenessStore.constructor | packages/compass-deployment-awareness/src/stores/index.js:94-102 | the initial state: Unknown topology, empty set name, no servers, not a data lake, on-prem |
| DeploymentAwareness.DeploymentAwarenessStore.InstanceRefreshed | packages/compass-deployment-awareness/src/stores/index.js:34-42 | the new state is the classification `Refreshed`; no event is emitted |
| DeploymentAwareness.DeploymentAwarenessStore.TopologyDescriptionChanged | packages/compass-deployment-awareness/src/stores/index.js:60-86 | the loop builds the server list; the new state is `Applied`; the emitted events grow by `EventFor`'s event |
| NavigationTree.DefaultAction | packages/compass-connections-navigation/src/connections-navigation-tree.tsx:88-110 | connected → select-connection; disconnected or failed → connection-connect; database → select-database; collection → open-in-new-tab with meta or ctrl, else select-collection; no action iff the item is a connection with any other status |
| NavigationTree.CanBeShownInline | packages/compass-connections-navigation/src/connections-navigation-tree.tsx:132-142 | an action is shown inline iff it is the `create-database` or the `open-shell` action; a separator never is |
| NavigationTree.CollapseAfterForConnectedItem | packages/compass-connections-navigation/src/connections-navigation-tree.tsx:128-165 | at most 2; 2 iff both of the first two actions can be shown inline; 0 iff neither can |
| NavigationTree.CollapseAfterCountsInline | packages/compass-connections-navigation/src/connections-navigation-tree.tsx:128-165 | collapseAfter is the number of inline-able actions (create-database or open-shell, not separators) among the first two |
| NavigationTree.ItemActionsAndConfig | packages/compass-connections-navigation/src/connections-navigation-tree.tsx:168-217 | placeholders get no actions and no config; connections get a collapseAfter (the inline count when connected, 0 otherwise); databases and collections get their factory's actions and no config |
| NavigationTree.ActiveItemId | packages/compass-connections-navigation/src/connections-navigation-tree.tsx:112-126 | a Collection or Collections tab gives `connectionId.namespace`; a Databases tab gives the connection id in multi-connection mode; anything else gives none |
| NavigationTree.HighlightUnderConnection | packages/compass-connections-navigation/src/connections-navigation-tree.tsx:112-126 | the highlighted id is the tab's connection id, or starts with it followed by a dot |

## Findings

| source | as written | input that shows it | evidently intended | confidence | as-written member | corrected member |
|---|---|---|---|---|---|---|
| packages/compass-crud/src/stores/crud-store.ts:866-880 | `getPage` computes the documents left under a limit as limit - (query skip + page * docsPerPage), counting the query's skip against a limit that the server applies after the skip | query skip 10, limit 30, 25 documents per page: page 0 asks for 20 documents where the refresh's first page holds 25, and page 1 is never requested although the count reports 30 | the documents left are limit - page * docsPerPage, so the pages together cover exactly the `limit` documents after the skip (`CrudPaging.PagesReachTheLimit`) | medium; not executed | `CrudPaging.PageRequestAsWritten`, exhibited by `CrudPaging.SkipCountedAgainstLimit` | `CrudPaging.PageRequestFor`, with `CrudPaging.PagesReachTheLimit` |

## Left out

- Every driver and data-service call is an input, not an implementation. This covers `fetchDocuments` and its projection logic, `countDocuments`, `fetchShardingKeys`, `deleteOne`, `deleteMany`, the find-and-modify calls and `find`.
- The explain plan is left out. `RefreshDocuments` records whether an explain is requested, but the later `isCollectionScan` update from its result is not modelled.
- Timers and cancellation are left out: the loading debounce, `AbortController` signals, `cancelOperation` and races between overlapping fetches. The model keeps only whether an abort controller is held.
- `resultId()` is left out because it is random.
- Telemetry, logging, toasts, the clipboard and `localStorage` are left out. The stored page size is an input to the constructor. The field-store updates after a load are left out too.
- Confirmation dialogs are left out; the user's answer is a boolean input.
- The document objects' own events (`onRemoveStart`, `onUpdateStart`, …) are reduced to the `DocFeedback` each method returns.
- `Crud.CrudStore.UpdateDocument`: computing the update document and the encryption-schema check belong to the document and encryption libraries. They are the inputs `updateIsEmpty` and `updateAllowed`. The catch-all that rewords an exception thrown by those libraries is not modelled.
- `Crud.CrudStore.ReplaceDocument`: `__safeContent__` stripping and the shard-key query keys are not modelled. When the fallback returns no document, the source wraps the absent result in a new document object. That comes from the document library, so the model reports `UpdateSucceeded(None)` and leaves the list unchanged.
- `FleFallback.FindAndModifyWithFleFallback`: the result is not always exactly one of error or document. The code can return neither when nothing matched, so the model's `DocResult` holds an optional document. The numeric conversion `+(error.code)` of a string code is not modelled; codes are integers or absent.
- `CrudPaging.PageRequestFor` and `CrudPaging.RefreshPlanFor` hand on the query's maxTimeMS before the preference cap (`capMaxTimeMSAtPreferenceLimit`), which reads user preferences. Projection and collation are passed through unchanged, so they are not carried; the sort is carried. Query sub-documents are reduced to their key lists.
- `Crud.InitialDocsPerPage`: the stored page size is taken as already parsed. A stored string that `parseInt` turns into `NaN` is not modelled.
- `Crud.CrudStore.CountSettled`: a count error other than a cancellation is rethrown by the source and changes nothing. The model has no variant for it.
- `Crud.CrudStore.RemoveDocument`: the source tolerates a null `docs` list; in the model the list is always a sequence.
- `Crud.CrudStore.RefreshDocuments`: with no data service at all the refresh goes ahead; callers pass `connected` as true for that case.
- The insert dialog, bulk update, import and export dialogs, query saving, `viewChanged`, `updateComment`, `collectionStatsFetched` and the index modals are not modelled. They are view glue or foreign calls.
- The store's activation and event wiring are not modelled.
- `NavigationTree.CollapseAfterForConnectedItem` requires at least two actions. With fewer, the source reads a property of `undefined` and throws.
- `NavigationTree.ItemActionsAndConfig` takes the action list from its caller. The factories that build the actions (`connectedConnectionItemActions` and the others) are not part of this model.
- `DeploymentAwareness.DeploymentAwarenessStore.TopologyDescriptionChanged`: the server map is modelled as a sequence in its iteration order. A null `setName` is modelled as a string.
- The deployment-awareness store's subscription to data-service events (`onDataServiceInitialized`) is left out.
- `DeploymentAwareness.DeploymentAwarenessStore.InstanceRefreshed`: an absent data-lake flag is modelled as false.
