# Google Analytics report reshaper, modelled in Dafny

The `database_connection` package wraps the Google Analytics Reporting API v4.
Its one piece of logic is the response reshaper. It takes one `batchGet`
response and turns it into a labelled table (a pandas `DataFrame`):

- a row index of the rows' dimension values, named by the dimension headers;
- one flat column per metric header entry;
- one pivot column per entry of the first pivot header, labelled by the
  entry's dimension values followed by its metric name;
- when the pivot columns have two levels, the flat labels are promoted to
  `("", name)`, and the flat columns come first, then the pivot columns.

The reshaper is written three times, with small differences. Each copy has its
own `ga_api_caller` around it:

- `google_analytics_api_query.py` guards on a single report request and on
  empty `data`. Its pagination attempt raises.
- `google_analytics_service.py` has the same guards. It then follows
  `nextPageToken` and appends every page's rows before reshaping.
- `google_api_query.py` has no request-count check. It reshapes only when the
  first report's `data` has a `rows` key, and moves the two guards into
  `metric_report_df` and `pivot_report_df`.

The model has one module per concern:

- `Results`: the `Result` type. Each Python exception the model keeps is
  one `Error` case. The numpy and pandas `ValueError`s are preconditions
  instead, and the `.astype('float')` error is left out.
- `Responses`: the request body and the response, plus the shape demands
  numpy and pandas make (`Fits`).
- `Tables`: the labelled table, with the column promotion and merge.
- `Reshaper`: the three near-identical copies of `get_dimension_row_names`,
  `metric_report_df` and `pivot_report_df`, modelled once, together with the
  guards and the merge.
- `ReshaperLaws`: laws of the reshaper. Reshaping two pages' rows together
  gives the two pages' tables stacked. Promotion keeps merged labels from
  colliding.
- `AnalyticsApiQuery`, `AnalyticsService` and `ApiQuery`: the three
  `ga_api_caller`s.
- `Agreement`: where the three callers agree and where they part ways.

The server is an input. For the paging caller it is a sequence of responses:
`pages[k]` is what the (k+1)-th `batchGet` returns. Each caller returns a
`Run`, which holds:

- the outcome (a table or an exception);
- the request bodies it sent, in order;
- the caller's query as the call left it. The paging caller mutates the query.

Cells are kept as the response's strings.

The same three functions appear at these lines in the other two files:

- `get_dimension_row_names`: google_analytics_service.py:100-109 and
  google_api_query.py:22-30.
- `metric_report_df`: google_analytics_service.py:62-76. The guarded version
  is google_api_query.py:33-51.
- `pivot_report_df`: google_analytics_service.py:78-98. The guarded version
  is google_api_query.py:54-77.

The guards and merge are at google_analytics_service.py:46-59 and
google_api_query.py:88-92. All of these are the code that `Reshaper` models.

Behaviours of the code a reader might not expect:

- The pivot frame is built when the *first* row's first metric has
  `pivotValueRegions`, not when *any* row's does. A later row without it
  raises `KeyError`.
- An empty `rows` list does not give the empty table. All three copies raise
  `IndexError` on `rows[0]`.
- Only `google_api_query.py` treats a missing `rows` key as "no data". The
  other two test only whether `data` is empty.
- `google_api_query.py` has no request-count check, so a multi-request query
  is sent and only `reports[0]` is reshaped.
- The row count equals the number of data rows only when a flat or pivot
  frame is built. With neither `metricHeader` nor a pivot, both frames are
  `pd.DataFrame()` and the result has no rows.

## Model

| member | source | states |
|---|---|---|
| `Responses.WithPageToken` | database_connection/google_analytics_service.py:36 | the first request's `pageToken` becomes the token; the view and every other request stay as they were |
| `Responses.Truthy` | database_connection/google_analytics_service.py:33-35 | Python truthiness of `get('nextPageToken', False)`: true exactly for a present, non-empty token string |
| `Responses.DataIsFalsy` | database_connection/google_analytics_api_query.py:75-76 | `not report.get('data', [])`: true exactly when `data` is absent or an empty dictionary (no `rows` and no other key) |
| `Responses.PivotFits` | database_connection/google_analytics_api_query.py:57-66 | the shape numpy and pandas demand of the pivot values, only when the pivot frame is built: a non-empty, rectangular first pivot header and one value per entry in every row's first region |
| `Responses.IndexFits` | database_connection/google_analytics_api_query.py:18-23 | what `MultiIndex.from_arrays` over the transposed row dimensions demands: when the header has `dimensions`, at least one name, and one dimension value per name in every row |
| `Responses.MetricsFit` | database_connection/google_analytics_api_query.py:41-43 | what `pd.DataFrame(data, columns=names)` demands of the flat frame: every row that has a first metric holds one value per metric header name |
| `Tables.IsEmpty` | database_connection/google_analytics_api_query.py:105 | the frame `concat` drops: no rows and no columns, as `pd.DataFrame()` |
| `Tables.Levels` | database_connection/google_analytics_api_query.py:102 | `columns.nlevels`: one for a frame without columns, else the length of a column label |
| `Tables.Promote` | database_connection/google_analytics_api_query.py:103 | every column label gains an outer `""` level; rows and index are untouched |
| `Tables.Merge` | database_connection/google_analytics_api_query.py:102-105 | column count is flat + pivot; flat labels come first and are promoted exactly when the pivot has two levels, then the pivot labels follow; an empty frame on either side yields the other; otherwise row i is flat row i followed by pivot row i over the shared index |
| `Reshaper.DimensionIndex` | database_connection/google_analytics_api_query.py:18-26 | no index exactly when the header has no `dimensions`; otherwise one tuple per row in response order, tuple i is row i's dimension values, levels named by the header's dimension names |
| `Reshaper.MetricValues` | database_connection/google_analytics_api_query.py:35 | succeeds exactly when every row has a first metric (else `IndexError`); then one value list per row, in order, equal to that row's first-metric values |
| `Reshaper.RegionError` | database_connection/google_analytics_api_query.py:48 | no exception exactly when the row's first metric carries a non-empty `pivotValueRegions` |
| `Reshaper.PivotValues` | database_connection/google_analytics_api_query.py:48-49 | succeeds exactly when every row has a first region; then row i's values are its first region's values; on failure the error is the one the first offending row raises |
| `Reshaper.PivotLabel` | database_connection/google_analytics_api_query.py:52-60 | the label of one pivot column: the entry's dimension values followed by its metric name |
| `Reshaper.MetricTable` | database_connection/google_analytics_api_query.py:29-43 | columns are exactly the metric header names in order; one row per data row holding its first-metric values, as many as there are names; index is the dimension index; fails only when a row has no metrics |
| `Reshaper.PivotTable` | database_connection/google_analytics_api_query.py:46-66 | succeeds exactly when every row has a first region and a first pivot header exists; with every region present, a missing `metricHeader` or `pivotHeaders` key raises `KeyError` and an empty `pivotHeaders` list raises `IndexError`; column j is entry j's dimension values then its metric name; levels = pivot dimensions + 1; row i is row i's first-region values |
| `Reshaper.PivotRequested` | database_connection/google_analytics_api_query.py:92 | the pivot guard: a first row exists, has a first metric, and that metric carries `pivotValueRegions` |
| `Reshaper.GuardedPivotTable` | database_connection/google_api_query.py:54-77 | no rows or no first metric raises; the pivot frame is built exactly when the first row's first metric carries `pivotValueRegions`, else the empty frame; a built frame is never the empty one |
| `Reshaper.GuardedMetricTable` | database_connection/google_api_query.py:33-51 | the empty frame without `metricHeader`; the flat metric frame with it, which is never the empty one |
| `Reshaper.ReshapeRows` | database_connection/google_analytics_api_query.py:92-105 | succeeds exactly when a first row with a first metric exists and the requested frames can be built; column count = metric names (if `metricHeader`) + first-pivot entries (if pivot requested); flat labels promoted iff the pivot has one dimension; pivot labels follow; each row is the row's flat values then its pivot values; the empty table when neither frame is built |
| `Reshaper.ReshapeData` | database_connection/google_analytics_api_query.py:90-92 | a `data` without `rows` raises `KeyError('rows')`; otherwise the rows are reshaped |
| `ReshaperLaws.MetricTableStacks` | database_connection/google_analytics_service.py:62-76 | the flat frame over two pages' rows is the two pages' frames stacked, and fails exactly when one of them fails |
| `ReshaperLaws.PivotTableStacks` | database_connection/google_analytics_service.py:78-98 | the pivot frame over two pages' rows is the two pages' frames stacked, and fails exactly when one of them fails |
| `ReshaperLaws.MergeStacks` | database_connection/google_analytics_service.py:56-59 | for two pages whose frames agree on which are empty, merging the stacked frames equals stacking the merged frames |
| `ReshaperLaws.GuardedPivotStacks` | database_connection/google_analytics_service.py:46-49 | when both pages' first rows agree on the pivot guard, the guarded pivot frame over both pages is the two pages' frames stacked, and fails exactly when one of them fails |
| `ReshaperLaws.GuardedMetricStacks` | database_connection/google_analytics_service.py:51-54 | the guarded metric frame over both pages is the two pages' frames stacked, and fails exactly when one of them fails |
| `ReshaperLaws.ReshapeRowsStacks` | database_connection/google_analytics_service.py:46-59 | when both pages' first rows agree on the pivot guard, reshaping their rows together equals stacking their reshaped tables, and fails exactly when one of them fails |
| `ReshaperLaws.MergedLabelsDistinct` | database_connection/google_analytics_api_query.py:102-105 | with distinct metric names, distinct pivot labels, at least one pivot dimension and (for exactly one) no empty pivot dimension value, no two merged column labels coincide |
| `AnalyticsService.Stops` | database_connection/google_analytics_service.py:35-39 | the loop stops after a response whose first report has no truthy `nextPageToken` |
| `AnalyticsService.PageRows` | database_connection/google_analytics_service.py:38 | `data.get('rows', [])` of a readable response: its rows when present, else no rows |
| `AnalyticsService.Readable` | database_connection/google_analytics_service.py:38 | a later response on which `next['reports'][0]['data']` does not raise: it has a first report and that report has `data` |
| `AnalyticsService.FollowPages` | database_connection/google_analytics_service.py:33-39 | the loop sends nothing exactly when the token is falsy, and sends at most one request per available response |
| `AnalyticsService.FollowPagesRequests` | database_connection/google_analytics_service.py:35-39 | the first follow-up request carries the first token; follow-up k+1 carries the token of the response just before it; the query ends as the last request sent |
| `AnalyticsService.FollowPagesRows` | database_connection/google_analytics_service.py:35-38 | on success every fetched response was readable, only the last one stops the loop, and the rows are the accumulated rows followed by each fetched response's `rows` (or none) in fetch order; on failure the last response lacked a first report or `data` |
| `AnalyticsService.FetchPages` | database_connection/google_analytics_service.py:33-39 | the `while next_page_token` loop computes exactly the recursive definition `FollowPages` |
| `AnalyticsService.LoopFits` | database_connection/google_analytics_service.py:35-59 | the shape demands apply to the rows the loop accumulates, and only if the loop ends without an exception: when the token is falsy the accumulated rows fit; after a readable response the demand moves to the rows with that response's rows appended |
| `AnalyticsService.PagesFit` | database_connection/google_analytics_service.py:33-59 | the paging caller's shape precondition: when the first report has rows, those rows followed by every later page's rows the loop appends fit the first report's header |
| `AnalyticsService.Caller` | database_connection/google_analytics_service.py:23-60 | a query without exactly one request raises `TypeError` before any request; missing or empty `data` gives the empty table after one request; a `data` without `rows` raises `KeyError`, after one more request if a token came back, and the caller's query is left carrying that token |
| `AnalyticsService.CallerRunsLoop` | database_connection/google_analytics_service.py:44-59 | past the no-data return, the call sends the query and then the loop's requests, and reshapes the loop's rows under the first response's header |
| `AnalyticsService.CallerChainsTokens` | database_connection/google_analytics_service.py:33-39 | when the first report has rows, request j+1 carries response j's token and the caller's query ends up carrying the last token received (the no-rows path, where one token is followed before `KeyError`, is stated by `AnalyticsService.Caller`) |
| `AnalyticsService.FirstLoopAccumulates` | database_connection/google_analytics_service.py:35-38 | the loop succeeds exactly when every later response it fetches is readable; it then stops at the first token-free response and has appended every later page's rows |
| `AnalyticsService.CallerAccumulatesPages` | database_connection/google_analytics_service.py:25-59 | the table is the reshaped concatenation of the first page's rows with every later page's rows in fetch order, fetched up to the first token-free response; an unreadable later page raises |
| `AnalyticsApiQuery.Caller` | database_connection/google_analytics_api_query.py:69-106 | a query without exactly one request raises `TypeError` with nothing sent; missing or empty `data` gives the empty table; a truthy token sends a second request and raises; otherwise the first report is reshaped |
| `AnalyticsApiQuery.PagedResponseRaises` | database_connection/google_analytics_api_query.py:80-85 | every response with data and a truthy token makes the call send exactly two requests, the second carrying the token, and raise |
| `ApiQuery.Caller` | database_connection/google_api_query.py:80-95 | exactly one request is always sent and the query is untouched; missing `data` raises `KeyError`; a `data` without `rows` gives the empty table; otherwise the first report's rows are reshaped |
| `ApiQuery.OnlyFirstReportReshaped` | database_connection/google_api_query.py:83-86 | the reports after the first never change the call |
| `ApiQuery.NoRequestCountCheck` | database_connection/google_api_query.py:80-81 | a multi-request query is sent as is, and the call never raises the `TypeError` of the request-count check |
| `Agreement.CallersAgreeOnSinglePage` | database_connection/google_api_query.py:80-92 | for one request and a first response with rows and no token, the three callers send the same single request and return the same reshaped table |
| `Agreement.TwoPagesConcatenate` | database_connection/google_analytics_service.py:33-59 | a report served in two pages by the paging caller is reshaped from the first page's rows followed by the second page's, under the first page's header; two requests are sent, the second (and the query left behind) carrying the first page's token |
| `Agreement.TwoPagesStack` | database_connection/google_analytics_service.py:33-59 | a report served in two pages by the paging caller is the two pages' tables stacked; the second request carries the first page's token |
| `Agreement.PagedReportRaisesWhereServiceAccumulates` | database_connection/google_analytics_api_query.py:80-85 | on a concrete two-page report the unguarded caller raises `AttributeError`, where the paging caller returns both pages' rows |
| `Agreement.LaterRegionsNeverRead` | database_connection/google_analytics_service.py:46-59 | when the first page's first row has no `pivotValueRegions`, a later page's row whose region is shorter than the pivot header is never read: the paging caller accepts the two pages and returns the flat metric frame over both rows |
| `Agreement.NoRowsRaisesWhereGuardedCopyIsEmpty` | database_connection/google_analytics_api_query.py:75-78 | on a report whose `data` holds only `totals`, the two unguarded callers raise `KeyError('rows')` and the guarded caller returns the empty table |

## Left out

- Credentials and service construction (`create_service`, and `run_report`'s
  `discovery.build`) are left out. The `batchGet(...).execute()` network
  calls are replaced by responses given as inputs. A network failure
  propagating out of `execute()` is not modelled.
- The `print` messages for "no data" are left out. They are output only.
- The `.astype('float')` casts are left out. Cells stay the response's
  strings, with no numeric interpretation.
- Several pandas behaviours are left out: `concat` alignment on mismatched
  indexes, the column labels `concat` produces when a one-level flat frame
  meets a pivot of three or more levels, and `MultiIndex` internals. The
  model appends labels as they are and assumes both frames share the row
  index built from the same rows.
- numpy and pandas shape errors (`ValueError` on ragged or mismatched
  arrays) are preconditions (`Fits`, `ResponseFits`, `PagesFit`), not error
  results.
- `Reshaper.ReshapeRows`: the index and metric shape demands (`IndexFits`,
  `MetricsFit`) cover every row it is given. They are demanded even when the
  pivot frame raises `KeyError` before pandas builds the metric frame or the
  index. The pivot demands (`PivotFits`) apply only when the pivot frame is
  built.
- `ApiQuery.Caller` and `AnalyticsService.Caller` inherit those demands
  through `Reshaper.ReshapeRows`. `AnalyticsService.Caller` places them on
  the rows the loop accumulates, and only when the loop ends without an
  exception (`LoopFits`). No page is checked on its own.
- `AnalyticsApiQuery.Caller`: the shape preconditions cover the whole first
  report. They hold even on paths that raise before pandas sees the rows,
  and it inherits the demands of `Reshaper.ReshapeRows` as well.
- `Reshaper.MetricTable`, `Reshaper.GuardedMetricTable` and
  `Reshaper.PivotTable` require at least one row. Every caller reaches them
  only after `rows[0]` has been read.
- `Reshaper.MetricValues`, `Reshaper.RegionError` and `Reshaper.GuardedPivotTable`
  treat a row without a `metrics` key as a row with an empty `metrics` list,
  so they report `IndexError` where the source would raise `KeyError`. The
  Reporting API always sends `metrics` with every row.
- `AnalyticsApiQuery.Caller`, `AnalyticsService.Caller` and `ApiQuery.Caller`
  treat a response without `reports` as one with an empty `reports` list
  (`IndexError` where the source raises `KeyError`), and a query without
  `reportRequests` as one with no requests. The Reporting API always sends
  `reports`, and every query the callers are written for has `reportRequests`.
- Lists the API always sends with their parent (`metricHeaderEntries`,
  `pivotHeaderEntries`, `dimensionValues`, a region's `values`) are plain
  sequences; their absence is not modelled.
- Request fields other than `viewId` and `pageToken` (date ranges,
  dimensions, metrics, pivots) are left abstract. No code here reads them.
- The paging caller requires `Ends`: some response eventually stops the
  loop. The source loops for as long as the server returns tokens.
- google_drive_api_service.py is not part of this model. It is Drive file
  I/O, and it imports a module that is not present.
- sql_connection.py is not part of this model: ODBC connections, config and
  file reads, `str.format` templating and cursor fetches.
- `__init__.py` (re-exports) and `setup.py` (packaging) are not part of this
  model.

## Findings

| source | as written | input that shows it | evidently intended | confidence | as-written member | corrected member |
|---|---|---|---|---|---|---|
| database_connection/google_analytics_api_query.py:80-85 | the loop calls `extend` on the `data` dictionary and never re-reads `nextPageToken` | a first response with rows and a non-empty `nextPageToken` | append each later page's `rows` and re-read the token until none comes back, as google_analytics_service.py:35-39 does | high; not executed | `AnalyticsApiQuery.PagedResponseRaises` | `AnalyticsService.CallerAccumulatesPages` |
| database_connection/google_analytics_api_query.py:75-78 | the no-data test only checks that `data` is non-empty, then reads `data['rows']`; google_analytics_service.py:28-31 does the same | a report whose `data` holds `totals` but no `rows`, as for a query matching nothing | return the empty table, as google_api_query.py:83 and 93-95 do | medium (assumes the API omits `rows` for an empty result); not executed | `Agreement.NoRowsRaisesWhereGuardedCopyIsEmpty` | `ApiQuery.Caller` |
