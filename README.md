# dash-analysis, modelled in Dafny

dash-analysis is a Go tool that exports every NRQL query behind the New Relic dashboards of one
account to a CSV file. It works in three stages over one piece of state, `LocalData`:

1. `getDashboards` pages through an entity search. It classifies each listed entity with
   `parseEntity`. A dashboard *page* goes into `DashboardMap` under its GUID. The GUID of any
   other entity, a parent dashboard, is appended to `ParentGuids`.
2. `getDashboardDetails` lets `GrQl_Parallel` (10) workers fetch the details of each parent
   GUID. Each worker normalises every raw widget with `parseWidget`, drops widgets without
   queries, tags the rest with the GUID of their page and sends them to one channel. When a
   worker reads the empty GUID, it sends an end-of-work marker: the zero widget, whose GUID is
   empty. An aggregator reads the channel until it has seen ten markers. It stores every widget
   in the dashboard named by the widget's GUID, dropping widgets whose dashboard is unknown.
   Finally it sorts each dashboard's widget id list.
3. `writeCSV` writes a nine-column header, then one row per (dashboard, listed widget id,
   query), to `dashboards_<account>.csv`.

The model follows the code's structure:

- **`Types`** holds the decoded values.
- **`Listing`**, **`Widgets`**, **`Merge`** and **`Csv`** hold pure specification functions
  and the lemmas about them.
- **`Details`** covers the concurrent part. Its lemmas are stated over value-level
  interleavings of the workers' streams.
- **`Pipeline.LocalData`** is a class with the three stages as loop-based methods, each proved
  against the specification functions. The listing stage updates `dashboardMap` and
  `parentGuids` in place. The detail stage updates `dashboardMap` only. `WriteCsv` changes
  nothing and returns the file name and rows.
- **`Strconv`** models Go's `strconv.Atoi` and `%d` on the 64-bit `int`.
- **`Sorting`** models `sort.Ints` as a function. Its lemma shows that the sorted
  permutation is unique.
- **`Seqs`** holds generic sequence lemmas.

What arrives from outside is passed in as parameters:

- **Listing:** `pages[k]` is the decoded response to the k-th listing request.
- **Details:** a function `respond` giving the decoded detail response for each parent GUID,
  and which GUIDs each worker takes.
- **Aggregator:** the sequence of widgets in the order the channel delivers them.

Two behaviours of the code are easy to misread; the model follows the code:

- **Repeated widget ids.** A widget id that arrives twice for one dashboard is appended to
  `WidgetIds` twice but stored once in `WidgetMap` (graphql.go:335-336). So after sorting, the
  id list is *not* duplicate-free and its length need not equal the map's size.
  `Merge.RepeatedIdListedTwice` exhibits this.
- **Parent GUIDs.** `ParentGuids` gets one entry per non-page entity listed. A GUID listed
  twice appears twice.

## Model

| member | source | states |
|---|---|---|
| Listing.Classified | graphql.go:158-180 | The dashboard made from an entity copies its account id, GUID, name and permalink. When the entity does not carry exactly two tags, createdBy is "" and it is not a page. It starts with no widgets. |
| Listing.TwoTagClassification | graphql.go:164-175 | With two tags, the second tag overrides the first. createdBy comes from a one-valued `createdBy` tag. The page flag comes from a one-valued tag with another key and is true iff its value is "true". Tags with zero or several values change nothing. |
| Listing.ParseEntity | graphql.go:158-180 | The tag loop of `parseEntity` produces exactly the classification above. |
| Listing.ListedMap | graphql.go:210-216 | Defines the dashboard map after listing entities. Its properties are stated by the `Listing.ListedMap*` lemmas. |
| Listing.ListedParents | graphql.go:216-219 | Defines the parent GUID list after listing entities. Its properties are stated by `Listing.ListedParentsContents`. |
| Listing.PagesFetched | graphql.go:189-226 | The number of responses the listing loop reads, at most the number available. Its properties are stated by `Listing.PagesFetchedStops`. |
| Listing.CursorsSent | graphql.go:188-225 | One cursor per request. The values are stated by `Listing.CursorsSentAt`. |
| Listing.PagesFetchedStops | graphql.go:189-226 | The listing loop reads at least one response when there is one. Every response it reads before the last carries a cursor. It stops before the end only just after a response without a cursor. |
| Listing.CursorsSentAt | graphql.go:188-225 | The first request carries no cursor. Every later request carries the cursor of the response before it. |
| Listing.ListedMapKeys | graphql.go:210-216 | After listing, the map's keys are the old keys plus exactly the GUIDs of the page entities. Every other entry is unchanged. |
| Listing.ListedMapStored | graphql.go:211-216 | Each listed page GUID holds the classification of a page entity with that GUID, with an empty widget map. |
| Listing.ListedMapLastWins | graphql.go:213-215 | The last page entity listed with a GUID wins: the map holds its classification, whatever earlier entities with that GUID stored. |
| Listing.ListedParentsContents | graphql.go:216-219 | A GUID is in the parent list iff a non-page entity carries it. The list holds the GUIDs of the non-page entities one for one, in listing order. |
| Listing.ListedMapAppend | graphql.go:189-220 | Storing the entities of one response after another is storing their concatenation. |
| Listing.ListedParentsAppend | graphql.go:189-220 | The parent GUIDs of concatenated entity lists are the concatenation of their parent GUIDs. |
| Listing.ListedMapWellFormed | graphql.go:211-216 | Listing keeps every stored dashboard well formed: stored under its own GUID, and its id list and widget map agree. |
| Pipeline.LocalData.constructor | main.go:28-38 | The initial state holds the account id that `main` reads with `strconv.Atoi`, an empty dashboard map (made by `makeClient`, graphql.go:351) and no parent GUIDs. |
| Pipeline.LocalData.GetDashboards | graphql.go:182-228 | The method reads `PagesFetched(pages)` responses and sends each request with the previous response's cursor. It leaves exactly the map and parent list that storing all the entities of those responses, in order, gives. The map stays well formed. |
| Pipeline.LocalData.StorePage | graphql.go:209-220 | Storing one more response extends the map and parent list exactly as storing the longer entity sequence would. |
| Pipeline.LocalData.StoreEntities | graphql.go:210-220 | The entity loop stores each page entity under its GUID, replacing what was there. It appends each other entity's GUID, in order. |
| Strconv.Atoi | graphql.go:232 | Defines `strconv.Atoi`: an optional sign and decimal digits, saturated to the 64-bit range, and 0 for any other string. Its contract keeps the result in range. Its properties are stated by `Strconv.AtoiFormatInt` and `Strconv.FormatIntAtoi`. |
| Strconv.FormatInt | csv.go:37 | `%d` gives a non-empty string. It starts with '-' iff the number is negative and never with '+'. The rest is decimal digits with no leading zero, and a leading '0' occurs only in "0" itself. |
| Strconv.AtoiFormatInt | csv.go:37-44 | Reading back a 64-bit number rendered with `%d` gives the number again. |
| Strconv.FormatIntAtoi | graphql.go:232 | Conversely, a canonical numeral (what `%d` writes) read with `Atoi` and written back with `%d` gives the numeral again. So the two are inverse bijections between `int` and canonical numerals. |
| Widgets.ParseWidget | graphql.go:230-253 | Defines `parseWidget`. Its properties are stated by `Widgets.ParseWidgetPriority` and `Widgets.MarkdownIgnored`. |
| Widgets.ParseWidgetPriority | graphql.go:230-253 | The widget's queries are those of the first non-empty slot in the order area, bar, billboard, line, pie, table. They are empty iff all six slots are empty. The title is the raw title, the id is `Atoi` of the raw id, and no GUID is set. |
| Widgets.MarkdownIgnored | graphql.go:238-251 | The markdown slot never changes the normalised widget. |
| Widgets.PageWidgets | graphql.go:309-317 | Defines the inner widget loop for one page. Its properties are stated by the lemmas below. |
| Widgets.PagesWidgets | graphql.go:307-318 | Defines the page loop. Its properties are stated by the lemmas below. |
| Widgets.Decompose | graphql.go:293-318 | Defines a worker's output for one response. Its properties are stated by `Widgets.DecomposeContents`. |
| Widgets.ResolvingFilter | graphql.go:309-314 | `Resolving` keeps every raw widget with a query, as often as it occurs, and drops the others. |
| Widgets.PageWidgetsShape | graphql.go:309-317 | Every widget emitted for a page has a query, carries the page's GUID and is the normalised form of one of the page's raw widgets with a query. |
| Widgets.PageWidgetsExact | graphql.go:309-317 | The widgets emitted for a page are, one for one and in order, the page's raw widgets with a query, normalised and tagged with the page's GUID. |
| Widgets.PagesWidgetsCount | graphql.go:307-318 | A response emits exactly as many widgets as its pages have raw widgets with a query. |
| Widgets.PageWidgetsComplete | graphql.go:309-317 | Every raw widget of a page that resolves to some query is emitted, tagged with the page's GUID. |
| Widgets.PagesWidgetsShape | graphql.go:307-318 | Every widget emitted for a response has a query and is the normalised form of a raw widget of one of its pages, tagged with that page's GUID. |
| Widgets.PagesWidgetsComplete | graphql.go:307-318 | Every raw widget with a query, on any page of a response, is emitted. |
| Widgets.DecomposeContents | graphql.go:283-318 | The worker emits nothing for an undecodable body or for any reported error, "Not Found" or other. Otherwise each emitted widget is the normalised form of a raw widget with a query, tagged with the GUID of its page. Every such raw widget is emitted, and the number emitted is the number of such raw widgets. |
| Types.IsSentinel | graphql.go:327 | Defines the aggregator's test for an end-of-work marker: the empty GUID. `Types.Sentinel` is the zero `Widget{}` a worker sends (graphql.go:280). Their properties are stated by `Merge.SentinelCut`, `Details.MarkerCount` and `Details.MarkersUncounted`. |
| Details.WorkerOutputs | graphql.go:283-318 | Defines what one worker emits for the GUIDs it took, in order. Its properties are stated by `Details.WorkerOutputsPermutation`, `Details.WorkerOutputsUnmarked` and `Widgets.DecomposeContents`. |
| Details.WorkerStream | graphql.go:277-319 | Defines one worker's stream: the widgets of its responses, in order, then one end-of-work marker. |
| Details.Interleaves | graphql.go:256-327 | Defines the channel: an arrival schedule that delivers every stream's widgets in that stream's order and mixes the streams arbitrarily. |
| Details.WorkerOutputsPermutation | graphql.go:277-319 | Which worker takes which GUID, and in what order, does not change the multiset of widgets emitted. |
| Details.InterleavesMultiset | graphql.go:256-321 | Any order in which the channel delivers the workers' streams holds exactly their widgets, each as often as it was emitted. |
| Details.PoolStreams | graphql.go:260-321 | Together, the workers' streams hold the widgets of all the responses plus one marker per worker. |
| Details.WorkerOutputsUnmarked | graphql.go:307-317 | When no decoded page has the empty GUID, a worker emits no marker of its own among its widgets. |
| Details.Delivered | graphql.go:255-321 | However the GUIDs are shared out and the streams interleaved, the aggregator receives, as a multiset, the responses' widgets plus one marker per worker. |
| Details.MarkerCount | graphql.go:277-281 | With no unnamed page, the delivered sequence holds exactly one marker per worker. |
| Details.AggregatorDrains | graphql.go:264-340 | With ten workers and no unnamed page, the aggregator's ten rounds read the whole delivered sequence. It neither stops early nor waits for more. |
| Details.SortedIdsByMultiset | graphql.go:335-345 | After sorting, a dashboard's id list depends only on the multiset of widgets read. |
| Details.MarkersUncounted | graphql.go:327-338 | Markers are never merged or counted. |
| Details.MarkersUnlisted | graphql.go:327-345 | Markers add no id to any list. |
| Details.SchedulingIndependent | graphql.go:255-345 | For any sharing of the GUIDs over the ten workers and any interleaving of their streams, the aggregator reads everything. It counts as many widgets, and ends with the same sorted id list for every dashboard, as reading the responses' widgets one response after another would. |
| Details.ResponsesFrom | graphql.go:283-290 | Every response a worker handles is the response to one of the GUIDs it took. |
| Details.SharedResponses | graphql.go:260-290 | The workers' responses together are the responses to the GUIDs they took together. |
| Details.ParentsScheduled | graphql.go:255-345 | Starting from `ParentGuids`: however the ten workers share the GUIDs from the input queue and however their streams interleave, the aggregator reads everything. It counts as many widgets, and ends with the same sorted id lists, as reading the responses to the parent GUIDs in listing order would. |
| Details.SentinelCountPermutation | graphql.go:326-329 | Reordering the delivered widgets does not change the number of markers. |
| Details.MergedCountPermutation | graphql.go:330-338 | Reordering the delivered widgets does not change the `widgets` count. |
| Details.IdsForPermutation | graphql.go:335-336 | Reordering the delivered widgets changes the ids appended to a dashboard only in order. |
| Merge.CutFrom | graphql.go:324-329 | Reading from a position while waiting for n markers stops just after the n-th marker. With fewer markers it stops at the end, and with none to wait for it reads nothing. It reads min(n, available) markers. |
| Merge.SentinelCut | graphql.go:324-329 | The aggregator reads exactly min(10, markers present) markers. It stops just after the tenth, or at the end when fewer arrive. |
| Merge.SentinelCutAtLastMarker | graphql.go:324-329 | A sequence with exactly n markers, ending in one, is read to its end. |
| Merge.RoundCut | graphql.go:325-329 | One round that ends at its first marker leaves one marker fewer to wait for. |
| Merge.MergeOne | graphql.go:327-338 | Defines one aggregator step. Its properties are stated by `Merge.MergeAllEffect`, `Merge.MergeAllStored` and `Merge.OrphanDropped`. |
| Merge.MergeAll | graphql.go:325-339 | Defines the aggregator's map after reading a sequence in order. Its properties are stated by the lemmas below. |
| Merge.MergedCount | graphql.go:338 | Defines the `widgets` counter. Its properties are stated by `Pipeline.LocalData.ReadRound` and `Details.MergedCountPermutation`. |
| Merge.SortPass | graphql.go:342-345 | Defines the final pass. Its properties are stated by `Merge.SortPassEffect`. |
| Merge.MergeAllEffect | graphql.go:330-338 | Merging adds no dashboard and changes no dashboard's header. Each id list grows by exactly the ids destined for it, in reading order and with repeats. The widget map gains exactly those ids. |
| Merge.MergeAllStored | graphql.go:335-337 | Each id of a dashboard holds the last widget read for it (later arrivals overwrite earlier ones), or what it held before when none was read. |
| Merge.OrphanDropped | graphql.go:330-334 | A widget whose dashboard is not in the map leaves the map exactly as it was. |
| Merge.MergeAllWellFormed | graphql.go:335-337 | Merging keeps every dashboard well formed. Each stored widget sits under its own id in the dashboard its GUID names, and the id list and map keys hold the same ids. |
| Merge.RepeatedIdListedTwice | graphql.go:335-336 | Two widgets with one id for one dashboard list the id twice but store only the second widget. |
| Merge.SortPassEffect | graphql.go:342-345 | After the final pass every id list is ascending and a permutation of the old one. Widget maps and headers are unchanged, and well-formedness is kept. |
| Sorting.SortInts | graphql.go:343 | The final pass's sort gives an ascending permutation of the id list. |
| Sorting.SortedPermutationUnique | graphql.go:343 | There is only one ascending permutation, so the result does not depend on the sorting algorithm. |
| Pipeline.LocalData.ReadRound | graphql.go:325-339 | One round reads up to and including the next marker, or to the end, and merges each widget whose dashboard exists. It counts exactly the merged widgets. |
| Pipeline.LocalData.Aggregate | graphql.go:323-340 | The ten rounds together read exactly `SentinelCut(outputs, 10)` widgets. They leave the map that merging them in order gives, with the matching count. |
| Pipeline.LocalData.SortWidgetIds | graphql.go:342-345 | The in-place pass over the map's keys leaves exactly the sorted map, still well formed. |
| Pipeline.LocalData.GetDashboardDetails | graphql.go:323-345 | The aggregator and final pass leave the sorted merge of everything read up to the tenth marker and count the merged widgets. The map stays well formed. |
| Csv.Header | csv.go:20-30 | Defines the nine column names. Its contract gives it as many columns as every data row, and `Pipeline.LocalData.WriteCsv` puts it first. |
| Csv.LookupWidget | csv.go:34 | Defines the lookup `WidgetMap[widgetId]`: Go's zero widget, with no queries, for a missing id. So a missing id yields no rows, as `Csv.IdsRowsShape` and `Csv.NoQueriesNoRows` state. |
| Csv.FileName | csv.go:13 | Defines the file name. Its properties are stated by `Csv.FileNameNamesAccount`. |
| Csv.Row | csv.go:36-46 | Defines one data row. Its properties are stated by `Csv.RowColumns`. |
| Csv.WidgetRows | csv.go:34-47 | Defines the rows of one widget id. Its properties are stated by `Csv.IdsRowsAt`, `Csv.RowColumns` and `Pipeline.AppendWidgetRows`. |
| Csv.ExportRows | csv.go:31-49 | Defines the data rows of dashboards in a given order. Its properties are stated by `Csv.ExportRowsShape` and `Pipeline.LocalData.WriteCsv`. |
| Csv.FileNameNamesAccount | csv.go:13 | The file name is "dashboards_", then the account id in decimal, then ".csv". The account id reads back from the name. |
| Csv.RowColumns | csv.go:36-46 | Every data row has the nine header columns in header order. The three numbers are in decimal and read back to themselves; the other fields are copied verbatim. |
| Csv.IdsRowsShape | csv.go:33-47 | A dashboard contributes one nine-column row per query of each listed id, a repeated id each time. |
| Csv.IdsRowsAt | csv.go:33-47 | Rows follow the id list, and within an id, the widget's queries in list order. |
| Csv.NoQueriesNoRows | csv.go:33-35 | A dashboard with no ids, or whose ids have no queries, contributes no rows. |
| Csv.ExportRowsShape | csv.go:31-49 | The export has one nine-column row per dashboard, listed id and query. |
| Pipeline.LocalData.WriteCsv | csv.go:10-52 | The method returns the file name for the account and the header followed by the rows of every dashboard. Each key of the map is visited once, in an unspecified order. It also returns the logged entry count, which is the row count minus the header. |
| Pipeline.AppendDashboardRows | csv.go:33-48 | The id loop appends exactly the dashboard's rows. |
| Pipeline.AppendWidgetRows | csv.go:34-47 | The query loop appends exactly the rows of the widget stored under the id. |

## Left out

- HTTP requests and retries (`retryQuery`, graphql.go:119-156) are not modelled. Nor is the HTTP client and header set-up in `makeClient` (graphql.go:349-350); only its empty dashboard map is modelled, by the constructor. The decoded responses are parameters instead.
- JSON encoding and decoding (graphql.go:191-207, 285-297) are not modelled. A detail response is either `Malformed` or already decoded. A listing response is already decoded; a body that is not valid JSON, including an empty one, yields Go's zero result, which the caller passes as an empty page without a cursor.
- A listing response that `json.Unmarshal` fills only partly, on a type mismatch, is not modelled as such. `getDashboards` goes on with the partial result (graphql.go:200-207); the caller passes the decoded part as the page.
- The `json.Marshal` failure branch of the worker (graphql.go:286-289) is not modelled: marshalling the fixed payload struct does not fail.
- Goroutines, channels and buffer sizes (graphql.go:256-281) are not modelled. The feeder and workers are the pure `Details.WorkerStream`. The channel is any interleaving with an explicit arrival schedule (`Details.Interleaves`). The aggregator is a method over the delivered sequence.
- Go's map iteration order (csv.go:31, graphql.go:342) is unspecified. The CSV order is a ghost `order` that lists every key once. The sort pass visits keys in arbitrary order.
- Log output is not modelled: the "Expected 2 tags" message, orphan warnings, the listing's error logs, and the logged counts other than the CSV entry count.
- File creation, `csv.Writer`, `Flush`, `Sync` and `Close` (csv.go:14-17, 53-60) are not modelled. `WriteCsv` returns the file name and the rows it would write.
- main.go is not modelled except the `LocalData` fields: environment variables, `os.Exit` and the order of the stages.
- Pipeline.LocalData.GetDashboards: the page sequence is finite. If it runs out before a response without a cursor, the model stops, whereas Go would keep sending requests.
- Pipeline.LocalData.GetDashboardDetails: the delivered sequence is finite. If it holds fewer than ten markers, the model stops at its end, whereas Go would block on the channel.
- Details.SchedulingIndependent requires that no decoded page has the empty GUID. Such a page's widgets would be taken for markers and end the aggregator's rounds early.
- Details.SchedulingIndependent and Details.ParentsScheduled do not cover an empty parent GUID. A non-page entity with the empty GUID puts "" into `ParentGuids` (graphql.go:218). A worker that takes it sends a marker and stops without fetching anything (graphql.go:278-281). Once ten such GUIDs are taken, every worker has stopped, and the GUIDs queued after them are never fetched. `Details.ParentsScheduled` requires every parent GUID to be non-empty.
- Details.ParentsScheduled answers each GUID with one fixed response, `respond(g)`. A GUID listed twice is fetched twice in Go and could get two different answers.
- Details.SchedulingIndependent fixes only the sorted id lists and the count. Which widget a repeated id keeps depends on arrival order (`Merge.MergeAllStored` states it for a given order).
- Strconv.Atoi: Go reports a range error for a digit string that overflows and then has a bad character, returning the saturated value. The model returns 0 for every string that is not all digits. The two differ only on ids longer than 19 digits that also contain a non-digit.
- Sorting.SortInts models `sort.Ints` by its result, an ascending permutation. It does not model the in-place algorithm on the slice.
