# Resumable batched ingestion of TV records — a Dafny model

The scrapper walks the numeric IDs of a remote TV API, from a resumption point up
to a configured `total`. It fetches each ID once, keeps a record when the
response body is a JSON object, and flushes the buffered records to a MongoDB
collection with `insertMany`. A flush happens after every 100 *attempted* IDs,
and at the last ID, unless that ID already closed a window. After the last ID it
reports how many new records it fetched. A rejected `insertMany`, as the code is
written, ends the run at that flush (see "Findings").

This project models that ingestion loop and proves what it does:

- which IDs it visits;
- which responses become records;
- how the records are cut into batches;
- what reaches the store when inserts fail, and where a failed insert stops
  the run;
- what the summary reports.

The files:

- `wrappers.dfy`: the `Option` type.
- `fetcher.dfy` (module `Fetcher`): the JavaScript values axios can return, with
  `typeof` and truthiness. It also holds the classification of `fetchData`
  (`FetchData`) and the `if (data)` test of the loop (`Payload`).
- `batching.dfy` (module `Batching`): reference definitions of one run, with the
  lemmas about them. These are the IDs visited (`IdRange`, from `StartId`), the
  records kept (`Kept`), the batches (`Batches`, one per window of 100 attempted
  IDs), what the store keeps (`Committed`), where a scan stops (`StopAt`,
  `Completes`) and the summary (`Summarize`).
- `ingestion.dfy` (module `Ingestion`): class `Ingest`, whose fields are the
  loop's state. The fields `allData`, `newDataCounter` and `count` are the
  loop's own state. The fields `submitted`, `stored` and the ghost `attempted`
  record the calls made to the store and to the remote API. `Run` is `main`:
  `Begin` sets up the loop and `Step` is its body, made of `Visit` (fetch,
  count, buffer) and `FlushWhenDue` (the two flush branches, which share
  `Flush`, through `SaveData`). `Run` is proved to produce exactly the
  reference run, up to the point where it stops.

The remote API is a parameter `respond: int -> Response`. A `Response` is either
a body (`Received`) or a thrown request (`Thrown`). The store's verdict on the
j-th `insertMany` of a run is a parameter `accepts: nat -> bool`. How the catch
block of `saveData` writes a rejected insert's error is a parameter `errorLog`:
`ErrorObject` is the code as written, `ErrorText` the corrected catch block.
`tvLength` and `lastIdFetched` are inputs to `Run`.

Details of the code the model follows:

- **What triggers a flush.** The flush trigger counts IDs attempted since the
  last flush (`count++` runs for every ID), not records buffered. As a result, a
  batch can hold fewer than 100 records even when it is not the last one.
- **The last flush.** At the last ID the buffer is flushed even when it is
  empty, so the final `insertMany` may receive `[]` (`FinalBatchEmptyIff`).
  When the last ID is the 100th of its window, that is the only flush there.
- **A rejected insert.** The catch block of `saveData` hands the error object
  itself to `fs.promises.writeFile`, which accepts only strings, buffers, typed
  arrays and iterables. The write rejects, so `saveData` rejects, and the
  exception leaves `main`: no later ID is requested, the buffer is not reset,
  and there is no summary.
- **A `null` body.** A body of `null` passes the `typeof === "object"` test,
  because `typeof null` is `"object"`. `fetchData` then returns that `null`, and
  the loop's `if (data)` drops it. The effect is the same as for a scalar body:
  no record.
- **The resumption point.** It is the `id` of the most recently inserted
  document, not the largest `id` in the store. Its value is taken as an input
  here.

## Model

| member | source | states |
|---|---|---|
| `Fetcher.FetchData` | index.mjs:23-38 | The value returned is usable (truthy) exactly when the request resolved with a JSON object body, and is then that body. A scalar body, a `null` body and a thrown request all give `null`. Each call is one attempt, with no retry. |
| `Fetcher.Payload` | index.mjs:55-61 | `fetchData` followed by `if (data)`: a record comes out exactly for an object body, and it is that body. |
| `Fetcher.NullBodyPassesTypeofButYieldsNothing` | index.mjs:27-29 | `typeof null` is `"object"`, so a `null` body passes the check, yet it yields no record. |
| `Batching.IdRange` | index.mjs:54 | The IDs from `lo` to `hi` number `hi - lo + 1`, or none when `lo > hi`. |
| `Batching.IdRangeAt` | index.mjs:54 | The k-th ID visited is `lo + k`, as with `i++` from `lo`. |
| `Batching.IdRangeVisitsEachOnce` | index.mjs:54 | Every ID from `lo` to `hi` inclusive is visited, no other ID is, and the IDs are in strictly increasing order. |
| `Batching.ScanBounds` | index.mjs:54 | A run starts at `lastIdFetched` when that is nonzero and at 1 otherwise, and ends at `total`. It does no iteration at all exactly when the start is beyond `total`. |
| `Batching.Kept` | index.mjs:58-61 | The records kept for an ID interval number at most the IDs in it. |
| `Batching.KeptSplit` | index.mjs:58-61 | The records kept for adjacent intervals concatenate to those of their union, in ID order. |
| `Batching.KeptMembership` | index.mjs:58-61 | A record is kept exactly when some ID of the interval yields it. An ID whose fetch gave `null` contributes nothing. |
| `Batching.KeptEmptyIff` | index.mjs:58-61 | Nothing is kept for an interval exactly when every ID in it gave `null`. |
| `Batching.KeptAllRecords` | index.mjs:58-61 | When every ID yields a record, one record is kept per ID. |
| `Batching.BatchesStep` | index.mjs:63-73 | After k full windows, a flush at ID `hi` within the next window adds exactly one batch, holding that window's records. |
| `Batching.BatchesCount` | index.mjs:56-73 | For N ≥ 1 IDs the store receives ⌈N/100⌉ `insertMany` calls. This is stated as `100(n-1) < N ≤ 100n`. |
| `Batching.BatchAt` | index.mjs:56-73 | Batch j is exactly the records of IDs `start + 100j` through the next boundary or `total`: the trigger counts attempted IDs, not buffered records. |
| `Batching.BatchesBounded` | index.mjs:56-73 | No batch handed to `insertMany` holds more than 100 records. |
| `Batching.FlattenSnoc` | index.mjs:63-73 | Appending a batch appends its records to the concatenation. |
| `Batching.FlattenCons` | index.mjs:63-73 | Prepending a batch prepends its records to the concatenation. |
| `Batching.BatchesPartition` | index.mjs:54-75 | The submitted batches, concatenated, are exactly the in-order records of the whole run, so no ID's record is submitted twice or skipped. |
| `Batching.NoNullSubmitted` | index.mjs:58-64 | Every submitted record is the payload of an ID in the range whose fetch returned an object. |
| `Batching.FinalBatchEmptyIff` | index.mjs:68-72 | The last batch is empty exactly when every ID since the last full flush gave `null`. |
| `Batching.AllRecordsBatchSizes` | index.mjs:56-73 | When every fetch succeeds, every batch but the last holds 100 records and the last holds `N - 100(k-1)`. |
| `Batching.FiveIdExample` | index.mjs:54-73 | With IDs 1..5 where 1, 2 and 4 give records: one flush of exactly those three records, and three new records. |
| `Batching.CommittedSnoc` | index.mjs:40-47 | One more insert adds its batch to the store exactly when that call is accepted. |
| `Batching.CommittedWithinFlatten` | index.mjs:40-47 | The store never holds more than was submitted, and holds all of it in order when every insert is accepted. |
| `Batching.StopAt` | index.mjs:40-75 | The last ID a scan requests is never beyond `total`, and is `total` when every flush returns. |
| `Batching.StopAtFlush` | index.mjs:63-73 | A flush closing the window at `b` either returns, and the scan goes on from the next ID with one more flush made, or does not, and then that ID is the last one requested and the scan does not complete. |
| `Batching.CompletesIff` | index.mjs:54-75 | A scan completes exactly when every one of its flushes, one per window, returns. |
| `Batching.RejectionHaltsScan` | index.mjs:43-46 | As written, when the inserts before call `j0 + m` were accepted and that call is rejected, the scan stops at the end of that call's window and never completes. The batches it submitted are exactly the reference batches up to and including the rejected one. |
| `Batching.FirstInsertRejectedExample` | index.mjs:43-46 | With IDs 1..150 and the first insert rejected, the code as written requests IDs 1..100, makes one insert of the two and does not complete. With the error logged as text it requests all 150 IDs. |
| `Batching.TextLogCompletes` | index.mjs:43-46 | With the error logged as text, `saveData` always returns, so every scan completes at `total`, whatever the store answers. |
| `Batching.ReportedTotal` | index.mjs:78-79 | The reported total is `tvLength` plus the new-record count. With the error logged as text, it counts records of rejected batches too: it is never below the previous count plus what the store kept, and equals it when every insert is accepted. As written, a scan that completes had every insert accepted, so the total it reports is exactly the previous count plus what the store kept. |
| `Ingestion.Ingest.constructor` | index.mjs:50-52 | A fresh driver has an empty buffer, no new records, a zero count and no calls recorded. |
| `Ingestion.Ingest.SaveData` | index.mjs:40-47 | The batch is recorded as submitted, and the store gains it only when the insert is accepted. The call returns exactly when the insert is accepted or the catch block can write its log, so never after a rejection as written. |
| `Ingestion.Ingest.Visit` | index.mjs:55-61 | ID `i` is requested once and counted as an attempt. Its record, if any, is appended to both `allData` and `newDataCounter`. |
| `Ingestion.Ingest.Flush` | index.mjs:64-72 | A flush submits exactly the reference batch of the current window. When `saveData` returns, the buffer is emptied and the count zeroed. When it does not, both are left as they were. |
| `Ingestion.Ingest.FlushWhenDue` | index.mjs:63-73 | A flush happens exactly when 100 IDs have been attempted or `i` is `total`. When it returns, or when there is none, the loop invariant (`Scanning`) holds at `i`. When it does not return, `i` is where the whole scan stops and the scan does not complete. |
| `Ingestion.Ingest.Step` | index.mjs:55-73 | One pass of the loop body requests ID `i` and closes the window exactly when due. If its flush returns, or there is none, the loop invariant carries over: 0 ≤ `count` < 100, and the buffer equals the current window's records. If the flush does not return, the pass ends the run: `i` is where the scan stops, and the window's batch was submitted. |
| `Ingestion.Ingest.Begin` | index.mjs:50-54 | The buffer, the new-record list and the count start empty, the scan starts at `StartId(lastIdFetched)`, and the loop invariant holds before the first ID. |
| `Ingestion.Ingest.Finished` | index.mjs:54-75 | A loop that went past `total` completed the scan: every ID up to `total` was requested, every window was flushed, and the buffer is empty. |
| `Ingestion.Ingest.Run` | index.mjs:49-79 | The IDs requested are exactly `StartId(lastIdFetched)..StopAt`, in order, and the batches submitted are exactly `Batches` over that range. The store holds the accepted ones, and `newDataCounter` is every kept record of the range. A completed scan ends with an empty buffer, a zero count and the summary `tvLength` plus the new count. A scan stopped by a flush that does not return gives no summary. |

## Findings

| source | as written | input that shows it | evidently intended | confidence | as-written member | corrected member |
|---|---|---|---|---|---|---|
| index.mjs:45 | The catch block of `saveData` passes the error object to `fs.promises.writeFile`, which rejects data that is not a string, buffer, typed array or iterable. So a rejected `insertMany` makes `saveData` reject, and the rejection leaves `main` at line 64 or 69. | IDs 1..150 with the first `insertMany` rejected: only IDs 1..100 are requested, one insert is made, and no summary is printed. | The error is logged and the scan goes on to `total`, with the rejected batch left out of the store. | medium: not executed; this follows from Node's documented `fs` argument checks | `Batching.RejectionHaltsScan`, `Batching.FirstInsertRejectedExample` (with `errorLog == ErrorObject`) | `Batching.TextLogCompletes` (with `errorLog == ErrorText`) |

## Left out

- Database plumbing is not modelled: the connection, `countDocuments` and the
  query for the latest document (index.mjs:11-18). `tvLength` and
  `lastIdFetched` are inputs. The model says nothing about an empty collection,
  where that query throws.
- HTTP is left out: URL building and `axios.get` (index.mjs:24, 26) become the
  `respond` parameter.
- Console output, `log-symbols`, the contents and names of the error and log
  files, `formatDate` and `formatTime` (index.mjs:21, 28-35, 44-45, 65, 70,
  78-81) are output only and are not modelled. Whether the error file's write
  succeeds is modelled (`errorLog`), because it decides whether `saveData`
  returns.
- The wall-clock timer (index.mjs:19, 76) is non-deterministic and is not
  modelled. The run summary has no elapsed time.
- `deleteDuplicate` (index.mjs:83) is not part of this model. Its source is not
  available.
- `total` is an integer. The coercion of `i <= total` and `JSON.parse(total)`
  is not modelled. JSON numbers are integers here, so NaN and fractions are left
  out.
- async/await is modelled as a plain sequential loop. Only one call is ever in
  flight.
- Ingestion.Ingest.SaveData: `insertMany` is modelled as all-or-nothing.
  MongoDB's ordered insert can keep the documents that precede a failing one,
  and that partial outcome is not modelled.
- Ingestion.Ingest.Run: requires that the driver has recorded no calls yet. The
  driver models one run of `main`. `Run` itself does not restate the batch-size
  bound and the flush count: they follow from its `submitted == Batches(...)`
  through `BatchesBounded` and `BatchesCount`. A stopped run returns `None`
  instead of propagating an exception, and what the unhandled rejection does
  to the process afterwards is not modelled.
- JSON arrays are objects to `typeof`. They are treated like any other object
  body, as a `Record`.
