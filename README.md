# Shopify metafield export, modelled in Dafny

`mf.py` downloads every metafield of a Shopify store into one CSV file. For
each requested resource class (custom collections, smart collections,
products, variants) it walks the class's paginated listing page by page. For
every object on a page it fetches the object's metafields, appending each
metafield's dictionary form to one list. Every remote call goes through a
fault-tolerant wrapper:
- a rate-limited call (client error with `Retry-After`) pauses twice the
  advertised time and tries again;
- a server error pauses five seconds and tries again;
- any other error propagates.
At the end the CSV header is taken from the first record's attribute names.
A separate helper turns the counts of `-q` and `-v` flags into a log level.

The model has four modules:

- `Retry` (retry.dfy) — the wrapper `ftcall` as a state machine over a
  script of attempt outcomes (`Ft`), and as the loop it is in the source
  (`FtCall`), proved equal to `Ft`. `FtCharacterised` pins down which
  attempt ends a run and with what status; the pauses of a run are those of
  the attempts it made (`RetryDelays`). `RunCalls` reads several wrapped
  calls made one after another on one stream of attempts as a single state
  machine. Its result, a `Batch`, says how the calls ended, how many attempts
  they used and how many calls were issued: all of them when every call
  returned, and otherwise those up to and including the call that raised or
  is still retrying. `RunCallsOne` and `RunCallsFirst` show it is one `Ft`
  run per call, each on the attempts the earlier calls left.
- `Collector` (collector.dfy) — `_get_mf_chunk` and `get_mf_for` as
  imperative methods.
  - The remote listing is a sequence of pages, each holding objects and a
    has-next flag.
  - The outcomes of all remote attempts come, in call order, from one
    stream.
  - Each method returns the logical remote calls it issued, the pauses it
    asked for and how many attempts it consumed. Its contract ties the
    attempts consumed to the calls issued: they are exactly the attempts of
    one wrapper run per call, in order, and the batch of those calls issued
    every one of them (`RunCalls(s, |calls|).issued == |calls|`). So a call
    that raised or is still retrying is the last call issued.
  - The methods are proved against specification functions. `Collect` gives
    the records of the pages up to the first page without a next one;
    `AllCalls` gives the calls that walk issues.
  - The methods use the corrected page test: they fetch the page after the
    previous one whenever a previous page is given (`prev.Some?`). The code
    as written tests `if objs_chunk:`, which treats an empty page as no
    page; that version is modelled separately (see Findings).
- `Export` (export.dfy) — the collection loop of `metafields_csv` over the
  requested classes, and how the CSV header arises from the collected
  records, including the case of no record at all.
- `Logging` (logging.dfy) — `configure_logging`'s clamp of the log level.

Two behaviours of the code that the model keeps:

- `metafields_csv` opens the output file with mode `"wt"`, which truncates
  it, before it indexes the first record (`mfs[0]`). With no record at all,
  the run therefore leaves an emptied file and raises `IndexError`. This is
  `Export.CsvOutcome.EmptiedThenIndexError`.
- `csv.DictWriter` is built without an `extrasaction` argument, so its
  default `'raise'` applies: a later record with an attribute name that the
  header lacks raises `ValueError`. Serialisation is not part of this model;
  see below.

## Model

| member | source | states |
|---|---|---|
| `Retry.FtCall` | mf.py:63-80 | The retry loop returns exactly the run the state machine `Ft` describes: same status and same number of attempts. Its pauses are exactly those the attempts it made call for, in order. |
| `Retry.FtCharacterised` | mf.py:66-80 | A run makes at most as many attempts as the script has, and every attempt before the last one was retryable. A run that returns ended on a success. A run that raises ended on a client error without Retry-After or on another exception. A run that neither returns nor raises used up the whole script, all of it retryable. |
| `Retry.FtPausesPerFailure` | mf.py:70-80 | A finished run paused exactly once per failed attempt before its last one; a run still retrying paused once per attempt. |
| `Retry.FirstSuccessReturns` | mf.py:66-69 | After any number of retryable failures, the first success returns at once, having paused once per failure, and nothing after it is attempted. |
| `Retry.RetryDelaysAppend` | mf.py:73-80 | The pauses of two consecutive runs of attempts are the pauses of the first followed by those of the second. |
| `Retry.ClientErrorPropagatesAtOnce` | mf.py:70-77 | A client error without Retry-After raises on the first attempt, with no pause. |
| `Retry.RateLimitPausesTwiceRetryAfter` | mf.py:70-75 | A rate-limited attempt pauses twice Retry-After, then the same call is retried on what follows. |
| `Retry.ServerErrorPausesFiveSeconds` | mf.py:78-80 | A server error pauses five seconds, then the same call is retried. |
| `Retry.RunCallsOne` | mf.py:55-59 | A single wrapped call, read as a batch of one call, is exactly one run of `ftcall`. |
| `Retry.RunCallsFirst` | mf.py:55-60 | In a batch of calls, the first call is one run of `ftcall`. If it returns, the remaining calls run on the attempts it left; if it raises or is still retrying, the batch ends with that run. |
| `Retry.RunCallsAppend` | mf.py:46-48 | Calls that all returned, followed by more calls on the attempts left over, form one longer batch that ends as the later calls end. |
| `Retry.RunCallsThen` | mf.py:46-48 | The same as `RunCallsAppend` on positions of one stream: calls that returned using the attempts from `pos` to `mid`, then calls using those from `mid` to `end`, form one batch from `pos` to `end`, with both call counts added. |
| `Retry.RunCallsStuck` | mf.py:55-60 | Once a batch has raised or is still retrying, asking for more calls changes nothing: no call is issued after the one that did not return. |
| `Retry.RunCallsIssuedUnique` | mf.py:55-60 | For a batch that raised or is still retrying, at most one number of calls has all its calls issued. So `issued == |calls|` fixes how many calls a failing method made. |
| `Retry.RetryDelaysExtend` | mf.py:73-80 | The pauses of the attempts up to `pos` followed by those of the next `n` attempts are the pauses of the attempts up to `pos + n`. |
| `Retry.RunCallsAllSucceed` | mf.py:66-69 | On a stream of successes every call takes exactly one attempt: k calls return after k attempts when the stream has that many, and otherwise the batch has used the whole stream and is still waiting. |
| `Retry.RunCallsConsumed` | mf.py:63-80 | A batch never counts more calls issued than asked for, and counts all of them when every call returned. When every call of a batch returned, each took at least one attempt, none of the attempts was fatal and the last was a success. When a call raised, the last attempt used was fatal. When the batch is still retrying, it used the whole stream. |
| `Collector.LastPage` | mf.py:46 | The walk stops at the first page that reports no next page: that page has no next page, and every page before it has one. |
| `Collector.RecordsCount` | mf.py:58-60 | A page yields exactly as many records as its objects have metafields. |
| `Collector.RecordAt` | mf.py:58-60 | Record order: metafield j of object i sits right after all the records of the earlier objects, at offset j. |
| `Collector.RecordsAppend` | mf.py:58-60 | The records of consecutive runs of objects are concatenated in order. |
| `Collector.EmptyObjectContributesNothing` | mf.py:58-60 | An object without metafields adds no record. |
| `Collector.ProgressCounts` | mf.py:43-49 | After each page, the logged count is the number of records collected up to and including that page. |
| `Collector.ProgressPrefix` | mf.py:45-49 | The counts logged by a shorter walk are a prefix of those logged by a longer one. |
| `Collector.CallsUpToPrefix` | mf.py:46-48 | The calls of a shorter walk are a prefix of the calls of a longer one. |
| `Collector.EachPageFetchedOnceInOrder` | mf.py:42-57 | The page-listing calls of a walk are `cls.find` for page 0 and then `next_page` after each page in turn: each page is fetched once, in order. |
| `Collector.BatchAt` | mf.py:55-59 | What the calls that used the attempts from `pos` to `end` tell: a raise ended on a fatal attempt at `end - 1`, a return of at least one call ended on a success, and a batch still retrying reached the end of the stream. On an all-success stream each call took one attempt, and the batch returned exactly when the stream held enough attempts. |
| `Collector.CallThrough` | mf.py:55-59 | One remote call through the wrapper is exactly one run of `ftcall` on the attempts from `pos` on. It consumes the attempts of that run, at least one unless the stream is exhausted, and adds their pauses. |
| `Collector.AppendRecords` | mf.py:59-60 | The inner loop appends an object's metafield records after those collected so far, in order. |
| `Collector.CollectObjects` | mf.py:58-60 | The calls issued are a prefix of one metafield call per object, in order. On return the records are those of all the objects, in object order and then metafield order, and every object was called. The attempts consumed are exactly one wrapper run per issued call, and every call counted was issued, so a call that raised or is still retrying is the last one. A raise ends on a fatal attempt. On an all-success stream with enough attempts it returns, one attempt per call. |
| `Collector.GetMfChunk` | mf.py:52-61 | Uses the corrected page test (a previous page is given, not `if objs_chunk:`). It fetches the first page when there is no previous page, and otherwise the page after the previous one; the first call is `find` or `next_page` to match. Its calls are a prefix of that page's calls, and the attempts consumed are exactly one wrapper run per call issued, with no call after one that raised or is still retrying. On success its records are exactly that page's records. A failure ends on a fatal attempt. On an all-success stream with enough attempts it succeeds. |
| `Collector.CollectNextPage` | mf.py:46-49 | One round of the walk appends the next page's records, calls and logged count. On success the new state satisfies `WalkedTo` for the next page: records, calls and counts of all pages so far, and the attempts and pauses they used. On failure nothing is logged, and the number of counts logged is the page of the last call issued. The attempts consumed by all calls so far stay exactly one wrapper run per call, the last call being the one that failed. |
| `Collector.CollectFirstPage` | mf.py:42-45 | The walk starts with page 0's records, calls and logged count, satisfying `WalkedTo` for page 0. On failure nothing is logged. Its attempts are one wrapper run per call issued. |
| `Collector.ChunkCallsOnPage` | mf.py:52-60 | Every call of a page's chunk (`find` or `next_page`, then one metafield call per object) belongs to that page. |
| `Collector.ProgressLogPrefix` | mf.py:43-49 | Counts that are a prefix of the full log are exactly the counts of the first pages, one per page. |
| `Collector.WalkedToEnd` | mf.py:46-50 | A walk that has reached a page without a next page has collected `Collect(listing)`, issued `AllCalls(listing)` and logged the full log of counts. |
| `Collector.GetMfFor` | mf.py:40-50 | On success, the records are exactly `Collect(listing)`: the records of pages 0 up to the first page without a next page, in order. The calls are exactly `AllCalls(listing)`, and one count was logged per page, each the running total. In every case the calls issued are a prefix of `AllCalls`, the logged counts a prefix of the full log, and the attempts consumed exactly one wrapper run per issued call, with their pauses; the call that raised or is still retrying is the last one issued. On failure one count was logged per page before the page of the last call, so by `ProgressLogPrefix` the counts are `Progress(listing, CallPage(last call))`. A failure ends on a fatal attempt. On an all-success stream with enough attempts it succeeds, one attempt per call. |
| `Collector.EmptyFirstPageRepeatsAsWritten` | mf.py:54-57 | As written, a first page that is empty but reports a next page is fetched again on every round. |
| `Collector.EmptyFirstPageCounterexample` | mf.py:54-57 | For a two-page listing whose first page is empty, the walk should collect the second page's record, yet as written no number of rounds reaches the second page. |
| `Export.TotalCallsGrow` | mf.py:91-92 | Collecting a prefix of the classes issues no more calls than collecting them all. |
| `Export.AllRecordsEmpty` | mf.py:90-92 | The combined record list is empty exactly when every class collects nothing. |
| `Export.NoHeaderIffNoRecords` | mf.py:90-94 | No header can be taken, so the indexing of the first record raises, exactly when no requested class has any record. |
| `Export.HeaderFromFirstClassWithRecords` | mf.py:90-94 | The header is the attribute names of the first record of the first class, in request order, that has any record. |
| `Export.ClassStep` | mf.py:90-92 | Collecting one more class appends its records after those of the earlier classes, and its calls fit within the calls of all classes. |
| `Export.CollectClass` | mf.py:91-92 | Collecting one class on the rest of the stream yields that class's `Collect` and all its calls, or fails on a fatal attempt, or stalls at the end of the stream. Its calls are a prefix of the class's calls, and the attempts it consumes are exactly one wrapper run per call issued, with no call after one that failed. With an all-success stream of enough attempts it succeeds, consuming exactly its calls. |
| `Export.ClassReturned` | mf.py:90-92 | After the classes before `c` returned, a class whose calls all returned extends the batch of all calls so far by its calls, and the records by its records. The calls issued stay within those of all classes. |
| `Export.ClassFailed` | mf.py:90-92 | After the classes before `c` returned, a class that failed ends the batch of all calls so far with its last call. A raise ends on a fatal attempt, a stall at the end of the stream, and neither can happen on an all-success stream with enough attempts. |
| `Export.CollectNextClass` | mf.py:91-92 | One round of the class loop: on success the records are those of classes 0 to `c` and the calls issued are all of their calls. In every case the attempts consumed are one wrapper run per call issued so far, the last call being the one that failed. |
| `Export.MetafieldsCsv` | mf.py:89-96 | A written file has all classes' records in request order, with the header taken from the first record. An emptied file with an index error happens only when there are no records. The calls issued number at most those of all classes, and all of them when the collection completes. The attempts consumed are exactly one wrapper run per issued call, and `issued` counts the calls actually made: the one that failed is the last. A fetch failure ends on a fatal attempt. With an all-success stream of enough attempts the collection always completes. |
| `Logging.EffectiveLevel` | mf.py:98-106 | The level is a multiple of ten between debug (10) and critical (50). It is the base level 20, raised ten per quiet flag and lowered ten per verbose flag, when that lies in range, and otherwise the nearer bound. |
| `Logging.LevelExamples` | mf.py:27 | With the base level 20, one quiet flag gives 30, three verbose flags give 10, and no flag keeps 20. |
| `Logging.LevelMonotone` | mf.py:104-105 | Only the difference of the flag counts matters. More quiet flags never lower the level, and more verbose flags never raise it. |

## Left out

- Authentication, `config.ini` and the command line (`auth`, `main`): configuration and argument parsing only.
- The Shopify API itself: listings, pages and attempt outcomes are inputs. The wrapper's blocking sleeps are recorded as durations and not slept.
- Logging output: only the running counts that `get_mf_for` logs are kept (`Progress`). Debug and error messages are not modelled, and neither is the logger's level being set.
- Resolving class names with `getattr(shopify, cls)`: each class is given as its listing. An unknown name, which raises `AttributeError`, is not modelled.
- The CSV serialisation (`writeheader`, `writerows`, quoting, the newline handling). `Written` stands for a file with the given header and rows. The `ValueError` that `csv.DictWriter` raises for a record with attribute names the header lacks is not modelled.
- Retry-After values that are negative or do not parse as a float (`float(...)` raising `ValueError`, which propagates): Retry-After is a non-negative number of seconds.
- The unbounded retry loop: the stream of attempt outcomes is finite. A run that is still retrying when the stream runs out ends as `Pending` (or `Stalled`), where the real wrapper would go on retrying.
- Python dictionary order: a record is a sequence of attribute name and value pairs, in its iteration order.
- Records collected before an exception are lost with it, as in the source, so `Failed` and `Stalled` carry no records.
- Collector.GetMfFor: a listing in which no page ever reports the end (`Ends` fails) is excluded by its precondition. In the source that walk never ends.

## Findings

| source | as written | input that shows it | evidently intended | confidence | as-written member | corrected member |
|---|---|---|---|---|---|---|
| mf.py:54 | `if objs_chunk:` decides between `next_page` and `cls.find` by the truth of the previous page. A page with no objects is an empty collection and so false, and `cls.find` fetches the first page again. | A listing whose first page is empty but reports a next page, followed by a page with one metafield: the first page is fetched on every round and the walk never ends. | Test whether a previous page was given (`objs_chunk is not None`) and fetch the page after it. | medium; not executed (it rests on the page collection being a list) | `Collector.EmptyFirstPageCounterexample` | `Collector.GetMfChunk` |
