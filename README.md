# ytdl-omega: the download supervisor and the queue store, in Dafny

This project models the two pieces of ytdl-omega that hold its logic.

- **`downloader.dfy`, module `Downloader`** models `ytdl-server.ts`. It holds the global
  table of running `youtube-dl` processes (`Table.processes`) and the record of each
  process (`Process`). Each handler that `startDownload` installs is one method: stdout,
  stderr and exit. A stderr chunk with `HTTP Error 403` or `Did not get any data blocks`
  sets a 5-second timer that relaunches the download. Such a pending timer is an entry of
  `Table.timers`, and `FireRelaunch` is the timer firing. Also modelled: `refresh`, the
  status screen of `printStatus`, and the log file name of `saveLogs`. Node runs every
  callback to completion, so each handler is one atomic method. The `messages` and
  `errorMessages` arrays are `Transcript` objects. A relaunch hands the old record's
  arrays to the new record, so the two records share them, and the model keeps that
  aliasing.
- **`store.dfy`, module `Store`** models `db.ts` over an in-memory collection
  (`Collection.rows`).
  - The two queries are pure functions: filter, then sort by `priority` and `dateQueued`,
    then limit. The server sorts before it limits, whatever order the calls are chained in.
  - The inserts append rows. The outcome update writes five fields of one row.
  - The two mark operations set `isDownloading` or `isRetrying` on the listed rows, one
    row at a time, as the `forEach` does.
- **`seqs.dfy`, module `Seqs`** holds `Option`, JavaScript's `filter` and `includes`,
  and the decimal rendering of a count.

What the model shows about the program as written:
- A relaunched record's retry flags always equal the old record's (see Findings).
- Started from the three hard-coded downloads, no record ever has a retry flag set. So
  the "already retried" branches are never taken, and every 403 or "no data blocks"
  chunk schedules one more relaunch (`Table.NeverRetried`, kept by every handler and by
  every call the program makes; `Table.StartDownload` keeps it only when both
  `shouldRetry…` arguments are true, as they are at every call site).
- Both stream handlers act only when exactly one record has the id. The exit handler
  removes exactly one record when ids are distinct and the id is in the table.
- The new-items query and the incomplete-items query never select the same row.
- Marking rows as being downloaded takes them out of the new-items query; those that are
  neither completed nor being retried then enter the incomplete-items query
  (`Store.MarkedDownloadsEnterIncomplete`). Marking rows
  as being retried takes them out of both queries. Recording an outcome never clears
  `isDownloading`, so a row recorded as failed that still carries `isDownloading`, is not
  being retried and is not completed is selected again by the incomplete-items query.

What the code does not do, and the model therefore does not do either:
- There is no concurrency cap, no filtering of progress lines and no alternation between
  fetch modes. `getCodes` is a stub that returns no codes (ytdl-server.ts:28-35), so
  `refresh` never starts a download.
- Outcomes are never written back to the store: the places where they would be are TODO
  comments (ytdl-server.ts:102, 122, 144).
- Retries are not limited to one per reason (see Findings).
- The incomplete-items query does not consult `failedDownload` (db.ts:70), so a row
  recorded as failed that still carries `isDownloading`, is not being retried and is not
  completed is selected again (`Store.FailedDownloadIsReselected`).

## Model

| member | source | states |
|---|---|---|
| `Seqs.Filter` | ytdl-server.ts:63 | `filter` keeps every element the predicate accepts, as many times as it occurs in the input, and nothing else: each kept element is accepted and comes from the input (a sub-multiset), and each input element occurs in the result exactly as often as in the input if accepted, and not at all otherwise |
| `Seqs.FilterAppend` | ytdl-server.ts:138 | filtering distributes over concatenation, so the records kept on exit stay in their original order |
| `Seqs.FilterPartition` | ytdl-server.ts:137-139 | the records with the id and the records without it add up to the whole table |
| `Seqs.Includes` | ytdl-server.ts:84 | `includes` is true iff the text occurs at some index of the chunk |
| `Seqs.DecimalString` | ytdl-server.ts:180 | the rendered count is a non-empty string of decimal digits without a leading zero |
| `Seqs.DecimalRoundTrip` | ytdl-server.ts:180 | reading the rendered count back gives the count |
| `Downloader.SpawnCommand` | ytdl-server.ts:46 | the spawned program is `youtube-dl`; its first argument is `https://www.youtube.com/watch?v=` followed by exactly the video code, and the remaining arguments are exactly the extra parameters in order |
| `Downloader.Classify` | ytdl-server.ts:84-105 | a chunk takes the 403 path iff it contains `HTTP Error 403`, and the data-blocks path iff it does not but contains `Did not get any data blocks` (403 wins when both appear) |
| `Downloader.RetryPlan` | ytdl-server.ts:84-124 | a relaunch is scheduled iff (403 and not retried after a 403) or (data blocks and not retried after a data-blocks error); the 403 relaunch adds no arguments, the data-blocks relaunch adds `-f bestvideo[ext=mp4]`; any other chunk schedules nothing |
| `Downloader.ScheduleRelaunch` | ytdl-server.ts:84-124 | the nested `if`s of the stderr handler schedule exactly the relaunch `RetryPlan` gives, from the record that received the chunk |
| `Downloader.RelaunchedFlags` | ytdl-server.ts:91-94 | the relaunch passes `!hasRetried…`, and `startDownload` stores `!shouldRetry…` (lines 53-54), so the relaunched record's flags equal the old record's |
| `Downloader.CorrectedRelaunchedFlags` | ytdl-server.ts:86-103 | definition of the corrected rule (its ensures spells the rule out; `CorrectedRetriesAtMostOncePerReason` proves what it achieves): after a relaunch, the flag of the reason just retried is set and the other flag is kept |
| `Downloader.AsWrittenRetriesNeverStop` | ytdl-server.ts:84-99 | as written, a fresh download given n 403 chunks in a row is relaunched n times |
| `Downloader.CorrectedRetriesAtMostOncePerReason` | ytdl-server.ts:86-123 | with the corrected flags, a chain of attempts in which each relaunch takes over from the attempt before it is relaunched at most once for a 403 and at most once for a data-blocks error, never for anything else. Stated for such a linear chain only: an attempt that keeps printing after its relaunch is scheduled is not covered (see Left out) |
| `Downloader.LogFileName` | ytdl-server.ts:162 | the name is `logs-`, the video code, `-`, the id and `.txt`, each part at its stated position, with length |code| + |id| + 10 |
| `Downloader.LogFileNameIsInjective` | ytdl-server.ts:162 | `logs-<videoCode>-<id>.txt` determines the code and the id when ids have a fixed length, even though video codes contain `-` |
| `Downloader.StatusLine` | ytdl-server.ts:183-189 | definition of a record's status line, characterised by its length, prefix and suffix (`AnnotationsShowFlags` and `PrintStatus` prove what it shows): a record's line is its `recentMessage` followed by exactly its annotations |
| `Downloader.AnnotationsShowFlags` | ytdl-server.ts:185-186 | about `Annotations`, the two suffixes of lines 185-186: ` (second attempt after 403)` shows iff `hasRetriedAfterA403`, and ` (second attempt after code blocks error)` shows iff `hasRetriedAfterACodeBlocksError` (the annotations decode back to the flags) |
| `Downloader.HeadlineShowsCount` | ytdl-server.ts:177-181 | about `Headline`, the line of lines 177-181: `No processes -- currently idle` shows iff the table is empty; otherwise the line starts with the count, which reads back as the number of records |
| `Downloader.DistinctIdsMatchOnce` | ytdl-server.ts:132-135 | with pairwise distinct ids, an id in the table is matched by exactly one record of `WithId`, the filter of lines 63, 78 and 132 |
| `Downloader.WithoutIdKeepsIdsDistinct` | ytdl-server.ts:138 | `WithoutId`, the filter of line 138, keeps the remaining ids pairwise distinct |
| `Downloader.ExitRemovesOne` | ytdl-server.ts:137-141 | with distinct ids and the id present, the exit filter shrinks the table by exactly one |
| `Downloader.Transcript.Push` | ytdl-server.ts:69 | `push` appends the chunk, so what a transcript held before stays a prefix |
| `Downloader.Process.constructor` | ytdl-server.ts:50-59 | the record literal stores each given value in its field |
| `Downloader.Table.constructor` | ytdl-server.ts:205-207 | loading the module starts the three hard-coded codes in order with ids `uid1`, `uid2`, `uid3`; each record shows `spawned`, was spawned with the watch URL of its code and no extra arguments, and has its own two empty transcripts, so the six transcripts of the table are distinct and none is shared between records; no record has a retry flag, no timer is pending, and ids are distinct when the three uids are |
| `Downloader.Table.StartDownload` | ytdl-server.ts:37-59 | appends exactly one new record at the end, earlier records untouched. The record has the given id, `videoCode = code`, `recentMessage = "spawned"`, the spawn command `youtube-dl https://www.youtube.com/watch?v=<code> …extraParams`, `hasRetried… = !shouldRetry…`, and the very transcripts passed in. It keeps ids distinct when the id is fresh, and keeps `NeverRetried` when both `shouldRetry…` are true |
| `Downloader.Table.StartDownloadWithDefaults` | ytdl-server.ts:37-44 | the defaults allow both retries, add no arguments and give two new, distinct, empty transcripts, so `NeverRetried` is kept |
| `Downloader.Table.Show` | ytdl-server.ts:69-70 | the chunk is appended to the transcript and becomes the record's `recentMessage`; every other record's `recentMessage` and every other transcript in the table keep their contents |
| `Downloader.Table.OnStdout` | ytdl-server.ts:62-75 | when no record or several records have the id, nothing changes. When exactly one does, the chunk is appended to that record's `messages` and becomes its `recentMessage`; no other record's `recentMessage` changes, and no other transcript changes unless it is that same shared array. The table and the timers are unchanged |
| `Downloader.Table.SetTimer` | ytdl-server.ts:90-94 | arming a timer appends the pending relaunch to the timer list; a relaunch of a record that has not retried keeps `NeverRetried` |
| `Downloader.FirstForbiddenChunkRelaunches` | ytdl-server.ts:84-99 | right after the module loads (lines 205-207), a stderr chunk containing `HTTP Error 403` on the first hard-coded download schedules a relaunch of that record with no extra arguments |
| `Downloader.Table.OnStderr` | ytdl-server.ts:77-129 | as `OnStdout` but on `errorMessages`. When one record matched, it also schedules the relaunch `RetryPlan` gives for `Classify(chunk)`. Under `NeverRetried`, every 403 or data-blocks chunk on a matched record schedules a relaunch, and `NeverRetried` is kept |
| `Downloader.Table.FireRelaunch` | ytdl-server.ts:90-99 | the timer runs `startDownload` with the captured record's code, `!` of its flags, the extra arguments, and the same transcript objects. The new record's flags equal the old record's, its transcripts start as the old record's, and the timer is removed (lines 110-119 are the same with the data-blocks arguments) |
| `Downloader.Table.OnExit` | ytdl-server.ts:131-149 | the table becomes the old table without the records with that id, in order. Logs are saved to `logs-<videoCode>-<id>.txt` iff exactly one record matched. Distinct ids stay distinct, and with distinct ids and the id present the table shrinks by exactly one |
| `Downloader.GetCodes` | ytdl-server.ts:28-35 | the stub returns no codes, so it never returns more codes than asked for |
| `Downloader.Table.Refresh` | ytdl-server.ts:192-198 | asks the `getCodes` stub (lines 28-35) for `3 - length` codes iff fewer than 3 records run; the codes are discarded and nothing changes |
| `Downloader.Table.PrintStatus` | ytdl-server.ts:170-190 | the screen is the banner, then the idle line or the count, then one `StatusLine` per record in table order |
| `Store.FromEntry` | db.ts:90 | an inserted entry becomes a row with the given `_id`, every field of the entry, and neither `isDownloading` nor `isRetrying` set |
| `Store.Matches` | db.ts:47-70 | both filters require `completedDownload` and `isRetrying` not true; `isDownloading` true selects the incomplete-items query and not true the new-items query, which also requires `failedDownload` not true |
| `Store.InsertByKey` | db.ts:49 | inserting into a sequence sorted by (`priority`, `dateQueued`) keeps it sorted and adds exactly the one row |
| `Store.SortByKey` | db.ts:49 | the result is sorted by `KeyLe`, the sort document of db.ts:49 (`priority` ascending, then `dateQueued` ascending), and is a permutation of the input |
| `Store.LimitCount` | db.ts:48 | definition of MongoDB's limit, used by `Find`'s length clause: `limit(n)` lets through min(abs(n), available) rows, and all of them when n is 0 |
| `Store.SortedPrefixIsSmallest` | db.ts:48-49 | the first k rows of a sorted sequence come no later in key order than any row left over |
| `Store.Find` | db.ts:45-49 | every returned row matches the filter and comes from the collection. The result is sorted, its length is the limit applied to the number of matching rows, and every matching row left out comes no earlier in key order than every returned row (the first rows in that order; ties unspecified). All matches come back when they fit |
| `Store.GetVideoCodes` | db.ts:38-59 | returns only rows whose `completedDownload`, `failedDownload`, `isDownloading` and `isRetrying` are each absent or not true |
| `Store.GetVideoIncompleteCodes` | db.ts:61-82 | returns only rows with `isDownloading` true and `completedDownload` and `isRetrying` absent or not true; `failedDownload` is not consulted |
| `Store.QueriesAreDisjoint` | db.ts:47-70 | no row is returned by both queries |
| `Store.FailedDownloadIsReselected` | db.ts:70 | a row marked failed that still has `isDownloading` (and is neither completed nor retrying) is returned by the incomplete-items query |
| `Store.SetFlag` | db.ts:149-151 | marking keeps the number of rows; a listed row gets the flag set to true with every other field kept, including the other flag; an unlisted row is unchanged |
| `Store.SetFlagTwice` | db.ts:148-156 | marking one set of ids and then another is marking their union |
| `Store.FlagIsSet` | db.ts:149-151 | after marking, every listed row carries the flag |
| `Store.MarkedDownloadsLeaveNewItems` | db.ts:148-156 | after rows are marked as downloading, the new-items query never returns them |
| `Store.MarkedDownloadsEnterIncomplete` | db.ts:148-156 | a row marked as downloading that is neither completed nor being retried is returned by the unlimited incomplete-items query (db.ts:70) |
| `Store.MarkedRetriesLeaveBothQueries` | db.ts:172-180 | after rows are marked as retrying, neither query returns them |
| `Store.ApplyUpdate` | db.ts:124-130 | `updateOne({ _id: id }, …)` keeps the number of rows and every row's `_id`, and leaves every row with another `_id` as it was |
| `Store.UpdateWritesOnlyOutcome` | db.ts:124-130 | the update sets exactly `errorMessageLogs`, `messageLogs`, `dateCompleted`, `completedDownload` and `failedDownload` on the row with the `_id`. It leaves that row's `_id`, `videoCode`, `priority`, `dateQueued`, `isDownloading` and `isRetrying`, and every other row, as they were |
| `Store.FailedOutcomeStaysIncomplete` | db.ts:124-130 | the update never clears `isDownloading`, so a downloading, non-retrying row recorded as not completed stays in the incomplete-items query |
| `Store.OutcomeIsRecorded` | db.ts:124-130 | every row of the updated collection carrying the addressed `_id` carries the recorded `completedDownload` |
| `Store.CompletedOutcomeLeavesBothQueries` | db.ts:124-130 | a row recorded as completed is returned by neither query |
| `Store.Collection.AddVideoEntry` | db.ts:84-99 | `insertOne` appends one row with the entry's fields, a fresh `_id` and no progress flags; existing rows unchanged, `_id`s stay unique |
| `Store.Collection.AddVideoEntries` | db.ts:101-116 | `insertMany` appends one row per entry, in order, each with a fresh `_id`; existing rows unchanged |
| `Store.Collection.UpdateVideoEntry` | db.ts:118-139 | the collection becomes `ApplyUpdate` of the old one for that `_id` |
| `Store.Collection.SetFlagOnRow` | db.ts:149-151 | one `updateOne` sets the flag on the row with that `_id` only |
| `Store.Collection.MarkEach` | db.ts:148-156 | the loop sets the flag on exactly the rows whose `_id` is listed, and nothing else changes |
| `Store.Collection.MarkItemsAsBeingDownloaded` | db.ts:141-163 | sets `isDownloading` on exactly the listed rows; afterwards the new-items query returns none of them |
| `Store.Collection.MarkItemsAsBeingRetried` | db.ts:165-187 | sets `isRetrying` on exactly the listed rows; afterwards neither query returns any of them |

## Left out

- Spawning `youtube-dl`, the stream and event wiring, and the `close` handler are left out. Each `data` or `exit` event is a call of the matching `Table` method with the process id the closure captured.
- Chunks are not split into lines. A `Buffer` chunk is taken as its string, also where the source assigns the `Buffer` itself to `recentMessage`.
- `uid()` becomes a parameter. Nothing forces it to be fresh, so every distinctness result is stated under "the id is fresh".
- The 5-second `setTimeout` becomes a pending entry of `Table.timers`. Timers may fire in any order, at any later point. The 500 ms `setInterval` that calls `refresh` and `printStatus` is left out; the two methods stand alone.
- `saveLogs` keeps only the file name. Writing the file and its `JSON.stringify` body are file I/O.
- `console.clear` and `console.error` are left out. `printStatus` returns its lines instead of writing them.
- The `try`/`catch` around `spawn` is left out, because a synchronous spawn failure is a runtime error of Node.
- Connecting and closing `MongoClient`, the promises, and `resolve(true)` firing before the write completes are left out. Each store operation completes atomically.
- A store failure (a rejected promise) is not modelled.
- MongoDB's `ObjectId` generation becomes the counter `Collection.nextId`.
- `priority` (a JavaScript number) is an integer. Dates are integer timestamps.
- A field `$set` to `undefined` becomes `None`, since the driver stores it as null and `$ne: true` treats null as absent.
- `limit(0)` means no limit. A negative limit counts as its absolute value, as in MongoDB's single-batch form.
- MongoDB leaves the order of rows with equal keys unspecified. `SortByKey` fixes one order, and no contract depends on it.
- Downloader.CorrectedRetriesAtMostOncePerReason: proved only for a linear chain of attempts, where an attempt prints no further chunk once its relaunch is scheduled. In the program the old process keeps running until it exits, and the correction changes only the relaunched record's flags. So an attempt that prints two 403 chunks before exiting still arms two relaunches from the same record. A correction covering that case would also have to mark the record that received the chunk; `Process`'s retry fields are immutable in the model, as they are never reassigned in the source.
- `logRequest.ts` is not part of this model: it is telemetry (a `curl` subprocess and a store insert).
- `server.ts` is not part of this model: it is HTTP routing over `getVideoIncompleteCodesFromDB` and a validation library.
- `addEntries.ts` is not part of this model: it is a seeding script that calls `addVideoEntriesToDB` once.
- Not modelled because the code does not have them: a concurrency cap, filtering of progress lines, writing outcomes back to the store (TODO comments at ytdl-server.ts:102, 122, 144), alternation between fetch modes, and a working `getCodes`.

## Findings

| source | as written | input that shows it | evidently intended | confidence | as-written member | corrected member |
|---|---|---|---|---|---|---|
| ytdl-server.ts:91-94 | the relaunch passes `!hasRetriedAfterA403` as `shouldRetryAfterA403`, and `startDownload` stores `!shouldRetryAfterA403`, so the relaunched record keeps `hasRetriedAfterA403 = false` (the same for the data-blocks flag, lines 111-114) | `startDownload("abc")`, a stderr chunk `ERROR: unable to download video data: HTTP Error 403: Forbidden`, the timer fires, and the new process prints the same chunk: a second relaunch is scheduled, and so on for every further 403. The "(second attempt after 403)" annotation never shows | the comments ("the first time you've gotten it", "tried twice and got 403 both times") say a download is retried once per reason, so the relaunch should mark the reason it retried | high (not executed) | `Downloader.AsWrittenRetriesNeverStop` | `Downloader.CorrectedRetriesAtMostOncePerReason` |

The corrected flag update is `Downloader.CorrectedRelaunchedFlags`. `Table.FireRelaunch`
keeps the flag update as written (`Downloader.RelaunchedFlags`), because the table
describes what the program does. The corrected guarantee is proved for a linear chain of
attempts; see the `Downloader.CorrectedRetriesAtMostOncePerReason` line under Left out.
