# Bulk message dispatcher

A Dafny model of the job dispatcher of a bulk messaging server
(`Backend/index.js`). The server:

- accepts a batch of send items over `/send-bulk` and stores it as a queued job;
- attaches uploaded files to the items;
- runs queued jobs one sweep at a time under a busy flag (`processing`).

Within a sweep, the dispatcher walks each job's items in order. For each item it:

1. normalises the phone number to its digits;
2. checks that the messaging client is ready;
3. personalises a PDF attachment when there is one;
4. sends through a retrying channel wrapper (`sendMediaTo`);
5. records a per-item result and emits progress events;
6. waits a random delay.

The modules follow the program's structure:

- `Utilities` (`utilities.dfy`): `randDelay`, `toChatId` and phone normalisation, as pure functions with lemmas.
- `Channel` (`channel.dfy`): the routing of a content reference to a client call, and the retry loop of `sendMediaTo`. The loop is a method proved against a recursive specification function.
- `Items` (`items.dfy`): one pass of the item loop body (`ProcessItem`), with its per-item properties. The item loop as a function of the items is `RunItems`.
- `Jobs` (`jobs.dfy`): jobs and, as pure functions, what one sweep does to the job store:
  - the snapshot of queued ids;
  - one job's run from queued through running to finished;
  - the fold over the snapshot, which an exception ends.
- `Submission` (`submission.dfy`): the request side of `/send-bulk`:
  - where the item list comes from;
  - the upload file map and the in-place attachment loop over an array of items;
  - which requests are rejected.
- `Dispatch` (`dispatcher.dfy`): the module-level server state as a class `Dispatcher`. It holds the `jobs` map, the insertion order of its keys, and the `processing` flag. Ghost fields hold the `io.emit` event log and the snapshots written by `saveJobs`. Its methods are `ProcessJobs` with its item loop, and `SendBulk`.
  - Each method's `ensures` ties the new state to the pure sweep and request functions above. The lemmas about those functions state what the source promises.

The outside world is an `Env` value of oracles, indexed by job id and item number (or save phase). The oracles say:

- whether the client is ready;
- what the PDF personaliser returns (or that it threw);
- how each send attempt ends;
- the random draw of each delay;
- whether the polling timer fires during an item's delay;
- whether a save of the jobs file succeeds;
- the clock.

JavaScript's falsy values are modelled as follows. An item's fields are strings, and `""` stands for a missing, `null` or empty value. A content reference is `Absent`, `Str`, `Resolved` (a `MessageMedia`) or `Other`.

Some behaviours of the code worth knowing:

- A save of the jobs file that throws ends the sweep; the jobs before it are finished (`FailedStartSaveAfterFinishedJobs`). If it happens at a job's start, that job stays `running` for good, and no later sweep picks it up again. After a failed save, a later sweep can therefore run another job while the stranded one is still `running` (`StrandedJobStaysRunning`, `FailedStartSaveStrandsJob`). If it happens at a job's finish, the job stays `finished` in memory only.
- The "client not ready" check sits outside the retry loop. It fails the item at once, without consuming an attempt (`NotReadyConsumesNoAttempt`).
- `error` and `failed` results carry no `index`. An `error` result keeps the raw, un-normalised phone.
- `processJobs` always passes the caption `''` to `sendMediaTo`. A text-only item therefore sends `' '`, not its message.
- `toChatId` always prefixes the country code `91`. A phone already written as `91…` gets it twice.

## Model

| member | source | states |
|---|---|---|
| Utilities.RandDelay | Backend/index.js:102-104 | the delay lies in [MIN, MAX] when MIN <= MAX, is MIN when they are equal, and lies in (MAX, MIN] when the bounds are reversed |
| Utilities.ChatIdRoundTrip | Backend/index.js:105-107 | the phone can be read back from the chat id `91<phone>@c.us` |
| Utilities.ChatIdInjective | Backend/index.js:105-107 | distinct phones give distinct chat ids |
| Utilities.DigitsOnlyDigits | Backend/index.js:160 | the normalised phone holds only digits and is no longer than the input |
| Utilities.DigitsEmptyIff | Backend/index.js:160 | the normalised phone is empty exactly when the input has no digit |
| Utilities.DigitsOfDigits | Backend/index.js:160 | a string of digits is its own normalisation |
| Utilities.DigitsIdempotent | Backend/index.js:160 | normalising twice is normalising once |
| Utilities.DigitsAppend | Backend/index.js:160 | normalisation distributes over concatenation: no digit is lost, reordered or invented |
| Channel.RouteCases | Backend/index.js:119-133 | a missing, falsy or foreign reference sends the caption as text, or `' '` for an empty caption, so the text is never empty; an `http…` string is fetched; any other string is a local path; a MessageMedia is sent as is; media keep the caption |
| Channel.SendFromCharacterized | Backend/index.js:117-140 | from a given attempt on, the loop stops at the first acknowledged attempt and gives up only after attempt RETRIES failed |
| Channel.SendSpecCharacterized | Backend/index.js:115-141 | at most RETRIES + 1 attempts; every attempt before the last one made failed; success returns the routed payload; the error is rethrown only after exactly RETRIES + 1 failures, and it is the last one's |
| Channel.SendSucceedsIff | Backend/index.js:115-141 | the send succeeds exactly when some attempt among the RETRIES + 1 is acknowledged, the last one included |
| Channel.SendMediaTo | Backend/index.js:115-141 | the attempt loop with `lastErr` yields what the retry specification yields |
| Items.ProcessItemOutcome | Backend/index.js:159-203 | an item yields an error result exactly when its phone has no digit, with the raw phone and no delay; otherwise its result names the normalised phone and one delay within [MIN, MAX] follows; a sent result carries the item's index; the item event reports the result's status |
| Items.InvalidPhoneSkipsItem | Backend/index.js:160-168 | a phone without digits gives an `Invalid phone` error result and one error event, whatever the client, sender and random source do |
| Items.NotReadyConsumesNoAttempt | Backend/index.js:170-172 | a client that is not ready fails the item with `WA client not ready`, and the send oracle is never consulted |
| Items.ReadyItemOutcome | Backend/index.js:170-198 | with a ready client, the item is sent exactly when one of the RETRIES + 1 attempts is acknowledged; otherwise every attempt failed and the result carries the last error |
| Items.DispatchItem | Backend/index.js:159-203 | the loop body computes the item's result and events as the item specification does |
| Items.ItemRunner | Backend/index.js:158-204 | the item loop yields exactly one result per item |
| Items.ResultsForAt | Backend/index.js:158-204 | result number k is the result of item number k: results are appended in item order |
| Items.SentIndexIsPosition | Backend/index.js:193 | a sent result sits at the position of its item and carries that position as its index, which is below the item count |
| Items.StepDelays | Backend/index.js:164-168 | one delay event follows an item whose phone has a digit, and none follows one that has none |
| Items.DelaysMatchDispatchedItems | Backend/index.js:158-204 | a job's item loop emits as many delay events as it has items with a valid phone |
| Jobs.QueuedIds | Backend/index.js:149 | the snapshot holds exactly the ids of queued jobs, and no more ids than there are keys (its order: QueuedIdsInOrder) |
| Jobs.QueuedIdsInOrder | Backend/index.js:149-150 | the snapshot keeps key order: of two ids in it, the one taken first was inserted first |
| Jobs.QueuedIdsNoDup | Backend/index.js:149 | the snapshot holds each queued job once |
| Jobs.NewJobQueuesLast | Backend/index.js:149 | a job stored under a new key is taken after every job already queued |
| Jobs.RunJobFrame | Backend/index.js:150-210 | a job's run keeps every job id, changes no other job, and only appends to the events and the saved snapshots |
| Jobs.SweepFrame | Backend/index.js:149-210 | a sweep keeps every job id and leaves every job outside the part of the snapshot it has reached unchanged |
| Jobs.AbortIsFinal | Backend/index.js:211-215 | once an exception has ended the sweep, no later job of the snapshot is touched |
| Jobs.SweepNotAborted | Backend/index.js:150-210 | without a failed save, no job ends the sweep early |
| Jobs.SweepCompletes | Backend/index.js:150-210 | without a failed save, every job of the snapshot goes from queued to finished, with its item loop's results, its start and finish times, and its items unchanged, and stays so for the rest of the sweep |
| Jobs.RunJobCompletes | Backend/index.js:151-209 | a queued job whose two saves succeed ends finished with one result per item run, stamped at start and finish |
| Jobs.SweepPrefixTake | Backend/index.js:150-210 | the first k steps of a sweep depend only on the first k ids of the snapshot |
| Jobs.EarlierJobsFinished | Backend/index.js:150-210 | whatever happens later in the sweep, each of the first k jobs whose saves succeeded has gone from queued to finished with its item loop's results once the sweep has passed it |
| Jobs.FailedStartSaveAfterFinishedJobs | Backend/index.js:150-212 | when the start save of job number k throws, that job stays running and every earlier job of the snapshot is finished with its item loop's results |
| Jobs.StrandedJobStaysRunning | Backend/index.js:149 | a job left running by an earlier sweep is never picked up again |
| Jobs.FailedStartSaveStrandsJob | Backend/index.js:150-212 | when saving the start of any job of the snapshot throws, the sweep ends with that job running; its start is neither emitted nor saved, the later jobs are not touched, and every other job is as the earlier jobs left it |
| Jobs.RunJobKeepsValid | Backend/index.js:151-209 | running a queued job keeps the job invariant of the store: results never outnumber items, a queued job has none, and a finished job has one per item |
| Jobs.SweepKeepsValid | Backend/index.js:149-210 | a sweep over distinct queued ids keeps the job invariant of the store, whether or not a save throws |
| Jobs.SnapshotSweepKeepsValid | Backend/index.js:149-210 | the sweep over the queued snapshot keeps the job invariant after each job |
| Jobs.CleanSweep | Backend/index.js:149-210 | over a store with no running job and saves that succeed, a sweep finishes every queued job with results.length == items.length, touches no other job, keeps every key, and leaves no job running |
| Submission.FileMapLastWins | Backend/index.js:227-230 | a name is in the file map exactly when some upload has it, and it maps to the stored path of the last upload with that name |
| Submission.BuildFileMap | Backend/index.js:227-230 | the first upload loop builds that file map |
| Submission.AttachCases | Backend/index.js:231-235 | attaching changes only mediaPath; a fileIndex naming an upload decides it, whatever the fileName; otherwise a known fileName decides it; otherwise the item is kept |
| Submission.AttachFiles | Backend/index.js:226-236 | the second loop updates every item of the array in place, as attaching one item says |
| Submission.NoFilesNoChange | Backend/index.js:226 | without uploads, the items are stored as submitted |
| Submission.ValidateRequest | Backend/index.js:222-241 | the request part of the handler yields the items of the new job, or the response that rejects the request, as the request check says |
| Submission.CheckRequestOutcome | Backend/index.js:222-241 | a request is accepted exactly when it carries a non-empty item list, whose items are kept one for one with only mediaPath changed; a missing multipart field is a 400 of its own; an unparsable field, or a non-iterable value with uploads, is a 500; every other rejection is a 400 `No items to send` |
| Submission.AcceptedFor | Backend/index.js:257 | the 200 response names the new job's id |
| Dispatch.NewJob | Backend/index.js:243-251 | a new job is queued, under its id, with the submitted items and no results, and satisfies the job invariant |
| Dispatch.Dispatcher.constructor | Backend/index.js:144 | the server starts with no job and not processing |
| Dispatch.Dispatcher.ProcessJobs | Backend/index.js:144-216 | a call made while processing changes nothing; otherwise the flag is cleared again at the end, the key order and the job invariant of every job are kept, and jobs, events and saves are what the sweep over the queued snapshot yields |
| Dispatch.Dispatcher.RunOneJob | Backend/index.js:150-210 | one iteration of the job loop changes the state as one job's run specifies, and says whether an exception ended the sweep |
| Dispatch.Dispatcher.RunItemLoop | Backend/index.js:158-204 | the item loop pushes the item loop's results onto the job's results, emits its events, and saves nothing |
| Dispatch.Dispatcher.RunItem | Backend/index.js:159-203 | one pass of the item loop body yields the item's step as the item specification gives it, pushes its result onto the job's results and emits its events; a timer firing during the delay changes nothing |
| Dispatch.Dispatcher.Record | Backend/index.js:193-198 | one item's result is pushed onto its job's results and its events are emitted; nothing else changes |
| Dispatch.Dispatcher.TimerTick | Backend/index.js:217 | the polling timer firing during a sweep changes nothing |
| Dispatch.Dispatcher.SendBulk | Backend/index.js:220-262 | a rejected request gets its 400 or 500 and changes nothing; every job keeps the job invariant; otherwise exactly one queued job with no results is stored under the fresh id, appended to the key order, and every other job is left as it was; a successful save answers 200 and emits one queued event; a failed save answers 500 and keeps the job in memory |

## Left out

- The Express routes, authentication middleware, multer disk storage, CORS, body parsing, and the `GET` routes. `/send-bulk` is modelled from the request it receives after upload.
- The socket.io server and its `sync` subscription. `io.emit` is an append to a ghost event log.
- The WhatsApp client, its QR handling and initialisation. It is reduced to the readiness and send-outcome oracles of `Env`.
- `mediaFromUrl` and the HTTP fetch. A failing fetch is one failed attempt in the send oracle.
- Timers, `Math.random` and `Date`. Random draws, timestamps and timer firings come from `Env`. The backoff wait between attempts and the wait after each item are not modelled, because they change no state.
- `loadJobs` and the JSON file written by `saveJobs`. The server starts with an empty store, and a save is recorded as a snapshot of the jobs map.
- `Backend/editPDF.js` is not part of this model. The personaliser is an oracle that returns a path or throws.
- `personalizedPath` is computed but never used. It has no counterpart.
- Submissions that arrive while a sweep is suspended at any await are not interleaved with the sweep. The sweep awaits at each send attempt, each backoff wait, the PDF personalisation and each item's delay. Only the polling timer re-entering `processJobs` during an item's delay is modelled.
- An item's `phone` is a string. An error result stores the raw `it.phone`, so a missing, `null` or numeric phone would be stored as that value; the model stores the string it was given.
- `mediaPath` and `mediaUrl` are strings. A non-string value from a JSON body would make `mediaRef.endsWith` throw, and the item would fail without any send attempt; the model cannot express that case.
- Utilities.RandDelay: MIN_DELAY_MS and MAX_DELAY_MS are integers. A non-numeric setting (NaN) is not modelled.
- Channel.SendMediaTo: RETRIES is a natural number. With a negative or NaN RETRIES the loop makes no attempt and throws `null`, which is not modelled.
- Two inputs end a sweep early besides a failed save, and the model cannot express either. In both cases the sweep stops and the current job stays `running` for good with partial results, as after a failed start save.
  - A `null` item passes `/send-bulk` validation. Reading `it.phone` then throws outside the per-item `try`.
  - With a negative or NaN RETRIES, `sendMediaTo` throws `null`. The per-item `catch` then reads `err.message` on it and throws again, so every dispatched item ends the sweep.
- The request model does not capture these JavaScript cases:
  - items that are not objects;
  - a `fileIndex` given as a string;
  - file names that collide with `Object.prototype` keys;
  - a non-string `jobName`;
  - path normalisation by `path.join` and `path.resolve`.
- Dispatch.Dispatcher.SendBulk: the fresh id is a parameter. A uuid that collides with an existing key replaces that job (the key order is kept), as the code would.
