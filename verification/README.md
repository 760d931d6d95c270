# trainml job orchestration — a Dafny model

This project models the decision logic of the trainML Python SDK's job
module (`trainml/jobs.py`). The SDK is a client for a remote GPU-job
service, so most of that file is I/O. Under the I/O sit four pure rule sets,
and the model states and proves properties of each:

1. **Dataset reference resolution** (`_clean_datasets_selection`). A list of
   loosely shaped specs (`{id}`, `{dataset_uuid}`, `{name, type}`) becomes
   canonical `{dataset_uuid, type}` entries. Names are looked up in the
   caller's or the public catalog, scoped to the selected GPU type's provider.
2. **Creation request building** (`Jobs.create`, `Job.copy`).
   - GPU type selection: the first catalog entry matching by name or id.
   - The payload filter.
   - Every resolution error is raised before the single POST.
   - The `copy` guard and the defaults `copy` fills in.
3. **The `wait_for` state machine.** A recursive function over the results of
   successive refreshes (`observe(k)` is what the k-th refresh returned). It
   has the legal target set, the `stopped`-means-`finished` alias for training
   jobs, the retry budget `ceil(timeout / 5)`, the 404-while-archiving success
   and the abort on `failed`. An imperative copy of the source's `while` loop
   is proved to compute the same result.
4. **Log stream handling** (`_get_msg_handler`).
   - Each worker gets its 1-based position.
   - Only `subscription` messages are processed.
   - The `Worker N - ` prefix appears only when the job has several workers.

`get_connection_details` is modelled as well.

Python values are the datatype `Values.Value`: decoded JSON without
floating-point numbers, plus `None`, with Python truthiness. Dict keys follow
Python's hashing: lists and dicts cannot be keys, and `True`/`False` are the
same key as `1`/`0`. Dicts are `map<string, Value>`. An exception is a
`Failure` of `Errors.Error`:
- a `SpecificationError` names its field and which message it carries;
- `Malformed` stands for the `TypeError`/`AttributeError` Python raises on
  `.get` of `None` and similar shape errors.

Each module follows one part of the source:
- `Values`, `Errors` and `Wrappers` are shared foundations.
- `JobRecord` is the `Job` object.
- `DatasetSelection`, `JobCreation`, `Waiter` and `Telemetry` each cover one
  of the rule sets above.

Warnings are not emitted: the deprecation conditions are returned as
booleans (`Creation.deprecated`, `Waited.warned`).

Behaviour of the code that the model keeps, though a reader might expect otherwise:
- A wait that is already at its target returns `None` (`ImmediateOk`). A wait
  that reaches the target by polling returns the job (`Ok(job)`).
- Deprecated job types are not remapped. `create` sends the type as given,
  and `wait_for` tests both spellings of the training type directly.
- Dataset names are first-match, not unique-match: duplicates are not
  rejected and the earliest entry wins.
- Worker numbering is a dict comprehension, so when two workers share a uuid
  the later position wins. `WorkerNumbers` states this, and
  `DistinctWorkersNumberedByPosition` gives the position rule for distinct
  uuids.
- The worker prefix is left out whenever the job has at most one worker,
  so a job with zero workers gets no prefix either. The count is read from
  the job as it stands when each message arrives, while the uuid numbering
  is fixed when the handler is made.
- An empty string or dict in place of the `datasets` list, or of `workers`,
  is iterated zero times and accepted.
- `wait_for` refreshes the caller's job in place. After a timeout, a
  re-raised error or a 404 while archiving, the job keeps the snapshot of
  the last successful refresh.
- `create` reads only `source_job_uuid` from its extra keyword arguments.
  Any other extra keyword (such as `workers` or `endpoint`) is not sent,
  because the payload has no field for it.

## Model

| member | source | states |
|---|---|---|
| Values.FirstWhere | trainml/jobs.py:130-133 | `next(...)` over a generator: the position returned is a match and no earlier element matches; None means nothing matches |
| Values.KeyOfIsPythonEquality | trainml/jobs.py:273-281 | two hashable values find the same dict entry exactly when Python's `==` holds between them (`True` and `1` included) |
| JobRecord.Refresh | trainml/jobs.py:183-191 | after a refresh every key reads as in the new response (name, provider, status, type, workers and `id` included); keys only the old snapshot had are gone, and the id falls back to `job_uuid` only when `id` is absent |
| JobRecord.RefreshForgetsOldSnapshot | trainml/jobs.py:182-191 | the refreshed job is independent of the job it replaced (no partial merge) |
| JobRecord.AliasChecksMatchCanonicalType | trainml/jobs.py:114-115 | the written-out checks for `headless`/`training` and `interactive`/`notebook` agree with de-aliasing to the canonical type |
| JobRecord.GetConnectionDetails | trainml/jobs.py:236-248 | `ssh_port` is the client's port only when the VPN has a truthy client; `output_path` is the output URI only when `output_type` is `local`; `input_path` is always None; it fails exactly when `vpn`/`data` are not dicts or a truthy client is not one |
| DatasetSelection.Lookup | trainml/jobs.py:33-41 | the dataset found is the first catalog entry whose name and provider both equal the requested ones; none is found exactly when no entry matches |
| DatasetSelection.ResolveEntry | trainml/jobs.py:21-81 | `{id}` becomes `{dataset_uuid: id, type}`; `{dataset_uuid}` passes through unchanged; a `{name}` of type existing/public resolves to the first match in the caller's/public catalog, and no match raises `datasets` not-found; any other type, or no key at all, raises on `datasets` |
| DatasetSelection.CleanDatasets | trainml/jobs.py:17-82 | on success the output has the input's length and order, entry by entry the resolution of the input; on failure the error is that of the first entry that fails, all earlier ones having resolved |
| DatasetSelection.CleanSucceedsIffEveryEntryResolves | trainml/jobs.py:20-30 | resolution of the list succeeds exactly when every entry resolves |
| DatasetSelection.PublicNameScenario | trainml/jobs.py:52-71 | `{name: CIFAR-10, type: public}` against a public catalog holding one CIFAR-10 for the provider yields that dataset's id with type public |
| JobCreation.SelectGpuType | trainml/jobs.py:130-135 | the selected GPU type is the first entry whose name or id equals the request; none matching raises on `gpu_type` |
| JobCreation.SelectsFirstGpu | trainml/jobs.py:130-133 | whenever some entry is the first match for the request, that entry is the GPU type selected |
| JobCreation.ResolveData | trainml/jobs.py:137-144 | falsy `data` is left alone; a `datasets` list is replaced by its resolution, or its first error is raised; an empty string or dict becomes `[]`; any other non-list `datasets`, or a truthy non-dict `data`, raises; the result is truthy exactly when the given data was |
| JobCreation.BuildPayload | trainml/jobs.py:146-170 | `resources` is always sent with the selected GPU type's id; a field is sent iff it is truthy, or it is `worker_commands`/`model` and `source_job_uuid` is falsy; sent values are unaltered |
| JobCreation.Create | trainml/jobs.py:98-173 | deprecation flag iff the type is `headless`/`interactive`; no matching GPU type gives the `gpu_type` error; any failure happens before the POST body exists; a successful body carries the first matching GPU's resources and obeys the keep-if-truthy rule for every argument |
| JobCreation.CreateSendsResolvedDatasets | trainml/jobs.py:137-150 | with a GPU type found, a dataset that does not resolve stops `create` with its error; otherwise the body's `data.datasets` is the list resolved against that GPU type's provider |
| JobCreation.DefaultsOfFreshCreate | trainml/jobs.py:98-112 | with only the required arguments, the empty `worker_commands` and `model` are still sent, `worker_count` is 1, the empty dataset list is kept and no `source_job_uuid` is sent |
| JobCreation.Inherit | trainml/jobs.py:313-319 | an override is used when truthy; otherwise the source job's resource value, which raises only if the job has no `resources` dict |
| JobCreation.CopyArgs | trainml/jobs.py:304-326 | a job whose type is not notebook/interactive is refused on `job`; otherwise name and `source_job_uuid = self.id` are passed, each of type/gpu_type/gpu_count/disk_size is the override if truthy else the source's value, the other options come from the overrides and `model` keeps its default |
| JobCreation.Copy | trainml/jobs.py:304-327 | a job whose type is not notebook/interactive is refused on `job` before `create` is reached; a notebook job with a `resources` dict is always handed to `create`; the only other failure is a shape error |
| JobCreation.CopySendsOnlyGivenFields | trainml/jobs.py:304-326 | a copy of a job with a truthy id sends no `model`, sends `worker_commands`/`worker_count` exactly when they were given truthy, and sends `source_job_uuid` equal to the source job's id |
| JobCreation.SentFieldsOfCopy | trainml/jobs.py:160-170 | for the arguments `copy` builds, the keep-if-truthy filter with `source_job_uuid` set drops the default `model`, keeps `worker_commands`/`worker_count` only when the overrides give them, and keeps the source id |
| Waiter.RetryCount | trainml/jobs.py:350-351 | the budget is the ceiling of timeout/5: enough polls to cover the timeout and not one more |
| Waiter.PollLoop | trainml/jobs.py:352-373 | the loop stops at the first poll result that is not pending and concludes from it; it times out only after every poll in the budget was pending, never exceeding the budget; the job it leaves is the replay of the refreshes performed |
| Waiter.WaitFor | trainml/jobs.py:330-373 | an invalid target raises on `status` with no poll and no warning; the warning fires iff a training job waits for `stopped`; immediate success iff already reached, with no refresh; at most ceil(timeout/5) refreshes; Ok only for a reached refreshed job; JobFailed on `failed`; ArchivedGone only on a 404 while awaiting `archived`; any other ApiError re-raised unchanged; timeout names the target; the caller's job afterwards is the replay of the refreshes performed |
| Waiter.RunWaitFor | trainml/jobs.py:350-373 | the source's `while` loop, refreshing the job in place, computes exactly `WaitFor` |
| Waiter.TimeoutIffEveryPollPending | trainml/jobs.py:352-373 | a wait that is not immediately done times out exactly when every poll in the budget is pending |
| Waiter.PollLoopReadsOnlyBudget | trainml/jobs.py:353-370 | the loop does not depend on any poll result past its budget |
| Waiter.ReplayEndsAtLastRefresh | trainml/jobs.py:267-270 | when the last poll was a successful refresh, the job holds exactly that refresh's snapshot |
| Waiter.TimeoutLeavesLastSnapshot | trainml/jobs.py:352-373 | after a timeout the caller's job holds the last refresh's snapshot, or is untouched when no poll was allowed |
| Waiter.WaitForReadsOnlyBudget | trainml/jobs.py:351-353 | at most `ceil(timeout/5)` refreshes: results beyond them cannot change the outcome |
| Waiter.ThirtySecondsIsSixPolls | trainml/jobs.py:350-373 | with timeout 30 a job stuck in `new` is refreshed six times, then the wait times out naming the target |
| Waiter.FailedAbortsAnyTarget | trainml/jobs.py:367-368 | a refresh reporting `failed` aborts the wait with the failed job, whatever the legal target |
| Waiter.NotFoundWhileArchiving | trainml/jobs.py:355-360 | awaiting `archived`, a 404 ends the wait with nothing returned; another status code is re-raised unchanged |
| Waiter.StoppedTrainingJobIsFinished | trainml/jobs.py:337-349 | a training job reported `stopped` satisfies `finished` and `stopped` at once without polling; only the `stopped` target warns |
| Telemetry.WorkerUuids | trainml/jobs.py:273-276 | the uuid list has one entry per worker, in order; it fails iff some worker is not a dict |
| Telemetry.WorkerKeys | trainml/jobs.py:273-276 | the keys are the uuids under Python's key equality, in order; it raises iff some uuid is a list or dict |
| Telemetry.WorkerNumbers | trainml/jobs.py:273-276 | the numbering covers exactly the listed keys; each maps to a 1-based position holding it, and no later position holds it |
| Telemetry.DistinctWorkersNumberedByPosition | trainml/jobs.py:273-276 | with distinct uuids the worker at index i gets number i+1 |
| Telemetry.NumbersOfWorkers | trainml/jobs.py:273-276 | numbering the workers' keys maps exactly the keys present, each to the last position of a worker with that key |
| Telemetry.MsgHandler | trainml/jobs.py:272-276 | the handler is made iff `workers` is a list of dicts with hashable uuids, or an empty string or dict; the numbering then maps each worker's key to its last position, and is empty for the empty string or dict |
| Telemetry.LiveWorkerCount | trainml/jobs.py:288 | `len` of the live job's `workers`: the number of items of a list, the number of characters of a string and the number of keys of a dict; anything else raises |
| Telemetry.RStrip | trainml/jobs.py:290-294 | the stripped text is the longest prefix that does not end in ASCII whitespace, the separators U+001C to U+001F included |
| Telemetry.Decimal | trainml/jobs.py:290 | the digits an f-string writes for a worker number denote that number, with no leading zero |
| Telemetry.LineOf | trainml/jobs.py:288-295 | the `Worker N - ` prefix is present iff the worker count is more than one, followed by the stripped message |
| Telemetry.Handle | trainml/jobs.py:278-296 | non-subscription messages are ignored; an unhashable `stream` raises; otherwise the message gets its worker number (None for an unknown stream) and is handed on as exactly the input message with `worker_number` set, or printed as its line using the worker count of the job at arrival; a missing `msg` or a `workers` without a length raises |
| Telemetry.Subscriptions | trainml/jobs.py:280 | every kept message is a subscription taken from the input, and every subscription message is kept; a single message is kept iff it is a subscription |
| Telemetry.SubscriptionsOfConcat | trainml/jobs.py:278-280 | filtering distributes over concatenation, so subscriptions are kept in arrival order |
| Telemetry.Dispatch | trainml/jobs.py:278-297 | a stream yields one delivery per subscription message, in arrival order, each the handling of that message |
| Telemetry.NonSubscriptionsIgnored | trainml/jobs.py:278-280 | a stream in which no message is a subscription produces no output |
| Telemetry.SecondOfTwoWorkers | trainml/jobs.py:273-291 | for a job whose `workers` are `[{job_worker_uuid: u1}, {job_worker_uuid: u2}]` with distinct keys, the handler built for it succeeds, numbers a message on `u2`'s stream 2, and prints it behind `Worker 2 - ` |
| Telemetry.UnknownStreamHasNoNumber | trainml/jobs.py:281 | a stream that is not a worker's uuid gets worker number None |
| Telemetry.TrueStreamFindsWorkerOne | trainml/jobs.py:281 | a stream given as `true` is numbered like the worker whose uuid is `1` |
| Telemetry.UnhashableStreamRaises | trainml/jobs.py:281 | a subscription message whose stream is a list or dict raises before anything is handed on or printed |

## Left out

- The HTTP, WebSocket and tunnel I/O are not modelled. This covers `Jobs.get`, `Jobs.list`, `Jobs.remove`, `Job.remove`, `start`, `stop`, `get_connection_utility_url`, and the `Connection` start/stop behind `connect`/`disconnect`. The POST itself, and wrapping its response as a job, are left out too. A `Job` is built from a response by `Job(response)`.
- `attach` subscribes through `_ws_subscribe`, which is not part of this model. The stream is taken as a given finite sequence of decoded messages. What the subscription does when the callback raises is unknown, so it is recorded as the `Raised` delivery.
- `asyncio.gather` of the three catalog fetches is not modelled: the catalogs are given lists. `asyncio.sleep` is one step of the loop.
- `warnings.warn` and `logging` are not modelled. The deprecation conditions are returned as booleans.
- The timestamp of a printed line (`datetime.fromtimestamp`, `strftime`) is not modelled. This includes the error `int()` raises on a missing `time`. `LineOf` is the part of the line after `"<timestamp>: "`.
- `__str__` and `__repr__` are not modelled.
- The whole CLI (`trainml/cli/job/__init__.py`) is not modelled.
- Non-integer timeouts are not modelled. `RetryCount` takes a natural number.
- `Dataset` and `GpuType` objects are always treated as truthy. Their classes are not part of this model, and a class without `__bool__` is truthy in Python.
- Telemetry.RStrip: strips only the ASCII characters for which `str.isspace` holds. Python's `str.rstrip()` also strips non-ASCII whitespace such as U+0085 and U+3000.
- JobCreation.ResolveData: returns the resolved `data` as a new value. The source stores the resolution into the caller's `data` dict in place (jobs.py:144), so the caller's dict changes too.
- Floating-point numbers are not modelled. A fractional `disk_size`, `gpu_count` or `time`, and the falsy `0.0`, have no `Value`.
