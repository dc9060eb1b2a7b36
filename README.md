# SMS_API dispatch core in Dafny

This project models the core of a small SMS bulk-sending service. The service is a Flask web API that hands work to Celery workers. Three pieces of its sequential logic are modelled and proved:

- **Bulk send** (`POST /send-bulk-sms`, `sms.py`). The handler checks the JSON body in a fixed order. It normalises each phone number: spaces are dropped, the last nine characters kept, and `254` put in front. For each number, in input order, it appends an entry to the process-wide `messages` list, enqueues a send task, saves a `queued` row, and adds `{phone_number, task_id}` to its answer.
- **Message listing query** (`GET /messages`, `sms.py`). Optional `status` and `phone` filters plus `limit`/`offset` are turned into an SQL string with `%s` placeholders and a parameter list.
- **Dispatch bridge** (`send_sms_bridge.py`). It builds the provider payload and posts it. The result is one of: no endpoint configured, a provider response, or a raised exception. Each case becomes exactly one `update_message_status` write on the task's row, plus a result dictionary.

Modules, one per concern:

| file | module | contents |
|---|---|---|
| `wrappers.dfy` | `Wrappers` | `Option`, `Result` |
| `json.dfy` | `JsonValues` | JSON values of a request body; Python truthiness of an optional string |
| `records.dfy` | `Records` | the `sms_messages` table as class `MessageTable` (a `seq<Row>` in insertion order), the INSERT and the keyed UPDATE |
| `phone.dfy` | `Phone` | phone-number normalisation |
| `query.dfy` | `MessageQuery` | the listing query builder and its placeholder/parameter proofs |
| `bridge.dfy` | `Bridge` | payload, outcome mapping (`Dispatch`) and the imperative `SendSmsBridge` |
| `service.dfy` | `SmsService` | validation, the task queue, the handler state (`Service`: `messages`, table, queue), the fan-out loop and the worker task |

The collaborators become abstract state or parameters:
- **Database.** The database is the `MessageTable` object. Its rows are a sequence, and the position of a row stands for the auto-increment `id`.
- **Celery.** The broker is the `TaskQueue` object. Its `Delay` returns an id never issued before, which is all the model relies on. A counter produces the ids. A ghost `issued` set records them.
- **Network.** The HTTP call is replaced by a `ProviderOutcome` parameter. It is either `Response(ok, statusCode, text)` or `Fault(str(e))`.
- **Clock.** `NOW()` and the column defaults are replaced by a `now` parameter.
- **Configuration.** The settings are a `Config` of optional strings.

Where the code and its intended design differ, the model follows the code:
- **Enqueue before save.** The task is enqueued before its `queued` row is saved (`sms.py:94` then `sms.py:97`). A ghost trace of effects records this order (`EnqueueComesBeforeSave`). If the task's update ran in between, it would find no row and be lost (`UpdateBeforeInsertIsLost`).
- **Terminal statuses can be overwritten.** `update_message_status` has no guard on the current status, so a `sent` or `failed` row takes whatever the next update writes (`TerminalStatusCanBeOverwritten`).
- **Provider status codes are stored as returned.** A response that is not `ok` keeps the provider's status code; it is not replaced by 500. Only the no-endpoint and exception paths write 500.
- **Success follows `response.ok`.** The row becomes `sent` exactly when `response.ok` holds. The model keeps `ok` abstract, not as "2xx".
- **Two different no-endpoint messages.** The row stores `No SMS provider endpoint configured`. The returned result says `No SMS Provider enpoint provided` (`NoEndpointTextsDiffer`).
- **A bad element aborts the loop midway.** Validation rejects a malformed body before any side effect. A non-string element inside `phone_numbers` is different: it passes validation, and `.replace` raises in the middle of the loop. The earlier numbers are by then listed, enqueued and saved, so the answer is `Aborted(i)`.
- **The phone filter names a missing column.** The filter compares a column named `phone` (`sms.py:132`), but the table's column is `phone_number` (`dbconfig.py:32`). The query is modelled only as a string plus parameters; no claim is made that it filters correctly.

## Model

| member | source | states |
|---|---|---|
| `Phone.RemoveSpaces` | sms.py:86 | the result of `replace(" ", "")` contains no space and is no longer than the input; together with the two lemmas below, it removes exactly the spaces and keeps every other character in order |
| `Phone.RemoveSpacesIdentity` | sms.py:86 | a string without spaces comes back unchanged, so no other character is touched |
| `Phone.RemoveSpacesConcat` | sms.py:86 | space removal works piece by piece over a concatenation, so the surviving characters keep their order |
| `Phone.PySliceFrom` | sms.py:86 | Python's `s[start:]` is a suffix of `s`; a negative start takes the last `-start` characters, or all of them when the string is shorter |
| `Phone.Normalize` | sms.py:86 | a normalised number starts with `254`, has 3 to 12 characters and contains no space |
| `Phone.NormalizeIsPrefixedLastNine` | sms.py:86 | the normalised number is `254` followed by the last nine space-free characters of the input, or all of them if fewer remain |
| `Phone.NormalizeIdempotentIff` | sms.py:86 | normalising twice gives the same number if and only if the input has at least nine characters once spaces are removed |
| `Phone.NormalizedIsFixedPoint` | sms.py:86 | `254` followed by nine space-free characters normalises to itself |
| `Phone.NormalizeExamples` | sms.py:86 | `"0712 345 678"` normalises to `"254712345678"`, and `"254712345678"` to itself |
| `SmsService.Validate` | sms.py:64-73 | the four 400 errors in order: empty or missing body, missing `phone_numbers`, missing `message`, `phone_numbers` not a list; each error holds exactly when every earlier check passed and its own fails |
| `SmsService.ValidationAcceptsOnlyWellFormed` | sms.py:64-78 | validation passes if and only if the body has both fields and `phone_numbers` is a list |
| `SmsService.TaskQueue.Delay` | sms.py:94 | enqueues the task at the end of the queue under an id that was never issued before |
| `SmsService.Service.SendBulkSms` | sms.py:59-104 | a rejected body changes nothing; otherwise the fan-out below runs on the validated list and message |
| `SmsService.Service.FanOut` | sms.py:81-99 | `Accepted` returns one entry per number, in input order: entry k pairs the normalised k-th number with a fresh, distinct task id. The `messages` list, the queue, the table and the effect trace each grow by exactly the processed numbers' entries, in order (one entry, one task, one `queued` row, three effects each). A non-string element stops the loop as `Aborted(k)`, with the first k numbers already done |
| `SmsService.Service.FanOutOne` | sms.py:86-99 | one iteration: appends the `messages` entry, enqueues the task, then saves its `queued` row under the issued id, keeping one row per task id |
| `SmsService.BatchEntries` | sms.py:81-99 | the k-th processed number owns entry k of the appended `messages`, tasks and rows, with its own normalised number and task id, and effects 3k (listed), 3k+1 (enqueued) and 3k+2 (saved) |
| `SmsService.EnqueueComesBeforeSave` | sms.py:94-97 | in a batch's effects, the k-th task is enqueued at position 3k+1, and its row is saved at 3k+2 and nowhere else |
| `SmsService.Service.SendSmsTask` | sms.py:49-57 | the worker runs the dispatch bridge with the task's own id, number and message. The table ends with the bridge's keyed status write, and one row per task id is kept. The request posted is the one `Dispatch` prescribes. The bridge's result is discarded, because the task itself returns nothing |
| `Records.QueuedRow` | sms.py:35-47 | the inserted row has status `queued`, the given number, message and task id, NULL provider response and response code, and both timestamps set to the insertion time |
| `Records.MessageTable.Insert` | sms.py:35-47 | `save_message_to_db` appends exactly one `queued` row to the table |
| `Records.Updated` | send_sms_bridge.py:12-17 | every row whose `task_id` matches gets the new status, provider response, response code and `updated_at`, whatever its current status. Every other row is unchanged, and no row is added or removed |
| `Records.MessageTable.UpdateStatus` | send_sms_bridge.py:7-20 | `update_message_status` replaces the table by its keyed update |
| `Records.UpdateWithoutRowIsNoop` | send_sms_bridge.py:12-17 | an update for a task id that no row carries leaves the table unchanged |
| `Records.UpdatePreservesDistinctIds` | send_sms_bridge.py:12-17 | updates keep task ids distinct |
| `Records.TerminalStatusCanBeOverwritten` | send_sms_bridge.py:12-17 | in any table, a row that is already `sent` or `failed` takes the status, provider response and code that the next update of its task id writes |
| `Records.UpdateBeforeInsertIsLost` | sms.py:94-97 | an update that runs before the task's row is inserted is lost, and the row stays `queued` |
| `MessageQuery.Conditions` | sms.py:122-134 | a status filter only if the value is truthy, then a phone filter only if truthy, in that order |
| `MessageQuery.FilterParams` | sms.py:127-134 | one text parameter per filter, in filter order |
| `MessageQuery.BuildQuery` | sms.py:110-138 | the query is the base, one ` AND <column> =%s` per present filter, then the ordering and window. The parameters are the filter values followed by limit (default 100) and offset (default 0), and the placeholder count equals the parameter count |
| `MessageQuery.WherePlaceholders` | sms.py:123-134 | the filter text holds exactly one `%s` per filter |
| `MessageQuery.TailPlaceholders` | sms.py:137-138 | a tail shaped like the ordering-and-window clause, `<words>%s<words>%s`, holds exactly the two placeholders that `limit` and `offset` fill |
| `MessageQuery.QueryPlaceholders` | sms.py:118-138 | a `%`-free base, one clause per filter and that tail hold one placeholder per filter plus two |
| `MessageQuery.QueryPlaceholdersMatchParams` | sms.py:118-138 | for every request, the number of `%s` in the query equals the number of parameters |
| `MessageQuery.ParamOrder` | sms.py:110-138 | the parameters are, in order: status if truthy, phone if truthy, limit (default 100), offset (default 0) |
| `MessageQuery.QueryEndsWithOrderAndWindow` | sms.py:137 | the query always ends with `ORDER BY created_at DESC LIMIT %s OFFSET %s` |
| `Bridge.BuildHeaders` | send_sms_bridge.py:39-42 | the request headers declare a JSON body and carry the configured access key as `AccessKey` |
| `Bridge.BuildPayload` | send_sms_bridge.py:45-59 | the payload carries the number and text both at top level and in its single `MessageParameters` entry, with `IsUnicode` and `IsFlash` true and the configured credentials |
| `Bridge.Dispatch` | send_sms_bridge.py:25-85 | No endpoint means no HTTP call and a write of `failed` / `No SMS provider endpoint configured` / 500. The written status is `sent` if and only if the provider answered `ok`; a response stores its text and status code; a fault is caught and writes `failed` / `str(e)` / 500. The result's `success` and `status` always agree with the written status and code |
| `Bridge.SendSmsBridge` | send_sms_bridge.py:23-85 | the imperative bridge makes the call, returns the result and performs the one keyed status write that `Dispatch` prescribes |
| `Bridge.DispatchWritesOnlyItsRow` | send_sms_bridge.py:72-73 | with distinct task ids, the dispatch changes only the task's own row |
| `Bridge.NoEndpointTextsDiffer` | send_sms_bridge.py:29-36 | without an endpoint, the returned text differs from the stored provider response; both report failure with code 500 |

## Left out

- Flask routing, `request.get_json`, `jsonify` and HTTP plumbing: the body arrives as `Option<map<string, Json>>`, where `None` means no JSON body or `null`. A top-level JSON value that is not an object is not modelled.
- The answer's `status` sentence is not modelled as text; its count appears as `Accepted.count`.
- Celery configuration, broker-backed concurrency, and `get_task_status` with its `AsyncResult` state echo (`sms.py:154-190`) are not modelled. Task ids are a counter standing in for the broker's unique ids.
- Worker concurrency and interleavings across tasks are not modelled. The effect of one bad interleaving is stated by `UpdateBeforeInsertIsLost`.
- pymysql connections, commits, executing the listing query, and database faults are not modelled. An exception inside `update_message_status` would itself be caught by `send_sms_bridge` and lead to a second update; this is not modelled.
- `int()` parsing of `limit` and `offset` is not modelled: the model takes them as already-parsed optional integers, so a non-numeric value, which raises in the source, is not represented.
- `requests.post` and the network are replaced by the `ProviderOutcome` parameter. How `requests` computes `response.ok` from the status code is not part of this model.
- `requests.post` is called without a timeout (`send_sms_bridge.py:62`). A call that never returns leaves the row `queued` for good. Every `ProviderOutcome` ends, so the model does not represent that case.
- A JSON `null` message passes validation, but its INSERT into the `message TEXT NOT NULL` column (`dbconfig.py:33`) fails. The task has already been enqueued by then (`sms.py:94`, then `sms.py:97`), so the source answers 500 and leaves a task without a row. The model has no database faults: it answers `Accepted` and saves a `queued` row.
- JSON floating-point numbers are not represented: `Json` numbers are integers.
- How a non-string `message` is rendered when stored or posted is not modelled: the value is carried as a JSON value.
- `config.py` and the environment are not modelled; the settings are the `Config` parameter.
- `datetime.isoformat` conversion of timestamps is not modelled.
- Timestamps: all rows of one batch take the same `now` reading.
- `SmsService.Service.SendBulkSms`: the ids of the tasks queued before an `Aborted` outcome are returned only as the ghost `processed`, because the source's 500 answer does not carry them.
