# JSON-RPC request log: a Dafny model

This project models the log-capture core of a JSON-RPC server add-on. That core has five parts:

- A listener (`LogSubscriber`) sees every procedure call succeed or fail. It decides from the procedure class's `#[Log]` marker and the kind of outcome whether to store a request-log record and which fields to fill. It then fills a `RequestLog` entity field by field and hands it to an asynchronous database writer.
- The listener keeps the stopwatch event started at request start.
- A Monolog processor (`PayloadLogProcessor`) tags every log line written during a request with that request's payload. A payload that decodes to the JSON literal `null` is the exception: it empties the slot, and the request's log lines stay untagged.
- The `#[Log]` marker holds two read-only flags.
- A format event (`JsonRpcLogFormatEvent`) carries a log record, a result text and a request array.

Modules follow the source files:

- `LogMarker` models `src/Attribute/Log.php`. The marker is a datatype whose constructor defaults both flags to true.
- `Entity` models `src/Entity/RequestLog.php`. The class `RequestLog` has one nullable field per column. `Fields()` is the snapshot of those fields. It is what the getters read and what every setter's contract is stated against. `Status` and `TrackUser` are the two rendered columns, with PHP truthiness (`Values.Truthy`): `null`, `''` and `'0'` count as empty.
- `FormatEvent` models `src/Event/JsonRpcLogFormatEvent.php`.
- `PayloadProcessor` models `src/Logger/PayloadLogProcessor.php`. The class holds the payload slot. `Enriched` states what tagging does to a log line's `extra` map.
- `Subscriber` models `src/EventSubscriber/LogSubscriber.php`:
  - `GetLogConfig` is the decision.
  - `SuccessHandling` and `FailureHandling` state which record the listener builds. They also state whether a call made while building it throws.
  - The class methods `OnSuccess` and `OnFailure` build that record with `new RequestLog()` and setter calls. They are proved to hand over exactly that record, or nothing.
  - `AsyncSink` stands for the database writer.
- `Lifecycle` replays a sequence of lifecycle events on a one-slot object. It proves that the last event that overwrites the slot decides what the slot holds. The stopwatch slot and the payload slot are both instances. So the model proves that, on a reused worker, a log line's payload tag comes from the current request, never from an earlier one. For the stopwatch it proves only when a record's two stopwatch fields are present: after a request start with no reset since. The values in those fields are not tied to any request. The `Handle` method of each class dispatches one event to the matching handler. Its contract states that the object's slot changes exactly as the event's effect says, so the trace lemmas are about the objects themselves.
- `Values` holds the datatypes shared by the modules: `Option`, `Call` (a foreign call returns or throws), `Json` and PHP arrays.

Calls into libraries are parameters of the model:

- JSON encoding and the exception printer are the arrow fields of `Subscriber.Io`.
- The procedure's description formatter is `Procedure.formatter`.
- Whether the writer throws is `rejects`.
- The outcome of decoding the payload is `PayloadProcessor.Decoded`.

Each of these either returns or throws, and the model follows both paths.

The stopwatch's reading, `StopwatchReading`, is taken as given: it has no throwing path.

Points where the code behaves differently from what a reader might expect:

- The listener does not catch an exception from the JSON encoder, the exception printer or the description formatter while it builds a record (src/EventSubscriber/LogSubscriber.php:79-101, 137-158). Such an exception leaves the handler, and nothing is inserted. The handling is then `Raised`; the field is not skipped. Only an exception from the asynchronous insert is caught (lines 103-110, 160-166).
- `apiName` is the procedure's class name (`$method::class`), not the JSON-RPC method name.
- The payload slot is typed `?string`. A payload that decodes to an array or object therefore cannot be stored in decoded form: the assignment raises a type error, the same `catch` swallows it, and the raw string stays. A payload that decodes to a scalar is stored as that scalar's string form. The JSON literal `null` empties the slot.
- The stopwatch fields are filled whenever a stopwatch event is held. The event comes from `onRequestStart` and is cleared by `reset`.

## Model

| member | source | states |
|---|---|---|
| `LogMarker.Defaults` | src/Attribute/Log.php:13-16 | without arguments both flags are true; one named argument, whatever its value, leaves the other flag at true |
| `LogMarker.FlagsAsGiven` | src/Attribute/Log.php:13-16 | every combination of the two flags is stored exactly as given, positionally or by name |
| `Entity.Status` | src/Entity/RequestLog.php:167-172 | the status is "异常" exactly when the exception is truthy (not null, not `''`, not `'0'`), otherwise "成功" |
| `Entity.TrackUser` | src/Entity/RequestLog.php:151-155 | the user column is `createdBy` when it is truthy and `''` otherwise |
| `Entity.StatusOfExceptionText` | src/Entity/RequestLog.php:169-172 | an exception of `'0'`, `''` or null reads as success; any other text reads as abnormal |
| `Entity.RequestLog.constructor` | src/Entity/RequestLog.php:44-108 | a new record has every field null, `id` and `createTime` included |
| `Entity.RequestLog.SetRequest` | src/Entity/RequestLog.php:120-125 | stores the given non-null string in `request`; every other field, `id` included, is unchanged |
| `Entity.RequestLog.SetResponse` | src/Entity/RequestLog.php:132-137 | stores the given value, null or `''` included, in `response`; nothing else changes |
| `Entity.RequestLog.SetException` | src/Entity/RequestLog.php:144-149 | stores the given value in `exception`; nothing else changes |
| `Entity.RequestLog.SetDescription` | src/Entity/RequestLog.php:162-165 | stores the given value in `description`; nothing else changes |
| `Entity.RequestLog.SetCreatedFromIp` | src/Entity/RequestLog.php:174-179 | stores the given non-null string in `createdFromIp`; nothing else changes |
| `Entity.RequestLog.SetServerIp` | src/Entity/RequestLog.php:191-196 | stores the given value in `serverIp`; nothing else changes |
| `Entity.RequestLog.SetStopwatchResult` | src/Entity/RequestLog.php:203-208 | stores the given value in `stopwatchResult`; nothing else changes |
| `Entity.RequestLog.SetStopwatchDuration` | src/Entity/RequestLog.php:215-220 | stores the given value in `stopwatchDuration`; nothing else changes |
| `Entity.RequestLog.SetApiName` | src/Entity/RequestLog.php:227-232 | stores the given value in `apiName`; nothing else changes |
| `Entity.RequestLog.SetCreatedFromUa` | src/Entity/RequestLog.php:239-244 | stores the given value in `createdFromUa`; nothing else changes |
| `Entity.RequestLog.SetCreateTime` | src/Entity/RequestLog.php:246-251 | stores the given value in `createTime`; nothing else changes |
| `Entity.RequestLog.SetCreatedBy` | src/Entity/RequestLog.php:258-261 | stores the given value in `createdBy`; nothing else changes |
| `FormatEvent.JsonRpcLogFormatEvent.constructor` | src/Event/JsonRpcLogFormatEvent.php:10-14 | a new event has `result` `''`, `request` `[]` and no log yet |
| `FormatEvent.JsonRpcLogFormatEvent.SetLog` | src/Event/JsonRpcLogFormatEvent.php:16-24 | after `setLog`, `getLog` is defined and returns that log; result and request are unchanged |
| `FormatEvent.JsonRpcLogFormatEvent.SetResult` | src/Event/JsonRpcLogFormatEvent.php:26-34 | `getResult` returns the value set, `''` included; log and request are unchanged |
| `FormatEvent.JsonRpcLogFormatEvent.SetRequest` | src/Event/JsonRpcLogFormatEvent.php:36-44 | `getRequest` returns the array set, `[]` included; log and result are unchanged |
| `PayloadProcessor.Enriched` | src/Logger/PayloadLogProcessor.php:23-30 | with a payload, `extra['json_rpc_payload']` becomes it and every other entry is kept; without one, `extra` is unchanged |
| `PayloadProcessor.PayloadLogProcessor.constructor` | src/Logger/PayloadLogProcessor.php:21 | a new processor holds no payload |
| `PayloadProcessor.PayloadLogProcessor.Invoke` | src/Logger/PayloadLogProcessor.php:23-30 | tags the given record in place as `Enriched` says, returns the same record, and leaves the processor unchanged |
| `PayloadProcessor.PayloadLogProcessor.OnRequest` | src/Logger/PayloadLogProcessor.php:36-44 | overwrites the slot whatever it held: the raw payload when decoding throws or yields an array or object, the scalar's text otherwise, null for JSON null |
| `PayloadProcessor.PayloadLogProcessor.NoResponse` | src/Logger/PayloadLogProcessor.php:49-53 | the slot becomes null |
| `PayloadProcessor.PayloadLogProcessor.Reset` | src/Logger/PayloadLogProcessor.php:55-58 | the slot becomes null |
| `PayloadProcessor.PayloadLogProcessor.Handle` | src/Logger/PayloadLogProcessor.php:23-58 | dispatching one event to `onRequest`, `noResponse`, `reset` or `__invoke` changes the slot exactly as `PayloadEffect` says; only a log line's `extra` is touched |
| `PayloadProcessor.LogLinesCarryCurrentPayload` | src/Logger/PayloadLogProcessor.php:25-43 | every log line after a request start, with only log lines since, carries that request's stored payload (the raw string when decoding threw) |
| `PayloadProcessor.NoPayloadAfterRequestEnds` | src/Logger/PayloadLogProcessor.php:50-58 | after response sending or a reset, and until the next request start, no log line is tagged |
| `PayloadProcessor.FreshProcessorTagsNothing` | src/Logger/PayloadLogProcessor.php:21-30 | a processor that has seen no request start leaves every log line's `extra` as it was |
| `PayloadProcessor.ResetIdempotent` | src/Logger/PayloadLogProcessor.php:55-58 | resetting twice leaves the same slot as resetting once |
| `Subscriber.GetLogConfig` | src/EventSubscriber/LogSubscriber.php:185-211 | logging happens iff the failure is unexpected or a marker is present; request and response are captured iff the failure is unexpected or the marker's flag says so |
| `Subscriber.SuccessHandling` | src/EventSubscriber/LogSubscriber.php:57-111 | no record without a decision to log; otherwise an exception iff a needed encode or the formatter throws; otherwise one record whose request is the encoded envelope iff the request flag holds, whose response is the encoded result iff the response flag holds, with no exception, api name, description and stopwatch fields as in `CommonFields` |
| `Subscriber.FailureHandling` | src/EventSubscriber/LogSubscriber.php:114-167 | as for success, but the response is always the exception message and the exception is always the printed exception; only the request is gated by its flag |
| `Subscriber.UnmarkedIsNotLogged` | src/EventSubscriber/LogSubscriber.php:196-203 | without a marker, a success or an application-level failure gives no record and no insert attempt |
| `Subscriber.UnexpectedFailureLoggedInFull` | src/EventSubscriber/LogSubscriber.php:185-194 | an unexpected failure, assertion errors included, is stored with request, response and exception filled, whatever the marker |
| `Subscriber.ResponseOnlyMarker` | src/EventSubscriber/LogSubscriber.php:79-91 | with `#[Log(request: false)]` a success record has the result and no request |
| `Subscriber.FailureResponseIgnoresFlags` | src/EventSubscriber/LogSubscriber.php:137-148 | for every flag combination, a failure record has response and exception; its request is present iff the request flag holds |
| `Subscriber.StatusMatchesOutcome` | src/EventSubscriber/LogSubscriber.php:147-148 | success records read as success; a failure record reads as abnormal iff its printed exception is truthy |
| `Subscriber.AsyncSink.AsyncInsert` | src/EventSubscriber/LogSubscriber.php:103-110 | the writer receives the record as built, and may throw |
| `Subscriber.LogSubscriber.constructor` | src/EventSubscriber/LogSubscriber.php:33-42 | a new listener holds no stopwatch event |
| `Subscriber.LogSubscriber.Reset` | src/EventSubscriber/LogSubscriber.php:44-48 | the stopwatch event slot becomes null |
| `Subscriber.LogSubscriber.OnRequestStart` | src/EventSubscriber/LogSubscriber.php:50-54 | the slot holds the event started under the name "json-rpc-logger" |
| `Subscriber.LogSubscriber.OnSuccess` | src/EventSubscriber/LogSubscriber.php:56-111 | hands the writer exactly the records `SuccessHandling` names (one or none); an exception leaves the handler exactly when `SuccessHandling` says so, never because of the writer |
| `Subscriber.LogSubscriber.OnFailure` | src/EventSubscriber/LogSubscriber.php:113-167 | hands the writer exactly the records `FailureHandling` names; writer exceptions never leave the handler |
| `Subscriber.LogSubscriber.Handle` | src/EventSubscriber/LogSubscriber.php:44-167 | dispatching one event to `onRequestStart`, `onSuccess`, `onFailure` or `reset` changes the stopwatch slot exactly as `WatchEffect` says and hands the writer what the outcome's handling names |
| `Subscriber.TimedAfterStart` | src/EventSubscriber/LogSubscriber.php:93-96 | a record built after a request start, with no reset since, has both stopwatch fields, filled from the given reading |
| `Subscriber.UntimedAfterReset` | src/EventSubscriber/LogSubscriber.php:150-153 | a record built after a reset, with no request start since, has no stopwatch fields |
| `Subscriber.UntimedWithoutStart` | src/EventSubscriber/LogSubscriber.php:35 | on a worker that never saw a request start, records have no stopwatch fields |

## Left out

- Logger calls (info, warning and error lines, the truncated result line with its `JSON_RPC_LOG_RESULT_LENGTH` limit of 1000, the backtrace) are side-channel output. They are not modelled. The one exception-catching block around the first info line never lets an exception out.
- `onException` reads `APP_ENV` and only logs or rethrows. It is not part of this model.
- The Symfony stopwatch itself: what `reset()` clears inside the stopwatch is left opaque. The model keeps only the event slot. Durations are floats converted to string; the model takes the converted text as a parameter.
- The stopwatch reading is a free parameter of `OnSuccess` and `OnFailure`, not tied to any request. A second `onRequestStart` without `reset()` starts the same never-stopped `json-rpc-logger` event again (src/EventSubscriber/LogSubscriber.php:53). The duration then adds up time from the earlier starts too. The model does not show this.
- The `request` column is mapped without `nullable: true` (src/Entity/RequestLog.php:54), so the database would refuse a record whose `request` stays null, as it does under `#[Log(request: false)]`. The model's sink accepts every record it is handed; persistence belongs to the writer.
- The asynchronous write path, ordering across records, and the assignment of `id` and `createTime` at insert belong to the ORM and the writer. They are not modelled. The sink records what it is handed.
- The retention sweep is carried out by an external scheduler bundle. Only its declared constants are kept (`Entity.CleanSchedule`, `Entity.DefaultKeepDays`, `Entity.KeepDaysEnv`).
- Concurrency between workers is left out. The model is one execution context, with explicit reset events.
- A procedure class may be declared with the non-repeatable `#[Log]` attribute twice: PHP accepts the declaration and checks for repetition only in `ReflectionAttribute::newInstance()` (src/EventSubscriber/LogSubscriber.php:204). For a success or an `ApiException` failure, that check throws out of the handler before any record is built. An unexpected failure returns at lines 188-194, before the check, and is still logged. The model gives a procedure at most one marker, so it does not show that throw.
- The fluent `return $this` of the entity setters is not modelled. The core never uses the returned value.
- The entity getters are not written as separate functions: each returns one field of `Fields()`.
- `PayloadProcessor.MonologRecord.extra` holds strings only, whereas Monolog's `extra` holds mixed values. The processor writes only strings to it.
- A procedure's result is modelled as a JSON document. A value the encoder cannot represent is covered by the encoder throwing.
- ORM, serializer and admin attributes, the repository, fixtures, admin menu, bundle and extension classes, and the admin CRUD controller are framework glue. They are not part of this model.
