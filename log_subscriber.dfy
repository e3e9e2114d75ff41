/** The listener that turns the outcome of a JSON-RPC procedure call into a
    request-log record: it decides whether and what to log, fills the record
    field by field and hands it to the asynchronous database writer. It keeps
    one piece of per-worker state, the stopwatch event started when the request
    began. */
module Subscriber {
  import opened Values
  import opened Lifecycle
  import opened LogMarker
  import opened Entity

  /** The three kinds of throwable the listener tells apart. Only an
      `ApiException` (or a subclass) is an expected, application-level error;
      an `AssertionError` differs from other errors only in log level. */
  datatype ThrowableKind = ApiException | AssertionError | OtherThrowable

  datatype Exception = Exception(kind: ThrowableKind, message: string)

  datatype Outcome = Succeeded | Failed(kind: ThrowableKind)

  /** `log`: build and store a record; `request`, `response`: fill those fields. */
  datatype LogConfig = LogConfig(log: bool, request: bool, response: bool)

  /** A failure that is not an application-level error. */
  predicate Unexpected(outcome: Outcome) {
    outcome.Failed? && outcome.kind != ApiException
  }

  /** The logging decision for one call, from the procedure class's `#[Log]`
      marker (if any) and the outcome: an unexpected failure is always logged in
      full; otherwise the marker decides, and without one nothing is logged. */
  function GetLogConfig(marker: Option<Log>, outcome: Outcome): (c: LogConfig)
    ensures c.log <==> Unexpected(outcome) || marker.Some?
    ensures c.request <==> Unexpected(outcome) || (marker.Some? && marker.value.request)
    ensures c.response <==> Unexpected(outcome) || (marker.Some? && marker.value.response)
  {
    if Unexpected(outcome) then LogConfig(true, true, true)
    else if marker.None? then LogConfig(false, false, false)
    else LogConfig(true, marker.value.request, marker.value.response)
  }

  /** The JSON-RPC request as the listener reads it. */
  datatype JsonRpcRequest = JsonRpcRequest(id: Json, jsonrpc: string, methodName: string, params: Json)

  /** A procedure: its class name, its `#[Log]` marker, and, when it implements
      the log-format interface, its formatter of a one-line description. */
  datatype Procedure = Procedure(className: string, marker: Option<Log>,
                                 formatter: Option<JsonRpcRequest -> Call<string>>)

  datatype SuccessEvent = SuccessEvent(procedure: Procedure, request: JsonRpcRequest, result: Json)

  datatype FailureEvent = FailureEvent(procedure: Procedure, request: JsonRpcRequest, exception: Exception)

  /** The libraries the record building calls: the JSON encoder and the
      exception printer. Either may throw. */
  datatype Io = Io(encode: Json -> Call<string>, printException: Exception -> Call<string>)

  /** The name under which the request's stopwatch event is started. */
  const StopwatchName := "json-rpc-logger"

  datatype StopwatchEvent = StopwatchEvent(name: string)

  /** What the running stopwatch event reports when the record is built: its
      duration converted to string, and its printed summary. */
  datatype StopwatchReading = StopwatchReading(duration: string, summary: string)

  /** What handling one outcome comes to: no record (the decision said not to
      log), an exception thrown by a call made while building the record, which
      leaves the handler before anything is inserted, or exactly one insert
      attempt with the given record. */
  datatype Handling = Skipped | Raised | Inserted(record: LogFields)

  /** The request envelope stored in the `request` field. */
  function Envelope(r: JsonRpcRequest): Json {
    JObject([("id", r.id), ("jsonrpc", JString(r.jsonrpc)), ("method", JString(r.methodName)), ("params", r.params)])
  }

  /** The procedure's description of the request, when it formats one. */
  function Describe(p: Procedure, r: JsonRpcRequest): Call<string> {
    if p.formatter.Some? then p.formatter.value(r) else Returns("")
  }

  /** A field filled only when `gate` holds. */
  function Gated(gate: bool, call: Call<string>): Call<Option<string>> {
    if !gate then Returns(None)
    else match call
      case Returns(text) => Returns(Some(text))
      case Throws => Throws
  }

  /** The fields every stored record gets in the same way, whatever the
      outcome: the api name is the procedure's class name, the description is
      the formatter's text for formatting procedures only, the stopwatch fields
      are filled exactly when a stopwatch event is running, and the columns
      the listener never sets keep their initial null. */
  predicate CommonFields(f: LogFields, p: Procedure, r: JsonRpcRequest,
                         watch: Option<StopwatchEvent>, reading: StopwatchReading)
  {
    && f.apiName == Some(p.className)
    && (p.formatter.Some? <==> f.description.Some?)
    && (p.formatter.Some? ==> Describe(p, r) == Returns(f.description.value))
    && (watch.Some? ==> f.stopwatchDuration == Some(reading.duration) && f.stopwatchResult == Some(reading.summary))
    && (watch.None? ==> f.stopwatchDuration == None && f.stopwatchResult == None)
    && f.id == None && f.createTime == None && f.serverIp == None
    && f.createdFromIp == None && f.createdFromUa == None && f.createdBy == None
  }

  /** Adds the running stopwatch's reading, the api name and the description. */
  function Finish(f: LogFields, p: Procedure, watch: Option<StopwatchEvent>,
                  reading: StopwatchReading, description: Option<string>): LogFields
  {
    var timed := if watch.Some? then f.(stopwatchDuration := Some(reading.duration),
                                        stopwatchResult := Some(reading.summary))
                 else f;
    timed.(apiName := Some(p.className), description := description)
  }

  function SuccessHandling(e: SuccessEvent, watch: Option<StopwatchEvent>,
                           reading: StopwatchReading, io: Io): (h: Handling)
    ensures var c := GetLogConfig(e.procedure.marker, Succeeded);
      && (h.Skipped? <==> !c.log)
      && (h.Raised? <==> c.log && ((c.request && io.encode(Envelope(e.request)).Throws?)
                                   || (c.response && io.encode(e.result).Throws?)
                                   || (e.procedure.formatter.Some? && Describe(e.procedure, e.request).Throws?)))
    ensures var c := GetLogConfig(e.procedure.marker, Succeeded);
      h.Inserted? ==>
        && (h.record.request.Some? <==> c.request)
        && (c.request ==> io.encode(Envelope(e.request)) == Returns(h.record.request.value))
        && (h.record.response.Some? <==> c.response)
        && (c.response ==> io.encode(e.result) == Returns(h.record.response.value))
        && h.record.exception == None
        && CommonFields(h.record, e.procedure, e.request, watch, reading)
  {
    var c := GetLogConfig(e.procedure.marker, Succeeded);
    if !c.log then Skipped
    else
      var request := Gated(c.request, io.encode(Envelope(e.request)));
      var response := Gated(c.response, io.encode(e.result));
      var description := Gated(e.procedure.formatter.Some?, Describe(e.procedure, e.request));
      if request.Throws? || response.Throws? || description.Throws? then Raised
      else Inserted(Finish(Blank.(request := request.value, response := response.value),
                           e.procedure, watch, reading, description.value))
  }

  function FailureHandling(e: FailureEvent, watch: Option<StopwatchEvent>,
                           reading: StopwatchReading, io: Io): (h: Handling)
    ensures var c := GetLogConfig(e.procedure.marker, Failed(e.exception.kind));
      && (h.Skipped? <==> !c.log)
      && (h.Raised? <==> c.log && ((c.request && io.encode(Envelope(e.request)).Throws?)
                                   || io.printException(e.exception).Throws?
                                   || (e.procedure.formatter.Some? && Describe(e.procedure, e.request).Throws?)))
    ensures var c := GetLogConfig(e.procedure.marker, Failed(e.exception.kind));
      h.Inserted? ==>
        && (h.record.request.Some? <==> c.request)
        && (c.request ==> io.encode(Envelope(e.request)) == Returns(h.record.request.value))
        && h.record.response == Some(e.exception.message)
        && h.record.exception.Some?
        && io.printException(e.exception) == Returns(h.record.exception.value)
        && CommonFields(h.record, e.procedure, e.request, watch, reading)
  {
    var c := GetLogConfig(e.procedure.marker, Failed(e.exception.kind));
    if !c.log then Skipped
    else
      var request := Gated(c.request, io.encode(Envelope(e.request)));
      var printed := Gated(true, io.printException(e.exception));
      var description := Gated(e.procedure.formatter.Some?, Describe(e.procedure, e.request));
      if request.Throws? || printed.Throws? || description.Throws? then Raised
      else Inserted(Finish(Blank.(request := request.value, response := Some(e.exception.message),
                                  exception := printed.value),
                           e.procedure, watch, reading, description.value))
  }

  /** The records a handling hands to the writer. */
  function Attempts(h: Handling): seq<LogFields> {
    if h.Inserted? then [h.record] else []
  }

  /** Without a `#[Log]` marker, a success or an application-level failure
      produces no record at all. */
  lemma UnmarkedIsNotLogged(s: SuccessEvent, f: FailureEvent, watch: Option<StopwatchEvent>,
                            reading: StopwatchReading, io: Io)
    requires s.procedure.marker.None? && f.procedure.marker.None?
    requires f.exception.kind == ApiException
    ensures SuccessHandling(s, watch, reading, io) == Skipped
    ensures FailureHandling(f, watch, reading, io) == Skipped
    ensures Attempts(SuccessHandling(s, watch, reading, io)) == []
  {
  }

  /** An unexpected failure is stored with request, response and exception
      filled, whatever the marker says, as long as the encoder, the printer and
      the formatter return. */
  lemma UnexpectedFailureLoggedInFull(f: FailureEvent, watch: Option<StopwatchEvent>,
                                      reading: StopwatchReading, io: Io)
    requires f.exception.kind != ApiException
    requires io.encode(Envelope(f.request)).Returns? && io.printException(f.exception).Returns?
    requires f.procedure.formatter.Some? ==> Describe(f.procedure, f.request).Returns?
    ensures var h := FailureHandling(f, watch, reading, io);
      && h.Inserted?
      && h.record.request == Some(io.encode(Envelope(f.request)).value)
      && h.record.response == Some(f.exception.message)
      && h.record.exception == Some(io.printException(f.exception).value)
  {
  }

  /** A marker that turns the request off and the response on yields a success
      record with the result and without the request. */
  lemma ResponseOnlyMarker(s: SuccessEvent, watch: Option<StopwatchEvent>, reading: StopwatchReading, io: Io)
    requires s.procedure.marker == Some(Log(request := false))
    requires io.encode(s.result).Returns?
    requires s.procedure.formatter.Some? ==> Describe(s.procedure, s.request).Returns?
    ensures var h := SuccessHandling(s, watch, reading, io);
      h.Inserted? && h.record.request == None && h.record.response == Some(io.encode(s.result).value)
  {
  }

  /** The flags gate only the request of a failure record: its response and
      exception are filled for every marker. */
  lemma FailureResponseIgnoresFlags(f: FailureEvent, request: bool, response: bool,
                                    watch: Option<StopwatchEvent>, reading: StopwatchReading, io: Io)
    requires f.procedure.marker == Some(Log(request, response))
    requires f.exception.kind == ApiException
    requires io.encode(Envelope(f.request)).Returns? && io.printException(f.exception).Returns?
    requires f.procedure.formatter.Some? ==> Describe(f.procedure, f.request).Returns?
    ensures var h := FailureHandling(f, watch, reading, io);
      && h.Inserted?
      && h.record.response == Some(f.exception.message)
      && h.record.exception.Some?
      && (h.record.request.Some? <==> request)
  {
  }

  /** The status column reads "success" on every success record and "abnormal"
      on a failure record exactly when the printed exception is truthy. */
  lemma StatusMatchesOutcome(s: SuccessEvent, f: FailureEvent, watch: Option<StopwatchEvent>,
                             reading: StopwatchReading, io: Io)
    ensures var h := SuccessHandling(s, watch, reading, io);
      h.Inserted? ==> Status(h.record) == StatusSucceeded
    ensures var h := FailureHandling(f, watch, reading, io);
      h.Inserted? ==> (Status(h.record) == StatusAbnormal <==> Truthy(Some(io.printException(f.exception).value)))
  {
  }

  /** The database writer: an asynchronous insert that records every record
      handed to it and may throw instead of queueing it. */
  class AsyncSink {
    var attempts: seq<LogFields>

    constructor ()
      ensures attempts == []
    {
      attempts := [];
    }

    /** `rejects` stands for the writer failing on this call. */
    method AsyncInsert(log: RequestLog, rejects: bool) returns (threw: bool)
      modifies this
      ensures attempts == old(attempts) + [log.Fields()]
      ensures threw == rejects
    {
      attempts := attempts + [log.Fields()];
      threw := rejects;
    }
  }

  class LogSubscriber {
    var event: Option<StopwatchEvent>
    const sink: AsyncSink

    constructor (sink: AsyncSink)
      ensures event == None && this.sink == sink
    {
      event := None;
      this.sink := sink;
    }

    method Reset()
      modifies this
      ensures event == None
    {
      event := None;
    }

    method OnRequestStart()
      modifies this
      ensures event == Some(StopwatchEvent(StopwatchName))
    {
      event := Some(StopwatchEvent(StopwatchName));
    }

    /** `raised` tells whether an exception leaves the handler; the writer's own
        exceptions are caught and never do. */
    method OnSuccess(e: SuccessEvent, reading: StopwatchReading, io: Io, rejects: bool) returns (raised: bool)
      modifies sink
      ensures var h := SuccessHandling(e, event, reading, io);
        sink.attempts == old(sink.attempts) + Attempts(h) && raised == h.Raised?
    {
      var c := GetLogConfig(e.procedure.marker, Succeeded);
      if !c.log {
        return false;
      }
      var log := new RequestLog();
      if c.request {
        var encoded := io.encode(Envelope(e.request));
        if encoded.Throws? {
          return true;
        }
        log.SetRequest(encoded.value);
      }
      if c.response {
        var encoded := io.encode(e.result);
        if encoded.Throws? {
          return true;
        }
        log.SetResponse(Some(encoded.value));
      }
      if event.Some? {
        log.SetStopwatchDuration(Some(reading.duration));
        log.SetStopwatchResult(Some(reading.summary));
      }
      log.SetApiName(Some(e.procedure.className));
      if e.procedure.formatter.Some? {
        var text := e.procedure.formatter.value(e.request);
        if text.Throws? {
          return true;
        }
        log.SetDescription(Some(text.value));
      }
      var threw := sink.AsyncInsert(log, rejects);
      raised := false;
    }

    method OnFailure(e: FailureEvent, reading: StopwatchReading, io: Io, rejects: bool) returns (raised: bool)
      modifies sink
      ensures var h := FailureHandling(e, event, reading, io);
        sink.attempts == old(sink.attempts) + Attempts(h) && raised == h.Raised?
    {
      var c := GetLogConfig(e.procedure.marker, Failed(e.exception.kind));
      if !c.log {
        return false;
      }
      var log := new RequestLog();
      if c.request {
        var encoded := io.encode(Envelope(e.request));
        if encoded.Throws? {
          return true;
        }
        log.SetRequest(encoded.value);
      }
      log.SetResponse(Some(e.exception.message));
      var printed := io.printException(e.exception);
      if printed.Throws? {
        return true;
      }
      log.SetException(Some(printed.value));
      if event.Some? {
        log.SetStopwatchDuration(Some(reading.duration));
        log.SetStopwatchResult(Some(reading.summary));
      }
      log.SetApiName(Some(e.procedure.className));
      if e.procedure.formatter.Some? {
        var text := e.procedure.formatter.value(e.request);
        if text.Throws? {
          return true;
        }
        log.SetDescription(Some(text.value));
      }
      var threw := sink.AsyncInsert(log, rejects);
      raised := false;
    }

    /** Handles one lifecycle event by the listener method it is dispatched to. */
    method Handle(ev: WorkerEvent) returns (raised: bool)
      modifies this, sink
      ensures event == Apply(old(event), WatchEffect(ev))
      ensures ev.MethodSucceeded? ==>
        var h := SuccessHandling(ev.success, old(event), ev.reading, ev.io);
        sink.attempts == old(sink.attempts) + Attempts(h) && raised == h.Raised?
      ensures ev.MethodFailed? ==>
        var h := FailureHandling(ev.failure, old(event), ev.reading, ev.io);
        sink.attempts == old(sink.attempts) + Attempts(h) && raised == h.Raised?
      ensures ev.RequestStart? || ev.WorkerReset? ==> sink.attempts == old(sink.attempts) && !raised
    {
      match ev {
        case RequestStart =>
          OnRequestStart();
          raised := false;
        case MethodSucceeded(success, reading, io, rejects) =>
          raised := OnSuccess(success, reading, io, rejects);
        case MethodFailed(failure, reading, io, rejects) =>
          raised := OnFailure(failure, reading, io, rejects);
        case WorkerReset =>
          Reset();
          raised := false;
      }
    }
  }

  /** The events that reach one subscriber over the life of a worker, each
      with what its handler is given. */
  datatype WorkerEvent =
    | RequestStart
    | MethodSucceeded(success: SuccessEvent, reading: StopwatchReading, io: Io, rejects: bool)
    | MethodFailed(failure: FailureEvent, reading: StopwatchReading, io: Io, rejects: bool)
    | WorkerReset

  /** What each event's handler does to the stopwatch slot: `OnRequestStart`,
      `OnSuccess`, `OnFailure` and `Reset` respectively, as `Handle` shows. */
  function WatchEffect(e: WorkerEvent): Effect<StopwatchEvent> {
    match e
    case RequestStart => Put(Some(StopwatchEvent(StopwatchName)))
    case MethodSucceeded(_, _, _, _) => Keep
    case MethodFailed(_, _, _, _) => Keep
    case WorkerReset => Put(None)
  }

  function WatchAfter(trace: seq<WorkerEvent>): Option<StopwatchEvent> {
    Replay(WatchEffect, trace)
  }

  /** A record built after a request start, with no reset since, carries the
      stopwatch reading. */
  lemma {:induction false} TimedAfterStart(before: seq<WorkerEvent>, after: seq<WorkerEvent>,
                                           s: SuccessEvent, f: FailureEvent, reading: StopwatchReading, io: Io)
    requires forall i :: 0 <= i < |after| ==> !after[i].WorkerReset?
    ensures WatchAfter(before + [RequestStart] + after).Some?
    ensures var h := SuccessHandling(s, WatchAfter(before + [RequestStart] + after), reading, io);
      h.Inserted? ==> h.record.stopwatchDuration == Some(reading.duration) && h.record.stopwatchResult == Some(reading.summary)
    ensures var h := FailureHandling(f, WatchAfter(before + [RequestStart] + after), reading, io);
      h.Inserted? ==> h.record.stopwatchDuration == Some(reading.duration) && h.record.stopwatchResult == Some(reading.summary)
  {
    StaysSet(WatchEffect, before, RequestStart, after);
  }

  /** A record built after a reset, with no request start since, carries no
      stopwatch fields. */
  lemma {:induction false} UntimedAfterReset(before: seq<WorkerEvent>, after: seq<WorkerEvent>,
                                             s: SuccessEvent, f: FailureEvent, reading: StopwatchReading, io: Io)
    requires forall i :: 0 <= i < |after| ==> !after[i].RequestStart?
    ensures WatchAfter(before + [WorkerReset] + after) == None
    ensures var h := SuccessHandling(s, WatchAfter(before + [WorkerReset] + after), reading, io);
      h.Inserted? ==> h.record.stopwatchDuration == None && h.record.stopwatchResult == None
    ensures var h := FailureHandling(f, WatchAfter(before + [WorkerReset] + after), reading, io);
      h.Inserted? ==> h.record.stopwatchDuration == None && h.record.stopwatchResult == None
  {
    StaysClear(WatchEffect, before, WorkerReset, after);
  }

  /** A worker whose subscriber never saw a request start stores no stopwatch fields. */
  lemma {:induction false} UntimedWithoutStart(trace: seq<WorkerEvent>, s: SuccessEvent, reading: StopwatchReading, io: Io)
    requires forall i :: 0 <= i < |trace| ==> !trace[i].RequestStart?
    ensures WatchAfter(trace) == None
    ensures var h := SuccessHandling(s, WatchAfter(trace), reading, io);
      h.Inserted? ==> h.record.stopwatchDuration == None && h.record.stopwatchResult == None
  {
    NeverStoredIsEmpty(WatchEffect, trace);
  }
}
