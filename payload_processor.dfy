/** The log processor that tags every log line written while a JSON-RPC
    request is in flight with that request's payload. It keeps the payload in
    one nullable slot: the request-start event fills it, the response-sending
    event and a worker reset empty it, and tagging a log line only reads it. */
module PayloadProcessor {
  import opened Values
  import opened Lifecycle

  /** The key under which a log line's `extra` carries the payload. */
  const PayloadKey := "json_rpc_payload"

  /** A Monolog log line: its message, channel and context are read-only; its
      `extra` entries are changed in place by processors. */
  class MonologRecord {
    const channel: string
    const message: string
    const context: PhpArray
    var extra: map<string, string>

    constructor (channel: string, message: string, context: PhpArray, extra: map<string, string>)
      ensures this.channel == channel && this.message == message
      ensures this.context == context && this.extra == extra
    {
      this.channel, this.message, this.context, this.extra := channel, message, context, extra;
    }
  }

  /** What the JSON library's decode of the raw payload produces, as far as
      storing it into the `?string` slot is concerned. */
  datatype Decoded =
    | DecodeThrows             // the payload is not valid JSON
    | DecodedNull              // the JSON literal null
    | DecodedScalar(text: string)  // a string, number or boolean; `text` is its conversion to string
    | DecodedCompound          // an array or object: assigning it to the string slot raises a
                               // type error, caught by the same handler as a decode error

  /** The value the slot holds after the request-start event with payload `raw`. */
  function StoredPayload(raw: string, decoded: Decoded): Option<string> {
    match decoded
    case DecodeThrows => Some(raw)
    case DecodedNull => None
    case DecodedScalar(text) => Some(text)
    case DecodedCompound => Some(raw)
  }

  /** The `extra` entries of a log line after tagging it with `slot`. */
  function Enriched(extra: map<string, string>, slot: Option<string>): (r: map<string, string>)
    ensures slot.None? ==> r == extra
    ensures slot.Some? ==> PayloadKey in r && r[PayloadKey] == slot.value
    ensures r.Keys == if slot.Some? then extra.Keys + {PayloadKey} else extra.Keys
    ensures forall k :: k in extra && k != PayloadKey ==> r[k] == extra[k]
  {
    if slot.Some? then extra[PayloadKey := slot.value] else extra
  }

  class PayloadLogProcessor {
    var payload: Option<string>

    constructor ()
      ensures payload == None
    {
      payload := None;
    }

    /** Tags `record` in place and hands the same record back; the processor
        itself is left as it was. */
    method Invoke(record: MonologRecord) returns (r: MonologRecord)
      modifies record`extra
      ensures r == record
      ensures record.extra == Enriched(old(record.extra), payload)
    {
      if payload.Some? {
        record.extra := record.extra[PayloadKey := payload.value];
      }
      r := record;
    }

    /** Request start: store the raw payload, then try to replace it by its
        decoded form; any failure of that attempt is swallowed. */
    method OnRequest(raw: string, decoded: Decoded)
      modifies this
      ensures payload == StoredPayload(raw, decoded)
      ensures decoded.DecodeThrows? || decoded.DecodedCompound? ==> payload == Some(raw)
      ensures decoded.DecodedNull? ==> payload == None
    {
      payload := Some(raw);
      match decoded {
        case DecodeThrows =>
        case DecodedCompound =>
        case DecodedNull => payload := None;
        case DecodedScalar(text) => payload := Some(text);
      }
    }

    /** Response sending: the request is over. */
    method NoResponse()
      modifies this
      ensures payload == None
    {
      payload := None;
    }

    /** Worker reuse: forget the previous request. */
    method Reset()
      modifies this
      ensures payload == None
    {
      payload := None;
    }

    /** Handles one lifecycle event by the method it is dispatched to; a log
        line is `record` passing through the processor. */
    method Handle(e: ProcessorEvent, record: MonologRecord)
      modifies this, record`extra
      ensures payload == Apply(old(payload), PayloadEffect(e))
      ensures e.LogLine? ==> record.extra == Enriched(old(record.extra), old(payload))
      ensures !e.LogLine? ==> record.extra == old(record.extra)
    {
      match e {
        case RequestStart(raw, decoded) => OnRequest(raw, decoded);
        case ResponseSending => NoResponse();
        case WorkerReset => Reset();
        case LogLine => var r := Invoke(record);
      }
    }
  }

  /** The events that reach one processor over the life of a worker. */
  datatype ProcessorEvent =
    | RequestStart(raw: string, decoded: Decoded)
    | ResponseSending
    | WorkerReset
    | LogLine

  /** What each event's handler does to the payload slot: `OnRequest`,
      `NoResponse`, `Reset` and `Invoke` respectively, as `Handle` shows. */
  function PayloadEffect(e: ProcessorEvent): Effect<string> {
    match e
    case RequestStart(raw, decoded) => Put(StoredPayload(raw, decoded))
    case ResponseSending => Put(None)
    case WorkerReset => Put(None)
    case LogLine => Keep
  }

  /** The payload slot after the events of `trace`, starting from a fresh processor. */
  function PayloadAfter(trace: seq<ProcessorEvent>): Option<string> {
    Replay(PayloadEffect, trace)
  }

  /** Log lines written between a request's start and its end carry that
      request's payload, and only that one. */
  lemma {:induction false} LogLinesCarryCurrentPayload(before: seq<ProcessorEvent>, raw: string, decoded: Decoded,
                                                       lines: seq<ProcessorEvent>, extra: map<string, string>)
    requires forall i :: 0 <= i < |lines| ==> lines[i].LogLine?
    ensures PayloadAfter(before + [RequestStart(raw, decoded)] + lines) == StoredPayload(raw, decoded)
    ensures decoded.DecodeThrows? ==>
      Enriched(extra, PayloadAfter(before + [RequestStart(raw, decoded)] + lines)) == extra[PayloadKey := raw]
  {
    LastPutWins(PayloadEffect, before, RequestStart(raw, decoded), lines);
  }

  /** No payload leaks from one request into the next: after the response is
      sent (or the worker is reset), log lines are left untagged until the next
      request starts. */
  lemma {:induction false} NoPayloadAfterRequestEnds(before: seq<ProcessorEvent>, end: ProcessorEvent,
                                                     after: seq<ProcessorEvent>, extra: map<string, string>)
    requires end == ResponseSending || end == WorkerReset
    requires forall i :: 0 <= i < |after| ==> !after[i].RequestStart?
    ensures PayloadAfter(before + [end] + after) == None
    ensures Enriched(extra, PayloadAfter(before + [end] + after)) == extra
  {
    StaysClear(PayloadEffect, before, end, after);
  }

  /** A processor that has not seen a request start tags nothing. */
  lemma {:induction false} FreshProcessorTagsNothing(trace: seq<ProcessorEvent>, extra: map<string, string>)
    requires forall i :: 0 <= i < |trace| ==> !trace[i].RequestStart?
    ensures PayloadAfter(trace) == None
    ensures Enriched(extra, PayloadAfter(trace)) == extra
  {
    NeverStoredIsEmpty(PayloadEffect, trace);
  }

  /** Resetting twice is the same as resetting once. */
  lemma {:induction false} ResetIdempotent(trace: seq<ProcessorEvent>)
    ensures PayloadAfter(trace + [WorkerReset, WorkerReset]) == PayloadAfter(trace + [WorkerReset])
  {
    assert trace + [WorkerReset, WorkerReset] == trace + [WorkerReset] + [WorkerReset];
    LastPutWins(PayloadEffect, trace + [WorkerReset], WorkerReset, []);
    LastPutWins(PayloadEffect, trace, WorkerReset, []);
  }
}
