/** The request-log entity: one row of the `json_rpc_log` table. Every field is
    nullable and starts out null; each setter overwrites one field. */
module Entity {
  import opened Values

  /** An instant, as the ORM stores `createTime`. */
  datatype DateTime = DateTime(epochSeconds: int)

  /** What the record holds at one moment: one nullable value per field. */
  datatype LogFields = LogFields(
    id: Option<string>,
    description: Option<string>,
    request: Option<string>,
    response: Option<string>,
    exception: Option<string>,
    serverIp: Option<string>,
    stopwatchResult: Option<string>,
    stopwatchDuration: Option<string>,
    apiName: Option<string>,
    createTime: Option<DateTime>,
    createdFromIp: Option<string>,
    createdFromUa: Option<string>,
    createdBy: Option<string>)

  /** The fields of a freshly constructed record: all null, `id` and
      `createTime` included. */
  const Blank := LogFields(None, None, None, None, None, None, None, None, None, None, None, None, None)

  const StatusAbnormal := "异常"
  const StatusSucceeded := "成功"

  /** Retention sweep declared on the entity: schedule, default days to keep,
      and the environment variable that overrides them. */
  const CleanSchedule := "41 1 * * *"
  const DefaultKeepDays := 180
  const KeepDaysEnv := "JSON_RPC_LOG_PERSIST_DAY_NUM"

  /** The status column: abnormal exactly when the exception text is truthy. */
  function Status(f: LogFields): (s: string)
    ensures s == StatusAbnormal <==> Truthy(f.exception)
    ensures s == StatusSucceeded <==> !Truthy(f.exception)
  {
    if Truthy(f.exception) then StatusAbnormal else StatusSucceeded
  }

  /** The user column: the creator when it is truthy, the empty string otherwise. */
  function TrackUser(f: LogFields): (u: string)
    ensures Truthy(f.createdBy) ==> u == f.createdBy.value
    ensures !Truthy(f.createdBy) ==> u == ""
    ensures u == "" || Some(u) == f.createdBy
  {
    if Truthy(f.createdBy) then f.createdBy.value else ""
  }

  /** A record whose exception is the literal `'0'` still reads as a success,
      and one with any other non-empty exception text as abnormal. */
  lemma StatusOfExceptionText(f: LogFields, text: string)
    ensures Status(f.(exception := Some("0"))) == StatusSucceeded
    ensures Status(f.(exception := Some(""))) == StatusSucceeded
    ensures Status(f.(exception := None)) == StatusSucceeded
    ensures text != "" && text != "0" ==> Status(f.(exception := Some(text))) == StatusAbnormal
  {
  }

  class RequestLog {
    var id: Option<string>
    var description: Option<string>
    var request: Option<string>
    var response: Option<string>
    var exception: Option<string>
    var serverIp: Option<string>
    var stopwatchResult: Option<string>
    var stopwatchDuration: Option<string>
    var apiName: Option<string>
    var createTime: Option<DateTime>
    var createdFromIp: Option<string>
    var createdFromUa: Option<string>
    var createdBy: Option<string>

    /** The current field values; each getter of the entity returns one of them. */
    function Fields(): LogFields
      reads this
    {
      LogFields(id, description, request, response, exception, serverIp, stopwatchResult,
                stopwatchDuration, apiName, createTime, createdFromIp, createdFromUa, createdBy)
    }

    constructor ()
      ensures Fields() == Blank
    {
      id, description, request, response, exception := None, None, None, None, None;
      serverIp, stopwatchResult, stopwatchDuration, apiName := None, None, None, None;
      createTime, createdFromIp, createdFromUa, createdBy := None, None, None, None;
    }

    function RenderStatus(): string
      reads this
    {
      Status(Fields())
    }

    function RenderTrackUser(): string
      reads this
    {
      TrackUser(Fields())
    }

    method SetRequest(request: string)
      modifies this
      ensures Fields() == old(Fields()).(request := Some(request))
    {
      this.request := Some(request);
    }

    method SetResponse(response: Option<string>)
      modifies this
      ensures Fields() == old(Fields()).(response := response)
    {
      this.response := response;
    }

    method SetException(exception: Option<string>)
      modifies this
      ensures Fields() == old(Fields()).(exception := exception)
    {
      this.exception := exception;
    }

    method SetDescription(description: Option<string>)
      modifies this
      ensures Fields() == old(Fields()).(description := description)
    {
      this.description := description;
    }

    method SetCreatedFromIp(createdFromIp: string)
      modifies this
      ensures Fields() == old(Fields()).(createdFromIp := Some(createdFromIp))
    {
      this.createdFromIp := Some(createdFromIp);
    }

    method SetServerIp(serverIp: Option<string>)
      modifies this
      ensures Fields() == old(Fields()).(serverIp := serverIp)
    {
      this.serverIp := serverIp;
    }

    method SetStopwatchResult(stopwatchResult: Option<string>)
      modifies this
      ensures Fields() == old(Fields()).(stopwatchResult := stopwatchResult)
    {
      this.stopwatchResult := stopwatchResult;
    }

    method SetStopwatchDuration(stopwatchDuration: Option<string>)
      modifies this
      ensures Fields() == old(Fields()).(stopwatchDuration := stopwatchDuration)
    {
      this.stopwatchDuration := stopwatchDuration;
    }

    method SetApiName(apiName: Option<string>)
      modifies this
      ensures Fields() == old(Fields()).(apiName := apiName)
    {
      this.apiName := apiName;
    }

    method SetCreatedFromUa(createdFromUa: Option<string>)
      modifies this
      ensures Fields() == old(Fields()).(createdFromUa := createdFromUa)
    {
      this.createdFromUa := createdFromUa;
    }

    method SetCreateTime(createTime: Option<DateTime>)
      modifies this
      ensures Fields() == old(Fields()).(createTime := createTime)
    {
      this.createTime := createTime;
    }

    method SetCreatedBy(createdBy: Option<string>)
      modifies this
      ensures Fields() == old(Fields()).(createdBy := createdBy)
    {
      this.createdBy := createdBy;
    }
  }
}
