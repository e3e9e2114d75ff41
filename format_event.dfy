/** The event that carries a request log, a result text and a request array to
    listeners that format log output. */
module FormatEvent {
  import opened Values
  import Entity

  class JsonRpcLogFormatEvent {
    /** The typed `log` property has no default: `null` here means "not yet
        initialised", and reading it before `SetLog` is an error. */
    var log: Entity.RequestLog?
    var result: string
    var request: PhpArray

    constructor ()
      ensures log == null && result == "" && request == []
    {
      log, result, request := null, "", [];
    }

    function GetLog(): Entity.RequestLog
      reads this
      requires log != null
    {
      log
    }

    function GetResult(): string
      reads this
    {
      result
    }

    function GetRequest(): PhpArray
      reads this
    {
      request
    }

    method SetLog(log: Entity.RequestLog)
      modifies this
      ensures this.log != null && GetLog() == log
      ensures GetResult() == old(GetResult()) && GetRequest() == old(GetRequest())
    {
      this.log := log;
    }

    method SetResult(result: string)
      modifies this
      ensures GetResult() == result
      ensures this.log == old(this.log) && GetRequest() == old(GetRequest())
    {
      this.result := result;
    }

    method SetRequest(request: PhpArray)
      modifies this
      ensures GetRequest() == request
      ensures this.log == old(this.log) && GetResult() == old(GetResult())
    {
      this.request := request;
    }
  }
}
