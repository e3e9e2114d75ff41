/** The `#[Log]` attribute a JSON-RPC procedure class carries when its calls are
    to be stored in the request log. Its two flags are promoted read-only
    constructor parameters, so the marker is a value: a datatype whose
    constructor has the same defaults. */
module LogMarker {

  /** `request`: store the request envelope; `response`: store the result.
      Both default to true. */
  datatype Log = Log(request: bool := true, response: bool := true)

  /** A marker written without arguments captures both request and response,
      and one named argument leaves the other flag at its default. */
  lemma Defaults()
    ensures Log().request && Log().response
    ensures forall b: bool :: Log(request := b) == Log(b, true) && Log(response := b) == Log(true, b)
    ensures Log(response := false, request := true) == Log(true, false)
  {
  }

  /** Every combination of flags is kept exactly as given. */
  lemma FlagsAsGiven(request: bool, response: bool)
    ensures Log(request, response).request == request
    ensures Log(request, response).response == response
    ensures Log(request := request, response := response) == Log(request, response)
  {
  }
}
