/** `_malFetch`: one GET request, its status classified into a `MalError`
    or its JSON body returned. The request itself and the JSON decoding are
    not modelled; what they produced arrives as a `FetchOutcome`. */
module Fetch {

  import opened MalErrors

  /** What the network call produced: it threw (DNS, connection, ...), or a
      response arrived with a status and a body that `json()` either decoded
      (`Some`) or failed on (`None`). */
  datatype FetchOutcome<T> = Threw | Response(status: int, body: Option<T>)

  /** `Response.ok`: the status is in the range 200 to 299 (section 2.2.3,
      "Statuses", of the WHATWG Fetch Standard). */
  predicate IsOkStatus(status: int) {
    200 <= status <= 299
  }

  /** The error for every failure caught by the `try` block. */
  const NetworkError := MalError("Network error", 500)

  /** The `switch` over a non-`ok` status (messages kept verbatim,
      spelling included). */
  function StatusError(status: int): (e: MalError)
    ensures e.status == status
  {
    match status
    case 400 => MalError("Invalid parameter", 400)
    case 401 => MalError("Expired access tokens, invlaid access tokens, etc.", 401)
    case 403 => MalError("DoS detected etc.", 403)
    case 404 => MalError("Not found", 404)
    case _ => MalError("Generic error occured", status)
  }

  /** `_malFetch` applied to what the network produced. It never fails
      itself: every path ends in exactly one of a value and an error. */
  function MalFetch<T>(outcome: FetchOutcome<T>): (r: Result<T>)
    ensures outcome.Threw? ==> r == Err(NetworkError)
    ensures outcome.Response? && !IsOkStatus(outcome.status) ==>
              r.Err? && r.error.status == outcome.status
    ensures r.Ok? <==> outcome.Response? && IsOkStatus(outcome.status) && outcome.body.Some?
    ensures r.Ok? ==> r.value == outcome.body.value
  {
    match outcome
    case Threw => Err(NetworkError)
    case Response(status, body) =>
      if !IsOkStatus(status) then Err(StatusError(status))
      else match body
        case None => Err(NetworkError)
        case Some(json) => Ok(json)
  }

  /** The error table for non-`ok` statuses: four fixed rows, and every other
      status echoed with a generic message. */
  lemma {:induction false} ErrorTable<T>(status: int, body: Option<T>)
    requires !IsOkStatus(status)
    ensures status == 400 ==> MalFetch(Response(status, body)) == Err(MalError("Invalid parameter", 400))
    ensures status == 401 ==>
              MalFetch(Response(status, body)) == Err(MalError("Expired access tokens, invlaid access tokens, etc.", 401))
    ensures status == 403 ==> MalFetch(Response(status, body)) == Err(MalError("DoS detected etc.", 403))
    ensures status == 404 ==> MalFetch(Response(status, body)) == Err(MalError("Not found", 404))
    ensures status !in {400, 401, 403, 404} ==>
              MalFetch(Response(status, body)) == Err(MalError("Generic error occured", status))
  {
  }

  /** The body is only decoded once the status is known to be `ok`: a
      failed response's result does not depend on its body. */
  lemma {:induction false} BodyIgnoredOnFailure<T>(status: int, body1: Option<T>, body2: Option<T>)
    requires !IsOkStatus(status)
    ensures MalFetch(Response(status, body1)) == MalFetch(Response(status, body2))
  {
  }

  /** The network-error result comes from exactly two places: the request
      threw, or an `ok` response had a body `json()` could not decode. An
      upstream 500 is told apart by its message. */
  lemma {:induction false} NetworkErrorExactly<T>(outcome: FetchOutcome<T>)
    ensures MalFetch(outcome) == Err(NetworkError) <==>
              outcome.Threw? || (outcome.Response? && IsOkStatus(outcome.status) && outcome.body.None?)
  {
    if outcome.Response? && !IsOkStatus(outcome.status) {
      var e := StatusError(outcome.status);
      assert e.message != NetworkError.message;
    }
  }
}
