/** The gateway's circuit wrapper (api_gateway/src/lib/circuit.js): the action
    handed to the breaker performs one HTTP request and classifies its response.
    The breaker itself (rolling window, open/half-open timing) belongs to the
    breaker library and is represented only by whether it let the call through
    in time. */
module Circuit {
  import opened Json

  datatype Method = GET | POST | PUT | DELETE

  /** `circuit.fire(url, { method, data })`: what one client operation asks for. */
  datatype Request = Request(verb: Method, url: string, data: Option<Json>)

  /** What the HTTP request produced: a response, or a transport error
      (connection refused, reset) that carries no response. */
  datatype HttpOutcome = Response(status: int, data: Json) | Unreachable

  /** The options every circuit is created with. */
  datatype Options = Options(timeout: nat, errorThresholdPercentage: nat, resetTimeout: nat)

  const CircuitOptions: Options := Options(3000, 50, 3000)

  /** A breaker as the clients build it: the shared options and the fallback body. */
  datatype Breaker = Breaker(options: Options, fallback: Json)

  /** `createCircuit()` followed by `circuit.fallback(() => fallback)`. */
  function CreateCircuit(fallback: Json): (b: Breaker)
    ensures b.options.timeout == 3000 && b.options.errorThresholdPercentage == 50 && b.options.resetTimeout == 3000
    ensures b.fallback == fallback
  {
    Breaker(CircuitOptions, fallback)
  }

  /** The `validateStatus` passed to the HTTP client. */
  predicate ValidateStatus(status: int)
  {
    (200 <= status < 300) || status == 404
  }

  /** The action: a status `validateStatus` accepts resolves with the body;
      otherwise the client throws, the catch block returns the body of a 404 and
      rethrows everything else, including errors that carry no response. */
  function Action(outcome: HttpOutcome): (r: Result<Json>)
    ensures r.Ok? <==> outcome.Response? && ((200 <= outcome.status < 300) || outcome.status == 404)
    ensures r.Ok? ==> r.value == outcome.data
    ensures outcome.Unreachable? ==> r == Err(NoResponse)
    ensures outcome.Response? && r.Err? ==> r == Err(HttpStatus(outcome.status))
  {
    match outcome
    case Unreachable => Err(NoResponse)
    case Response(status, data) =>
      if ValidateStatus(status) then Ok(data)
      else if status == 404 then Ok(data)
      else Err(HttpStatus(status))
  }

  /** The only calls the breaker counts as failures are those the action rejects. */
  predicate CountsAsFailure(outcome: HttpOutcome)
  {
    Action(outcome).Err?
  }

  lemma NotFoundIsNeverAFailure(data: Json)
    ensures !CountsAsFailure(Response(404, data))
    ensures Action(Response(404, data)) == Ok(data)
  {
  }

  /** The services' 400 (validation) and 409 (duplicate review) answers, and every
      5xx, are breaker failures just like an unreachable backend. */
  lemma ClientErrorsAreFailures(data: Json)
    ensures CountsAsFailure(Response(400, data))
    ensures CountsAsFailure(Response(409, data))
    ensures forall s :: 500 <= s < 600 ==> CountsAsFailure(Response(s, data))
    ensures CountsAsFailure(Unreachable)
  {
  }

  /** The catch block's own 404 branch is unreachable: `validateStatus` already
      accepts 404, so only non-404 statuses ever reach it. */
  lemma CatchBranchNeverSeesNotFound(status: int)
    requires !ValidateStatus(status)
    ensures status != 404
  {
  }

  /** Whether the breaker let the action run and finish before the timeout. */
  datatype Gate = Admitted | Open | TimedOut

  /** `circuit.fire(...)` with a fallback registered: the action's body when it is
      admitted and accepts the response, the fallback otherwise. It never rejects. */
  function Fire(b: Breaker, gate: Gate, outcome: HttpOutcome): (r: Json)
    ensures gate != Admitted ==> r == b.fallback
    ensures gate == Admitted && outcome.Response? && ValidateStatus(outcome.status) ==> r == outcome.data
    ensures gate == Admitted && CountsAsFailure(outcome) ==> r == b.fallback
  {
    if gate != Admitted then b.fallback
    else match Action(outcome)
      case Ok(data) => data
      case Err(_) => b.fallback
  }
}
