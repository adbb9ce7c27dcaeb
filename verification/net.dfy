/** Network calls with time made explicit. An awaited operation is described
    by when and how it settles; a deadline is a timer raced against it, either
    through `Promise.race` with a rejecting timer or through an
    `AbortController` whose `abort()` is scheduled with `setTimeout`. */
module Net {
  import opened JsCore
  import opened Errors

  /** How an awaited operation settles, in ms after it starts, or that it never does. */
  datatype Timed<+T> = Resolves(afterMs: nat, value: T) | Rejects(afterMs: nat, error: Failure) | Pending

  /** The outcome of racing an operation against a timer. */
  datatype Raced<+T> = Won(value: T) | Failed(error: Failure) | Expired

  /** The operation wins when it settles strictly before the timer fires. */
  function Race<T>(op: Timed<T>, deadlineMs: nat): (r: Raced<T>)
    ensures r.Expired? <==> (op.Pending? || op.afterMs >= deadlineMs)
    ensures r.Won? <==> (op.Resolves? && op.afterMs < deadlineMs)
    ensures r.Won? ==> r.value == op.value
    ensures r.Failed? ==> op.Rejects? && r.error == op.error
  {
    match op
    case Pending => Expired
    case Resolves(t, v) => if t < deadlineMs then Won(v) else Expired
    case Rejects(t, e) => if t < deadlineMs then Failed(e) else Expired
  }

  /** `Promise.race([op, timer rejecting with timeoutError])`: every race
      settles, whatever the operation does. */
  function RaceOrReject<T>(op: Timed<T>, deadlineMs: nat, timeoutError: Failure): (r: Result<T, Failure>)
    ensures r.Ok? <==> (op.Resolves? && op.afterMs < deadlineMs)
    ensures r.Ok? ==> r.value == op.value
    ensures r.Err? && (op.Pending? || op.afterMs >= deadlineMs) ==> r.error == timeoutError
    ensures r.Err? && op.Rejects? && op.afterMs < deadlineMs ==> r.error == op.error
  {
    match Race(op, deadlineMs)
    case Won(v) => Ok(v)
    case Failed(e) => Err(e)
    case Expired => Err(timeoutError)
  }

  /** `fetch(url, { signal })` with `setTimeout(() => controller.abort(), ms)`:
      once the timer fires the fetch rejects with an AbortError. */
  function FetchWithAbort<T>(op: Timed<T>, timeoutMs: nat): (r: Result<T, Failure>)
    ensures r.Ok? <==> (op.Resolves? && op.afterMs < timeoutMs)
    ensures r.Ok? ==> r.value == op.value
    ensures (op.Pending? || op.afterMs >= timeoutMs) ==> r == Err(AbortError)
  {
    RaceOrReject(op, timeoutMs, AbortError)
  }

  /** An HTTP response: its status, its body as text and the body read as
      JSON (`None` when the body is not JSON). */
  datatype Response<+J> = Response(status: int, text: string, json: Option<J>)

  /** `response.ok`. */
  predicate IsOk(status: int)
  {
    200 <= status <= 299
  }

  /** `await response.json()`. */
  function ReadJson<J>(response: Response<J>): (r: Result<J, Failure>)
    ensures r.Ok? <==> response.json.Some?
    ensures r.Ok? ==> r.value == response.json.value
    ensures r.Err? ==> r.error == JsonSyntaxError
  {
    match response.json
    case Some(j) => Ok(j)
    case None => Err(JsonSyntaxError)
  }
}
