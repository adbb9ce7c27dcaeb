/** `retry(fn, { maxAttempts })`. Its source (src/utils/helpers.ts) is not
    part of this model; the definition here is the one its tests pin down:
    stop at the first success, call at most `maxAttempts` times, and rethrow
    the last error. `outcomes[i]` is what the i-th call of `fn` settles with.
    The back-off delay between calls is not modelled. */
module Retrying {
  import opened JsCore
  import opened Errors

  /** What a retried call returns and how many times it called `fn`. */
  datatype Retried<+T> = Retried(result: Result<T, Failure>, calls: nat)

  /** Calls `fn` from attempt `done + 1` on, having already failed `done` times. */
  function RetryFrom<T>(outcomes: seq<Result<T, Failure>>, maxAttempts: nat, done: nat): (r: Retried<T>)
    requires done < maxAttempts <= |outcomes|
    requires forall i :: 0 <= i < done ==> outcomes[i].Err?
    decreases maxAttempts - done
    ensures done < r.calls <= maxAttempts
    ensures r.result == outcomes[r.calls - 1]
    ensures forall i :: 0 <= i < r.calls - 1 ==> outcomes[i].Err?
    ensures r.result.Err? ==> r.calls == maxAttempts
  {
    if outcomes[done].Ok? || done + 1 == maxAttempts then Retried(outcomes[done], done + 1)
    else RetryFrom(outcomes, maxAttempts, done + 1)
  }

  /** `retry(fn, { maxAttempts })`: the first success is returned at once;
      each failure is followed by another call until `maxAttempts` calls have
      failed, and then the last error is rethrown. */
  function Retry<T>(outcomes: seq<Result<T, Failure>>, maxAttempts: nat): (r: Retried<T>)
    requires 1 <= maxAttempts <= |outcomes|
    ensures 1 <= r.calls <= maxAttempts
    ensures r.result == outcomes[r.calls - 1]
    ensures forall i :: 0 <= i < r.calls - 1 ==> outcomes[i].Err?
    ensures r.result.Err? ==> r.calls == maxAttempts
  {
    RetryFrom(outcomes, maxAttempts, 0)
  }

  /** A first call that succeeds is the only call. */
  lemma FirstSuccessIsSingleCall<T>(outcomes: seq<Result<T, Failure>>, maxAttempts: nat)
    requires 1 <= maxAttempts <= |outcomes| && outcomes[0].Ok?
    ensures Retry(outcomes, maxAttempts) == Retried(outcomes[0], 1)
  {
  }

  /** When every call fails, there are exactly `maxAttempts` of them and the
      final error is rethrown. */
  lemma AllFailuresRethrowLast<T>(outcomes: seq<Result<T, Failure>>, maxAttempts: nat)
    requires 1 <= maxAttempts <= |outcomes|
    requires forall i :: 0 <= i < maxAttempts ==> outcomes[i].Err?
    ensures Retry(outcomes, maxAttempts) == Retried(outcomes[maxAttempts - 1], maxAttempts)
  {
  }

  /** The retried call succeeds exactly when one of the first `maxAttempts` calls does. */
  lemma SucceedsIffSomeAttemptSucceeds<T>(outcomes: seq<Result<T, Failure>>, maxAttempts: nat)
    requires 1 <= maxAttempts <= |outcomes|
    ensures Retry(outcomes, maxAttempts).result.Ok? <==> exists i :: 0 <= i < maxAttempts && outcomes[i].Ok?
  {
    var r := Retry(outcomes, maxAttempts);
    if r.result.Err? {
      assert forall i :: 0 <= i < maxAttempts ==> outcomes[i].Err?;
    }
  }
}
