/** The fixed-window rate limiter (middleware/rate-limit.ts): per user, a
    count and the time its window ends. The window length and the allowed
    count are parameters (60000 ms and 10 in config/index.ts). */
module RateLimit {
  import opened JsCore

  datatype Window = Window(count: nat, resetAt: int)

  /** What the middleware did with one update. */
  datatype Limited = Limited(store: map<int, Window>, nextCalled: bool, reply: Option<string>)

  const TooManyRequests := "⏱️ Слишком много запросов. Пожалуйста, подождите минуту и попробуйте снова."

  /** A window has ended once its end lies strictly before `now`. */
  predicate Expired(w: Window, now: int)
  {
    w.resetAt < now
  }

  /** `rateLimitMiddleware` on an update from `userId` at time `now`. */
  function RateLimitStep(store: map<int, Window>, userId: Option<int>, now: int, window: nat, max: nat): (r: Limited)
    ensures r.nextCalled <==> r.reply.None?
    ensures r.store.Keys == store.Keys + (if TruthyId(userId) then {userId.value} else {})
    ensures forall u :: u in store && !(TruthyId(userId) && u == userId.value) ==> r.store[u] == store[u]
    ensures !TruthyId(userId) ==> r == Limited(store, true, None)
    ensures TruthyId(userId) && (userId.value !in store || Expired(store[userId.value], now)) ==>
              r.nextCalled && r.store[userId.value] == Window(1, now + window)
    ensures TruthyId(userId) && userId.value in store && !Expired(store[userId.value], now) ==>
              && (r.nextCalled <==> store[userId.value].count < max)
              && r.store[userId.value].resetAt == store[userId.value].resetAt
              && r.store[userId.value].count == store[userId.value].count + (if r.nextCalled then 1 else 0)
    ensures !r.nextCalled ==> r.store == store && r.reply == Some(TooManyRequests)
  {
    if !TruthyId(userId) then Limited(store, true, None)
    else
      var u := userId.value;
      if u !in store || Expired(store[u], now) then Limited(store[u := Window(1, now + window)], true, None)
      else if store[u].count >= max then Limited(store, false, Some(TooManyRequests))
      else Limited(store[u := store[u].(count := store[u].count + 1)], true, None)
  }

  /** The requests of one user at the given times, one after another: the
      store afterwards and how many got through. */
  function Run(store: map<int, Window>, u: int, times: seq<int>, window: nat, max: nat): (r: (map<int, Window>, nat))
    ensures r.1 <= |times|
  {
    if times == [] then (store, 0)
    else
      var before := Run(store, u, times[..|times| - 1], window, max);
      var step := RateLimitStep(before.0, Some(u), times[|times| - 1], window, max);
      (step.store, before.1 + (if step.nextCalled then 1 else 0))
  }

  /** Requests in non-decreasing time order that all fall inside the window
      the first one opens, its last millisecond included: exactly
      `min(n, max)` get through, and the window keeps its end. */
  lemma {:induction false} AtMostMaxPerWindow(store: map<int, Window>, u: int, times: seq<int>, window: nat, max: nat)
    requires u != 0 && max >= 1 && |times| >= 1
    requires u !in store || Expired(store[u], times[0])
    requires forall i, j :: 0 <= i <= j < |times| ==> times[i] <= times[j]
    requires forall i :: 0 <= i < |times| ==> times[i] <= times[0] + window
    ensures var r := Run(store, u, times, window, max);
      && r.1 == Min(|times|, max)
      && u in r.0 && r.0[u] == Window(Min(|times|, max), times[0] + window)
  {
    if |times| == 1 {
      assert times[..0] == [];
    } else {
      var prefix := times[..|times| - 1];
      assert prefix[0] == times[0];
      AtMostMaxPerWindow(store, u, prefix, window, max);
    }
  }

  /** `max` requests in one window pass and the next one is turned away with
      the reply, the count left as it was. */
  lemma OneTooManyIsRejected(store: map<int, Window>, u: int, now: int, window: nat, max: nat)
    requires u != 0 && u in store && !Expired(store[u], now) && store[u].count == max
    ensures RateLimitStep(store, Some(u), now, window, max) == Limited(store, false, Some(TooManyRequests))
  {
  }

  /** The periodic sweep at time `now`: drops exactly the ended windows. */
  function Sweep(store: map<int, Window>, now: int): (r: map<int, Window>)
    ensures forall u :: u in r <==> u in store && !Expired(store[u], now)
    ensures forall u :: u in r ==> r[u] == store[u]
  {
    map u | u in store && !Expired(store[u], now) :: store[u]
  }

  /** The sweep never changes a later decision: an ended window is reset by
      the next request anyway. */
  lemma SweepIsInvisible(store: map<int, Window>, sweptAt: int, userId: Option<int>, now: int, window: nat, max: nat)
    requires sweptAt <= now
    ensures var before := RateLimitStep(store, userId, now, window, max);
      var after := RateLimitStep(Sweep(store, sweptAt), userId, now, window, max);
      && after.nextCalled == before.nextCalled && after.reply == before.reply
      && (TruthyId(userId) ==> after.store[userId.value] == before.store[userId.value])
  {
  }
}
