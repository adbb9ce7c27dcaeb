/** The monitoring store (src/services/monitoring.service.ts): a capped error
    buffer, counters per error, the error statistics and the health check.
    Time is the `now` of each call and the heap size an input. */
module Monitoring {
  import opened JsCore
  import opened JsString
  import opened Errors
  import opened Stores
  import Analytics

  datatype Severity = Low | Medium | High | Critical

  /** A tracked error. Its random id and the stack trace are not modelled. */
  datatype ErrorEntry = ErrorEntry(timestamp: int, severity: Severity, error: Failure, context: Option<string>, userId: Option<int>)

  /** The service's state. */
  datatype Monitor = Monitor(errors: seq<ErrorEntry>, errorCounts: seq<Entry>, startTime: int)

  /** At most this many errors are kept. */
  const MaxErrors: nat := 1000

  predicate Valid(m: Monitor)
  {
    |m.errors| <= MaxErrors && DistinctKeys(m.errorCounts)
  }

  /** The counter key of an error: `${name}:${message}`. */
  function ErrorKey(e: Failure): string
  {
    e.Name() + ":" + e.message
  }

  /** The key names the error: an error name without ':' can be read back
      from the key, and so can the message. */
  lemma ErrorKeyNamesError(e: Failure)
    requires ':' !in e.Name()
    ensures FirstSegment(ErrorKey(e), ':') == e.Name()
    ensures ErrorKey(e)[|e.Name()| + 1..] == e.message
  {
    var key := ErrorKey(e);
    assert key == e.Name() + [':'] + e.message;
    FirstSegmentOfJoin(e.Name(), ':', e.message);
  }

  /** The analytics event `analyticsService.trackError` records. */
  function ErrorEvent(userId: int, now: int): Analytics.Event
  {
    Analytics.Event(Analytics.ErrorOccurred, userId, None, now, None)
  }

  /** `trackError(error, severity, context, userId)` at time `now`, together
      with the analytics store it forwards to. */
  function TrackError(m: Monitor, analytics: Analytics.Store, error: Failure, severity: Severity,
                      context: Option<string>, userId: Option<int>, now: int): (r: (Monitor, Analytics.Store))
    requires Valid(m) && Analytics.Valid(analytics)
    ensures Valid(r.0) && Analytics.Valid(r.1)
    ensures r.0.errors == LastUpTo(m.errors + [ErrorEntry(now, severity, error, context, userId)], MaxErrors)
    ensures Get(r.0.errorCounts, ErrorKey(error)) == Get(m.errorCounts, ErrorKey(error)) + 1
    ensures forall k :: k != ErrorKey(error) ==> Get(r.0.errorCounts, k) == Get(m.errorCounts, k)
    ensures r.0.startTime == m.startTime
    ensures !TruthyId(userId) ==> r.1 == analytics
    ensures TruthyId(userId) ==> r.1 == Analytics.Track(analytics, ErrorEvent(userId.value, now))
  {
    var entry := ErrorEntry(now, severity, error, context, userId);
    PushKeepsNewest(m.errors, entry, MaxErrors);
    var monitor := Monitor(PushBounded(m.errors, entry, MaxErrors), Increment(m.errorCounts, ErrorKey(error)), m.startTime);
    if TruthyId(userId) then (monitor, Analytics.Track(analytics, ErrorEvent(userId.value, now)))
    else (monitor, analytics)
  }

  /** An error without a user, or with the falsy id 0, leaves the analytics
      untouched; any other id adds one ERROR_OCCURRED event for that user. */
  lemma ForwardedOnlyWithUser(m: Monitor, analytics: Analytics.Store, error: Failure, severity: Severity,
                              context: Option<string>, now: int)
    requires Valid(m) && Analytics.Valid(analytics)
    ensures TrackError(m, analytics, error, severity, context, Some(0), now).1 == analytics
    ensures TrackError(m, analytics, error, severity, context, None, now).1 == analytics
    ensures forall u :: u != 0 ==>
      TrackError(m, analytics, error, severity, context, Some(u), now).1.events
        == LastUpTo(analytics.events + [ErrorEvent(u, now)], Analytics.MaxEvents)
  {
  }

  /** `getRecentErrors(limit)`. */
  function GetRecentErrors(m: Monitor, limit: int): (r: seq<ErrorEntry>)
    ensures limit > 0 ==> |r| == Min(limit, |m.errors|) && r == m.errors[|m.errors| - |r|..]
    ensures limit == 0 ==> r == m.errors
  {
    LastUpTo(m.errors, limit)
  }

  /** `getErrorsBySeverity(severity)`. */
  function GetErrorsBySeverity(m: Monitor, severity: Severity): (r: seq<ErrorEntry>)
    ensures forall x :: x in r <==> x in m.errors && x.severity == severity
    ensures |r| == SeverityCount(m.errors, severity)
  {
    FilterMembers(m.errors, (x: ErrorEntry) => x.severity == severity);
    Filter(m.errors, (x: ErrorEntry) => x.severity == severity)
  }

  /** The severity query keeps the buffer's order: nothing for an empty
      buffer, and one more error at the end of the buffer comes last in the
      query when it has the severity asked for. */
  lemma SeverityQueryKeepsOrder(m: Monitor, e: ErrorEntry, severity: Severity)
    ensures GetErrorsBySeverity(m.(errors := []), severity) == []
    ensures GetErrorsBySeverity(m.(errors := m.errors + [e]), severity)
            == GetErrorsBySeverity(m, severity) + (if e.severity == severity then [e] else [])
  {
    var s := m.errors + [e];
    assert s[..|s| - 1] == m.errors && s[|s| - 1] == e;
  }

  /** A just-tracked error comes last among the errors of its severity. */
  lemma NewestErrorComesLastBySeverity(m: Monitor, analytics: Analytics.Store, error: Failure, severity: Severity,
                                       context: Option<string>, userId: Option<int>, now: int)
    requires Valid(m) && Analytics.Valid(analytics)
    ensures var r := GetErrorsBySeverity(TrackError(m, analytics, error, severity, context, userId, now).0, severity);
      |r| > 0 && r[|r| - 1] == ErrorEntry(now, severity, error, context, userId)
  {
    var errors := TrackError(m, analytics, error, severity, context, userId, now).0.errors;
    var entry := ErrorEntry(now, severity, error, context, userId);
    PushKeepsNewest(m.errors, entry, MaxErrors);
    assert errors == PushBounded(m.errors, entry, MaxErrors);
    assert errors[|errors| - 1] == entry;
  }

  /** How many entries have the given severity. */
  function SeverityCount(errors: seq<ErrorEntry>, severity: Severity): nat
  {
    |Filter(errors, (x: ErrorEntry) => x.severity == severity)|
  }

  /** How many entries are strictly newer than `since`. */
  function NewerCount(errors: seq<ErrorEntry>, since: int): nat
  {
    |Filter(errors, (x: ErrorEntry) => x.timestamp > since)|
  }

  /** Every entry has exactly one of the four severities. */
  lemma {:induction false} SeverityCountsSum(errors: seq<ErrorEntry>)
    ensures SeverityCount(errors, Low) + SeverityCount(errors, Medium)
            + SeverityCount(errors, High) + SeverityCount(errors, Critical) == |errors|
  {
    if errors != [] {
      SeverityCountsSum(errors[..|errors| - 1]);
    }
  }

  /** A later cut-off never counts more entries. */
  lemma {:induction false} NewerCountShrinks(errors: seq<ErrorEntry>, early: int, late: int)
    requires early <= late
    ensures NewerCount(errors, late) <= NewerCount(errors, early)
  {
    if errors != [] {
      NewerCountShrinks(errors[..|errors| - 1], early, late);
    }
  }

  const MinuteMs: int := 60 * 1000
  const HourMs: int := 60 * MinuteMs
  const DayMs: int := 24 * HourMs

  datatype BySeverity = BySeverity(low: nat, medium: nat, high: nat, critical: nat)

  datatype ErrorStats = ErrorStats(
    totalErrors: nat,
    errorsLastHour: nat,
    errorsLast24Hours: nat,
    topErrors: seq<Entry>,
    errorsBySeverity: BySeverity)

  /** `getErrorStats()` at time `now`. */
  function GetErrorStats(m: Monitor, now: int): (r: ErrorStats)
    ensures r.totalErrors == |m.errors|
    ensures r.errorsLastHour <= r.errorsLast24Hours <= r.totalErrors
    ensures r.errorsLastHour == NewerCount(m.errors, now - HourMs)
    ensures r.errorsLast24Hours == NewerCount(m.errors, now - DayMs)
    ensures r.errorsBySeverity.low + r.errorsBySeverity.medium
            + r.errorsBySeverity.high + r.errorsBySeverity.critical == r.totalErrors
    ensures r.errorsBySeverity.low == SeverityCount(m.errors, Low)
    ensures r.errorsBySeverity.medium == SeverityCount(m.errors, Medium)
    ensures r.errorsBySeverity.high == SeverityCount(m.errors, High)
    ensures r.errorsBySeverity.critical == SeverityCount(m.errors, Critical)
    ensures r.topErrors == Top(m.errorCounts)
  {
    NewerCountShrinks(m.errors, now - DayMs, now - HourMs);
    SeverityCountsSum(m.errors);
    ErrorStats(
      |m.errors|,
      NewerCount(m.errors, now - HourMs),
      NewerCount(m.errors, now - DayMs),
      Top(m.errorCounts),
      BySeverity(SeverityCount(m.errors, Low), SeverityCount(m.errors, Medium),
                 SeverityCount(m.errors, High), SeverityCount(m.errors, Critical)))
  }

  /** A check's verdict, from best to worst. */
  datatype Status = Healthy | Degraded | Unhealthy
  {
    function Rank(): nat
    {
      match this
      case Healthy => 0
      case Degraded => 1
      case Unhealthy => 2
    }
  }

  /** The heap the memory check allows: 512 MB. */
  const MemoryLimit: nat := 512 * 1024 * 1024
  const Megabyte: nat := 1024 * 1024

  /** `heapUsed > limit * 0.9` unhealthy, else `> limit * 0.7` degraded; the
      products are compared in integers. */
  function MemoryStatus(heapUsed: nat): (st: Status)
    ensures st == Unhealthy <==> heapUsed * 10 > MemoryLimit * 9
    ensures st == Degraded <==> MemoryLimit * 7 < heapUsed * 10 <= MemoryLimit * 9
  {
    if heapUsed * 10 > MemoryLimit * 9 then Unhealthy
    else if heapUsed * 10 > MemoryLimit * 7 then Degraded
    else Healthy
  }

  /** The memory check's thresholds in bytes. */
  lemma MemoryThresholds()
    ensures MemoryStatus(483183820) == Degraded && MemoryStatus(483183821) == Unhealthy
    ensures MemoryStatus(375809638) == Healthy && MemoryStatus(375809639) == Degraded
  {
  }

  /** More than a minute up is healthy, else degraded. */
  function UptimeStatus(uptimeSeconds: int): (st: Status)
    ensures st != Unhealthy
    ensures st == Healthy <==> uptimeSeconds > 60
  {
    if uptimeSeconds > 60 then Healthy else Degraded
  }

  /** A critical error among the recent ones is unhealthy, else more than ten
      recent errors are degraded. */
  function ErrorStatus(recent: seq<ErrorEntry>): (st: Status)
    ensures st == Unhealthy <==> exists i :: 0 <= i < |recent| && recent[i].severity == Critical
    ensures st == Degraded <==> (forall i :: 0 <= i < |recent| ==> recent[i].severity != Critical) && |recent| > 10
  {
    var critical := Filter(recent, (x: ErrorEntry) => x.severity == Critical);
    FilterMembers(recent, (x: ErrorEntry) => x.severity == Critical);
    if |critical| > 0 then
      assert critical[0] in recent;
      Unhealthy
    else
      assert forall i :: 0 <= i < |recent| ==> recent[i] in recent;
      if |recent| > 10 then Degraded else Healthy
  }

  /** The worst of three verdicts. */
  function Worst(a: Status, b: Status, c: Status): (st: Status)
    ensures st.Rank() >= a.Rank() && st.Rank() >= b.Rank() && st.Rank() >= c.Rank()
    ensures st == a || st == b || st == c
  {
    if a == Unhealthy || b == Unhealthy || c == Unhealthy then Unhealthy
    else if a == Degraded || b == Degraded || c == Degraded then Degraded
    else Healthy
  }

  datatype HealthReport = HealthReport(
    status: Status,
    memoryStatus: Status,
    usageMb: int,
    limitMb: int,
    uptimeStatus: Status,
    uptimeSeconds: int,
    errorStatus: Status,
    count: nat,
    recentCount: nat)

  /** `Math.round(bytes / (1024 * 1024))` for a non-negative size. */
  function RoundToMegabytes(bytes: nat): (mb: nat)
    ensures mb * Megabyte <= bytes + Megabyte / 2 < (mb + 1) * Megabyte
  {
    (bytes + Megabyte / 2) / Megabyte
  }

  /** `healthCheck()` at time `now` with `heapUsed` bytes of heap in use. */
  function HealthCheck(m: Monitor, now: int, heapUsed: nat): (r: HealthReport)
    ensures r.status == Worst(r.memoryStatus, r.uptimeStatus, r.errorStatus)
    ensures r.memoryStatus == MemoryStatus(heapUsed)
    ensures r.uptimeSeconds * 1000 <= now - m.startTime < (r.uptimeSeconds + 1) * 1000
    ensures r.uptimeStatus == UptimeStatus(r.uptimeSeconds)
    ensures r.errorStatus == Unhealthy <==>
              exists e :: e in m.errors && e.timestamp > now - 5 * MinuteMs && e.severity == Critical
    ensures r.errorStatus == Degraded <==>
              (forall e :: e in m.errors && e.timestamp > now - 5 * MinuteMs ==> e.severity != Critical)
              && r.recentCount > 10
    ensures r.usageMb == RoundToMegabytes(heapUsed)
    ensures r.recentCount == NewerCount(m.errors, now - 5 * MinuteMs)
    ensures r.count == |m.errors|
    ensures r.limitMb == 512
  {
    var recent := Filter(m.errors, (x: ErrorEntry) => x.timestamp > now - 5 * MinuteMs);
    FilterMembers(m.errors, (x: ErrorEntry) => x.timestamp > now - 5 * MinuteMs);
    var uptimeSeconds := (now - m.startTime) / 1000;
    var errorStatus := ErrorStatus(recent);
    assert errorStatus == Unhealthy <==> exists e :: e in recent && e.severity == Critical by {
      if errorStatus == Unhealthy {
        var i :| 0 <= i < |recent| && recent[i].severity == Critical;
        assert recent[i] in recent;
      }
      if exists e :: e in recent && e.severity == Critical {
        var e :| e in recent && e.severity == Critical;
        var i :| 0 <= i < |recent| && recent[i] == e;
      }
    }
    HealthReport(
      Worst(MemoryStatus(heapUsed), UptimeStatus(uptimeSeconds), errorStatus),
      MemoryStatus(heapUsed),
      RoundToMegabytes(heapUsed),
      MemoryLimit / Megabyte,
      UptimeStatus(uptimeSeconds),
      uptimeSeconds,
      errorStatus,
      |m.errors|,
      |recent|)
  }

  /** Within the first minute the service is never reported healthy. */
  lemma FirstMinuteIsNeverHealthy(m: Monitor, now: int, heapUsed: nat)
    requires now - m.startTime < 61 * 1000
    ensures HealthCheck(m, now, heapUsed).status != Healthy
  {
  }

  /** `clearOldErrors()` at time `now`: keeps the entries strictly newer than
      a day, in order, and leaves the counters alone. */
  function ClearOldErrors(m: Monitor, now: int): (r: Monitor)
    ensures forall e :: e in r.errors <==> e in m.errors && e.timestamp > now - DayMs
    ensures r.errorCounts == m.errorCounts && r.startTime == m.startTime
    ensures |r.errors| == NewerCount(m.errors, now - DayMs)
  {
    FilterMembers(m.errors, (x: ErrorEntry) => x.timestamp > now - DayMs);
    m.(errors := Filter(m.errors, (x: ErrorEntry) => x.timestamp > now - DayMs))
  }

  /** Clearing keeps exactly the recent entries, in order: nothing from an
      empty buffer, and one more entry at the end of the buffer is kept at
      the end iff it is newer than a day. */
  lemma ClearingKeepsOrder(m: Monitor, e: ErrorEntry, now: int)
    ensures ClearOldErrors(m.(errors := []), now).errors == []
    ensures ClearOldErrors(m.(errors := m.errors + [e]), now).errors
            == ClearOldErrors(m, now).errors + (if e.timestamp > now - DayMs then [e] else [])
  {
    var s := m.errors + [e];
    assert s[..|s| - 1] == m.errors && s[|s| - 1] == e;
  }

  /** Clearing twice at the same moment clears once. */
  lemma ClearingIsIdempotent(m: Monitor, now: int)
    ensures ClearOldErrors(ClearOldErrors(m, now), now) == ClearOldErrors(m, now)
  {
    FilterIdempotent(m.errors, (x: ErrorEntry) => x.timestamp > now - DayMs);
  }
}
