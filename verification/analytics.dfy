/** The analytics store (src/services/analytics.service.ts): a capped event
    buffer, per-user statistics, command counters and the figures derived
    from them. Time is the `now` of each call, in milliseconds. */
module Analytics {
  import opened JsCore
  import opened Stores

  datatype EventType = CommandUsed | IdeaGenerated | LeadCreated | ErrorOccurred | UserRegistered | RateLimitHit

  /** An event; `command` is `data.command`, the only part of `data` the
      store reads. */
  datatype Event = Event(kind: EventType, userId: int, username: Option<string>, timestamp: int, command: Option<string>)

  datatype UserStats = UserStats(
    userId: int,
    username: Option<string>,
    totalCommands: nat,
    ideasGenerated: nat,
    leadsCreated: nat,
    firstSeen: int,
    lastSeen: int)

  /** The service's state. */
  datatype Store = Store(events: seq<Event>, users: map<int, UserStats>, commandCounts: seq<Entry>, startTime: int)

  /** At most this many events are kept. */
  const MaxEvents: nat := 1000

  /** A fresh service started at `startTime`. */
  function Empty(startTime: int): Store
  {
    Store([], map[], [], startTime)
  }

  /** What every reachable store satisfies. */
  predicate Valid(s: Store)
  {
    |s.events| <= MaxEvents && DistinctKeys(s.commandCounts)
    && forall u :: u in s.users ==> s.users[u].userId == u
  }

  /** `updateUserStats(event)`: the record is created on the first event
      with that event's username and time; every event moves `lastSeen` and
      bumps the counter of its type, if the type has one. */
  function UpdateUserStats(users: map<int, UserStats>, e: Event): (r: map<int, UserStats>)
    ensures r.Keys == users.Keys + {e.userId}
    ensures forall u :: u in users && u != e.userId ==> r[u] == users[u]
    ensures var prior := if e.userId in users then users[e.userId]
                       else UserStats(e.userId, e.username, 0, 0, 0, e.timestamp, e.timestamp);
      var updated := r[e.userId];
      && updated.userId == prior.userId && updated.username == prior.username && updated.firstSeen == prior.firstSeen
      && updated.lastSeen == e.timestamp
      && updated.totalCommands == prior.totalCommands + (if e.kind == CommandUsed then 1 else 0)
      && updated.ideasGenerated == prior.ideasGenerated + (if e.kind == IdeaGenerated then 1 else 0)
      && updated.leadsCreated == prior.leadsCreated + (if e.kind == LeadCreated then 1 else 0)
  {
    var stats := if e.userId in users then users[e.userId]
                 else UserStats(e.userId, e.username, 0, 0, 0, e.timestamp, e.timestamp);
    var seen := stats.(lastSeen := e.timestamp);
    var counted := match e.kind
      case CommandUsed => seen.(totalCommands := seen.totalCommands + 1)
      case IdeaGenerated => seen.(ideasGenerated := seen.ideasGenerated + 1)
      case LeadCreated => seen.(leadsCreated := seen.leadsCreated + 1)
      case _ => seen;
    users[e.userId := counted]
  }

  /** Whether `track` counts the event's command: a COMMAND_USED event with
      a non-empty `data.command`. */
  predicate CountsCommand(e: Event)
  {
    e.kind == CommandUsed && Truthy(e.command)
  }

  /** The command counters after `track(event)`. */
  function CountCommand(counts: seq<Entry>, e: Event): (r: seq<Entry>)
    requires DistinctKeys(counts)
    ensures DistinctKeys(r)
    ensures forall k :: Get(r, k) == Get(counts, k) + (if CountsCommand(e) && k == e.command.value then 1 else 0)
  {
    if CountsCommand(e) then Increment(counts, e.command.value) else counts
  }

  /** `track(event)`. */
  function Track(s: Store, e: Event): (r: Store)
    requires Valid(s)
    ensures Valid(r)
    ensures r.events == LastUpTo(s.events + [e], MaxEvents)
    ensures r.users == UpdateUserStats(s.users, e)
    ensures r.users.Keys == s.users.Keys + {e.userId}
    ensures forall k :: Get(r.commandCounts, k) == Get(s.commandCounts, k)
                          + (if CountsCommand(e) && k == e.command.value then 1 else 0)
    ensures r.startTime == s.startTime
  {
    PushKeepsNewest(s.events, e, MaxEvents);
    var users := UpdateUserStats(s.users, e);
    assert forall u :: u in users ==> users[u].userId == u;
    Store(PushBounded(s.events, e, MaxEvents), users, CountCommand(s.commandCounts, e), s.startTime)
  }

  /** Tracks the events one after another. */
  function TrackAll(s: Store, events: seq<Event>): (r: Store)
    requires Valid(s)
    ensures Valid(r)
  {
    if events == [] then s else Track(TrackAll(s, events[..|events| - 1]), events[|events| - 1])
  }

  /** How many of the events are of the given type and user (`user` = `None`
      for any user). */
  function CountOf(events: seq<Event>, kind: EventType, user: Option<int>): nat
  {
    if events == [] then 0
    else
      var e := events[|events| - 1];
      CountOf(events[..|events| - 1], kind, user)
        + (if e.kind == kind && (user.None? || user.value == e.userId) then 1 else 0)
  }

  /** Some event came from the user. */
  predicate Mentions(events: seq<Event>, u: int)
  {
    events != [] && (events[|events| - 1].userId == u || Mentions(events[..|events| - 1], u))
  }

  /** The user's first event. */
  function FirstEventOf(events: seq<Event>, u: int): (e: Event)
    requires Mentions(events, u)
    ensures e in events && e.userId == u
  {
    var prefix := events[..|events| - 1];
    if Mentions(prefix, u) then FirstEventOf(prefix, u)
    else events[|events| - 1]
  }

  /** The user's last event. */
  function LastEventOf(events: seq<Event>, u: int): (e: Event)
    requires Mentions(events, u)
    ensures e in events && e.userId == u
  {
    if events[|events| - 1].userId == u then events[|events| - 1]
    else LastEventOf(events[..|events| - 1], u)
  }

  /** A user's record exists after a run of events on a fresh store iff the
      user sent one of them. */
  lemma {:induction false} UserKnownIffMentioned(startTime: int, events: seq<Event>, u: int)
    ensures u in TrackAll(Empty(startTime), events).users <==> Mentions(events, u)
  {
    if events != [] {
      UserKnownIffMentioned(startTime, events[..|events| - 1], u);
    }
  }

  /** The username and `firstSeen` of a record are those of the user's first
      event: later events never change them. */
  lemma {:induction false} FirstEventFixesRecord(startTime: int, events: seq<Event>, u: int)
    requires Mentions(events, u)
    ensures u in TrackAll(Empty(startTime), events).users
    ensures var stats := TrackAll(Empty(startTime), events).users[u];
      stats.username == FirstEventOf(events, u).username && stats.firstSeen == FirstEventOf(events, u).timestamp
  {
    var prefix := events[..|events| - 1];
    UserKnownIffMentioned(startTime, events, u);
    UserKnownIffMentioned(startTime, prefix, u);
    if Mentions(prefix, u) {
      FirstEventFixesRecord(startTime, prefix, u);
    }
  }

  /** The counter a user's record keeps for events of a type. */
  function Counter(stats: UserStats, kind: EventType): nat
  {
    match kind
    case CommandUsed => stats.totalCommands
    case IdeaGenerated => stats.ideasGenerated
    case LeadCreated => stats.leadsCreated
    case _ => 0
  }

  /** The types a user's record counts. */
  predicate Counted(kind: EventType)
  {
    kind == CommandUsed || kind == IdeaGenerated || kind == LeadCreated
  }

  /** `lastSeen` is the time of the user's last event. */
  lemma {:induction false} LastEventSetsLastSeen(startTime: int, events: seq<Event>, u: int)
    requires Mentions(events, u)
    ensures u in TrackAll(Empty(startTime), events).users
    ensures TrackAll(Empty(startTime), events).users[u].lastSeen == LastEventOf(events, u).timestamp
  {
    var prefix := events[..|events| - 1];
    UserKnownIffMentioned(startTime, events, u);
    UserKnownIffMentioned(startTime, prefix, u);
    if events[|events| - 1].userId != u {
      LastEventSetsLastSeen(startTime, prefix, u);
    }
  }

  /** Each counter of a record counts every event of its type the user sent,
      including those the buffer has since dropped. */
  lemma {:induction false} CountersCountEveryEvent(startTime: int, events: seq<Event>, u: int, kind: EventType)
    requires Mentions(events, u) && Counted(kind)
    ensures u in TrackAll(Empty(startTime), events).users
    ensures Counter(TrackAll(Empty(startTime), events).users[u], kind) == CountOf(events, kind, Some(u))
  {
    var prefix := events[..|events| - 1];
    var e := events[|events| - 1];
    UserKnownIffMentioned(startTime, events, u);
    UserKnownIffMentioned(startTime, prefix, u);
    var before := TrackAll(Empty(startTime), prefix);
    assert TrackAll(Empty(startTime), events).users == UpdateUserStats(before.users, e);
    CounterAfterUpdate(before.users, e, u, kind);
    if Mentions(prefix, u) {
      CountersCountEveryEvent(startTime, prefix, u, kind);
    } else {
      CountOfAbsentUser(prefix, kind, u);
    }
  }

  /** One event adds one to its sender's counter of its type and nothing to
      any other. */
  lemma CounterAfterUpdate(users: map<int, UserStats>, e: Event, u: int, kind: EventType)
    requires u in users || e.userId == u
    ensures u in UpdateUserStats(users, e)
    ensures Counter(UpdateUserStats(users, e)[u], kind)
            == (if u in users then Counter(users[u], kind) else 0) + (if e.userId == u && e.kind == kind && Counted(kind) then 1 else 0)
  {
  }

  /** A user who sent nothing has no events of any type. */
  lemma {:induction false} CountOfAbsentUser(events: seq<Event>, kind: EventType, u: int)
    requires !Mentions(events, u)
    ensures CountOf(events, kind, Some(u)) == 0
  {
    if events != [] {
      CountOfAbsentUser(events[..|events| - 1], kind, u);
    }
  }

  /** An instance of `FirstEventFixesRecord` for two events: a later event
      with another username leaves the first one's username as it was. */
  lemma UsernameIsNotUpdated(startTime: int, first: Event, later: Event)
    requires first.userId == later.userId
    ensures TrackAll(Empty(startTime), [first, later]).users[first.userId].username == first.username
  {
    var events := [first, later];
    assert events[..1] == [first];
    assert [first][..0] == [];
    FirstEventFixesRecord(startTime, events, first.userId);
  }

  /** The figures of `getSystemStats`. */
  datatype SystemStats = SystemStats(
    totalUsers: nat,
    totalCommands: nat,
    totalIdeas: nat,
    totalLeads: nat,
    totalErrors: nat,
    uptime: int,
    topCommands: seq<Entry>,
    activeUsers24h: nat,
    activeUsers7d: nat)

  const DayMs: int := 24 * 60 * 60 * 1000
  const WeekMs: int := 7 * DayMs

  /** The users whose `lastSeen` is at or after `since`. */
  function ActiveSince(users: map<int, UserStats>, since: int): (r: set<int>)
    ensures r <= users.Keys
    ensures forall u :: u in r <==> u in users && users[u].lastSeen >= since
  {
    set u | u in users && users[u].lastSeen >= since
  }

  /** A later cut-off never admits more users. */
  lemma ActiveShrinks(users: map<int, UserStats>, early: int, late: int)
    requires early <= late
    ensures ActiveSince(users, late) <= ActiveSince(users, early)
    ensures |ActiveSince(users, late)| <= |ActiveSince(users, early)| <= |users.Keys|
  {
    SubsetCardinality(ActiveSince(users, late), ActiveSince(users, early));
    SubsetCardinality(ActiveSince(users, early), users.Keys);
  }

  lemma SubsetCardinality(a: set<int>, b: set<int>)
    requires a <= b
    ensures |a| <= |b|
  {
    assert b == a + (b - a);
  }

  /** `getSystemStats()` at time `now`. */
  function GetSystemStats(s: Store, now: int): (r: SystemStats)
    ensures r.totalUsers == |s.users.Keys|
    ensures r.totalCommands == CountOf(s.events, CommandUsed, None)
    ensures r.totalIdeas == CountOf(s.events, IdeaGenerated, None)
    ensures r.totalLeads == CountOf(s.events, LeadCreated, None)
    ensures r.totalErrors == CountOf(s.events, ErrorOccurred, None)
    ensures r.uptime * 1000 <= now - s.startTime < (r.uptime + 1) * 1000
    ensures r.topCommands == Top(s.commandCounts)
    ensures r.activeUsers7d >= r.activeUsers24h
    ensures r.activeUsers7d <= r.totalUsers
    ensures r.activeUsers24h == |ActiveSince(s.users, now - DayMs)|
    ensures r.activeUsers7d == |ActiveSince(s.users, now - WeekMs)|
  {
    ActiveShrinks(s.users, now - WeekMs, now - DayMs);
    SystemStats(
      |s.users.Keys|,
      CountOf(s.events, CommandUsed, None),
      CountOf(s.events, IdeaGenerated, None),
      CountOf(s.events, LeadCreated, None),
      CountOf(s.events, ErrorOccurred, None),
      (now - s.startTime) / 1000,
      Top(s.commandCounts),
      |ActiveSince(s.users, now - DayMs)|,
      |ActiveSince(s.users, now - WeekMs)|)
  }

  /** Counting distributes over concatenation. */
  lemma {:induction false} CountOfAppend(a: seq<Event>, b: seq<Event>, kind: EventType, user: Option<int>)
    ensures CountOf(a + b, kind, user) == CountOf(a, kind, user) + CountOf(b, kind, user)
    decreases |b|
  {
    if b == [] {
      assert a + b == a;
    } else {
      assert (a + b)[..|a + b| - 1] == a + b[..|b| - 1];
      assert (a + b)[|a + b| - 1] == b[|b| - 1];
      CountOfAppend(a, b[..|b| - 1], kind, user);
    }
  }

  /** The per-type totals count the buffer only: tracking an event adds one
      to its own type and, once the buffer is full, takes one off the type of
      the oldest event, which is dropped. */
  lemma TotalsFollowTheBuffer(s: Store, e: Event, now: int, kind: EventType)
    requires Valid(s)
    ensures var before := CountOf(s.events, kind, None);
      var after := CountOf(Track(s, e).events, kind, None);
      var added := if e.kind == kind then 1 else 0;
      && (|s.events| < MaxEvents ==> after == before + added)
      && (|s.events| == MaxEvents ==> after == before + added - (if s.events[0].kind == kind then 1 else 0))
  {
    CountOfAppend(s.events, [e], kind, None);
    assert [e][..0] == [];
    if |s.events| == MaxEvents {
      var pushed := s.events + [e];
      assert pushed == [s.events[0]] + pushed[1..];
      CountOfAppend([s.events[0]], pushed[1..], kind, None);
      assert [s.events[0]][..0] == [];
    }
  }

  /** `getUserStats(userId)`. */
  function GetUserStats(s: Store, u: int): (r: Option<UserStats>)
    ensures r.None? <==> u !in s.users
    ensures r.Some? ==> r.value == s.users[u]
  {
    if u in s.users then Some(s.users[u]) else None
  }

  /** Whether an event passes an exact-match filter on its type and user. */
  predicate Selected(e: Event, kind: Option<EventType>, user: Option<int>)
  {
    (kind.None? || e.kind == kind.value) && (user.None? || e.userId == user.value)
  }

  /** `events.filter(...)`: the events that pass, in their original order. */
  function Matching(events: seq<Event>, kind: Option<EventType>, user: Option<int>): (r: seq<Event>)
    ensures |r| <= |events|
  {
    if events == [] then []
    else
      var e := events[|events| - 1];
      Matching(events[..|events| - 1], kind, user) + (if Selected(e, kind, user) then [e] else [])
  }

  /** An event is in the filtered list iff it is in the buffer and passes. */
  lemma {:induction false} MatchingMembers(events: seq<Event>, kind: Option<EventType>, user: Option<int>)
    ensures forall x :: x in Matching(events, kind, user) <==> x in events && Selected(x, kind, user)
  {
    if events != [] {
      var prefix := events[..|events| - 1];
      MatchingMembers(prefix, kind, user);
      assert events == prefix + [events[|events| - 1]];
    }
  }

  /** Filtering keeps order: it distributes over concatenation. */
  lemma {:induction false} MatchingAppend(a: seq<Event>, b: seq<Event>, kind: Option<EventType>, user: Option<int>)
    ensures Matching(a + b, kind, user) == Matching(a, kind, user) + Matching(b, kind, user)
    decreases |b|
  {
    if b == [] {
      assert a + b == a;
    } else {
      var ab := a + b;
      assert ab[..|ab| - 1] == a + b[..|b| - 1];
      assert ab[|ab| - 1] == b[|b| - 1];
      MatchingAppend(a, b[..|b| - 1], kind, user);
    }
  }

  /** The type filter finds exactly as many events as the type totals count. */
  lemma {:induction false} MatchingCountsType(events: seq<Event>, kind: EventType)
    ensures |Matching(events, Some(kind), None)| == CountOf(events, kind, None)
  {
    if events != [] {
      MatchingCountsType(events[..|events| - 1], kind);
    }
  }

  /** `getRecentEvents(limit)`. */
  function GetRecentEvents(s: Store, limit: int): (r: seq<Event>)
    ensures limit > 0 ==> |r| == Min(limit, |s.events|) && r == s.events[|s.events| - |r|..]
    ensures limit == 0 ==> r == s.events
  {
    LastUpTo(s.events, limit)
  }

  /** `getEventsByType(type, limit)`. */
  function GetEventsByType(s: Store, kind: EventType, limit: int): (r: seq<Event>)
    ensures forall x :: x in r ==> x in s.events && x.kind == kind
    ensures limit > 0 ==> |r| == Min(limit, CountOf(s.events, kind, None))
    ensures limit == 0 ==> |r| == CountOf(s.events, kind, None)
    ensures limit > 0 ==> |r| <= |Matching(s.events, Some(kind), None)|
                          && r == Matching(s.events, Some(kind), None)[|Matching(s.events, Some(kind), None)| - |r|..]
    ensures limit == 0 ==> r == Matching(s.events, Some(kind), None)
  {
    MatchingCountsType(s.events, kind);
    MatchingMembers(s.events, Some(kind), None);
    var matching := Matching(s.events, Some(kind), None);
    LastUpToWithin(matching, limit);
    var r := LastUpTo(matching, limit);
    assert forall x :: x in r ==> x in s.events && Selected(x, Some(kind), None);
    r
  }

  /** `getEventsByUser(userId, limit)`. */
  function GetEventsByUser(s: Store, u: int, limit: int): (r: seq<Event>)
    ensures forall x :: x in r ==> x in s.events && x.userId == u
    ensures limit > 0 ==> |r| == Min(limit, |Matching(s.events, None, Some(u))|)
    ensures limit > 0 ==> r == Matching(s.events, None, Some(u))[|Matching(s.events, None, Some(u))| - |r|..]
    ensures limit == 0 ==> r == Matching(s.events, None, Some(u))
  {
    MatchingMembers(s.events, None, Some(u));
    var matching := Matching(s.events, None, Some(u));
    LastUpToWithin(matching, limit);
    var r := LastUpTo(matching, limit);
    assert forall x :: x in r ==> x in s.events && Selected(x, None, Some(u));
    r
  }

  /** A just-tracked event comes last in its sender's by-user query,
      whatever positive limit is asked for. */
  lemma NewestEventComesLast(s: Store, e: Event, limit: int)
    requires Valid(s) && limit > 0
    ensures var r := GetEventsByUser(Track(s, e), e.userId, limit);
      |r| > 0 && r[|r| - 1] == e
  {
    var t := Track(s, e);
    assert t.events[|t.events| - 1] == e;
    var n := |t.events|;
    assert t.events == t.events[..n - 1] + [e];
    MatchingAppend(t.events[..n - 1], [e], None, Some(e.userId));
    assert [e][..0] == [];
  }

  /** `clearOldEvents()`: keeps the newest 1000. */
  function ClearOldEvents(s: Store): (r: Store)
    ensures |r.events| <= MaxEvents
    ensures r.events == LastUpTo(s.events, MaxEvents)
    ensures r.users == s.users && r.commandCounts == s.commandCounts
  {
    if |s.events| > MaxEvents then s.(events := s.events[|s.events| - MaxEvents..]) else s
  }

  /** On a store `track` keeps within bounds, clearing changes nothing. */
  lemma ClearingAValidStoreIsANoOp(s: Store)
    requires Valid(s)
    ensures ClearOldEvents(s) == s
  {
  }
}
