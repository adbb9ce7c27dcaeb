/** The analytics middleware (middleware/analytics.ts): records commands and
    first contacts in the analytics store, then hands the update on. */
module AnalyticsMiddleware {
  import opened JsCore
  import opened JsString
  import opened Stores
  import opened Analytics

  /** The command of a message starting with '/': its first space-separated
      word without the slash. */
  function CommandOf(text: string): (command: string)
    requires StartsWith(text, "/")
    ensures "/" + command == FirstSegment(text, ' ')
    ensures ' ' !in command
  {
    var word := FirstSegment(text, ' ');
    assert word[0] == '/';
    word[1..]
  }

  /** The command survives whatever arguments follow it. */
  lemma CommandIgnoresArguments(command: string, arguments: string)
    requires ' ' !in command
    ensures CommandOf("/" + command + " " + arguments) == command
  {
    var text := "/" + command + " " + arguments;
    assert text == ("/" + command) + [' '] + arguments;
    FirstSegmentOfJoin("/" + command, ' ', arguments);
  }

  /** "/idea sales" is the command "idea"; a bare "/" is the empty command. */
  lemma CommandExamples()
    ensures CommandOf("/idea sales") == "idea"
    ensures CommandOf("/") == ""
  {
    CommandIgnoresArguments("idea", "sales");
    assert "/" + "idea" + " " + "sales" == "/idea sales";
    FirstSegmentNoSep("/", ' ');
  }

  /** What the middleware did: the store afterwards and how often `next` ran. */
  datatype Tracked = Tracked(store: Store, nextCalls: nat)

  /** Whether the update is a text message opening with '/'. */
  predicate IsCommand(text: Option<string>)
    ensures IsCommand(text) <==> text.Some? && |text.value| > 0 && text.value[0] == '/'
  {
    text.Some? && StartsWith(text.value, "/")
  }

  /** `analyticsMiddleware` on an update from `userId` carrying `text` (`None`
      for updates that are not text messages) at time `now`. */
  function AnalyticsStep(s: Store, userId: Option<int>, username: Option<string>, text: Option<string>, now: int): (r: Tracked)
    requires Valid(s)
    ensures Valid(r.store)
    ensures r.nextCalls == 1
    ensures !TruthyId(userId) ==> r.store == s
    ensures TruthyId(userId) ==> r.store.users.Keys == s.users.Keys + {userId.value}
    ensures TruthyId(userId) ==> |r.store.events| == Min(|s.events| + (if IsCommand(text) then 1 else 0)
                                                          + (if userId.value !in s.users && !IsCommand(text) then 1 else 0),
                                                          MaxEvents)
    ensures TruthyId(userId) && IsCommand(text) ==>
              r.store.events[|r.store.events| - 1] == Event(CommandUsed, userId.value, username, now, Some(CommandOf(text.value)))
    ensures TruthyId(userId) && userId.value !in s.users && !IsCommand(text) ==>
              r.store.events[|r.store.events| - 1] == Event(UserRegistered, userId.value, username, now, None)
    ensures forall k :: Get(r.store.commandCounts, k) == Get(s.commandCounts, k)
              + (if TruthyId(userId) && IsCommand(text) && CommandOf(text.value) != "" && k == CommandOf(text.value) then 1 else 0)
  {
    if !TruthyId(userId) then Tracked(s, 1)
    else
      var u := userId.value;
      var afterCommand := if IsCommand(text)
        then Track(s, Event(CommandUsed, u, username, now, Some(CommandOf(text.value))))
        else s;
      var afterRegistration := if GetUserStats(afterCommand, u).None?
        then Track(afterCommand, Event(UserRegistered, u, username, now, None))
        else afterCommand;
      Tracked(afterRegistration, 1)
  }

  /** A first-ever message that is a command records the command but no
      registration: the command event already created the user's record. */
  lemma FirstCommandRecordsNoRegistration(s: Store, u: int, username: Option<string>, text: string, now: int)
    requires Valid(s) && u != 0 && u !in s.users && StartsWith(text, "/")
    ensures var r := AnalyticsStep(s, Some(u), username, Some(text), now).store;
      && u in r.users
      && r.users[u].totalCommands == 1
      && r.events == LastUpTo(s.events + [Event(CommandUsed, u, username, now, Some(CommandOf(text)))], MaxEvents)
  {
  }

  /** A first-ever message that is not a command registers the user, once:
      the next such message records nothing. */
  lemma PlainFirstMessageRegistersOnce(s: Store, u: int, username: Option<string>, text: Option<string>, now: int, later: int)
    requires Valid(s) && u != 0 && u !in s.users && !IsCommand(text)
    ensures var once := AnalyticsStep(s, Some(u), username, text, now).store;
      && once.events == LastUpTo(s.events + [Event(UserRegistered, u, username, now, None)], MaxEvents)
      && AnalyticsStep(once, Some(u), username, text, later).store == once
  {
  }
}
