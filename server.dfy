/** The API server's action-event log and engine cache: which actions are
    still open, how completions and skips are recorded, the single-entry
    cache in front of the engine, and the route matcher. The log lives in a
    file in the server; here it is the `events` field of `ApiServer`. */
module Server {
  import opened Common
  import opened Sequences

  // ---------------------------------------------------------------------
  // Events and engine output
  // ---------------------------------------------------------------------

  /** The kind of a log entry; the log file may hold kinds this server
      never writes. */
  datatype EventType = ActionCompleted | ActionSkipped | OtherEvent(name: string)

  /** One entry of the action-event log. `at` is `completedAt` or
      `skippedAt`, `actor` is `completedBy` or `skippedBy`, and `reason` is
      only ever set on skips. */
  datatype Event = Event(eventId: string, actionId: string, eventType: EventType,
                         at: string, actor: string, reason: Option<string>, timestamp: string)

  /** An action as the engine returns it; only `actionId` matters here,
      the rest of the record is carried along untouched. */
  datatype EngineAction = EngineAction(actionId: string, record: string)

  /** What the engine's `compute` returns. */
  datatype EngineOutput = EngineOutput(actions: seq<EngineAction>, companies: seq<string>, meta: string)

  /** The parsed portfolio file that `compute` reads. */
  datatype PortfolioData = PortfolioData(raw: string)

  /** The reply to `GET /api/actions/today`: the top available action, or
      `{action: null}` when there is none (both 200), or the 500 the server
      sends when loading the portfolio or running the engine throws. */
  datatype TodayReply = TopOf(action: Option<EngineAction>) | InternalError

  /** An event that takes an action off the list: a completion or a skip. */
  predicate Closes(e: Event)
  {
    e.eventType == ActionCompleted || e.eventType == ActionSkipped
  }

  /** Some completion or skip in the log names `id`. */
  predicate Closed(events: seq<Event>, id: string)
  {
    exists e :: e in events && Closes(e) && e.actionId == id
  }

  /** The test `filterCompletedActions` applies to each action. */
  function Open(events: seq<Event>): EngineAction -> bool
  {
    (a: EngineAction) => !Closed(events, a.actionId)
  }

  /** `filterCompletedActions(actions, events)`: the actions, in their
      order, whose id no completion or skip in the log names. */
  function FilterCompletedActions(actions: seq<EngineAction>, events: seq<Event>): (r: seq<EngineAction>)
    ensures |r| <= |actions|
    ensures forall a :: a in r <==> a in actions && !Closed(events, a.actionId)
  {
    Filter(actions, Open(events))
  }

  /** Filtering an already filtered list against the same log changes nothing. */
  lemma FilterCompletedIdempotent(actions: seq<EngineAction>, events: seq<Event>)
    ensures FilterCompletedActions(FilterCompletedActions(actions, events), events)
         == FilterCompletedActions(actions, events)
  {
    FilterIdempotent(actions, Open(events));
  }

  /** With an empty log every action is available, in its original order. */
  lemma EmptyLogKeepsAll(actions: seq<EngineAction>)
    ensures FilterCompletedActions(actions, []) == actions
  {
    FilterAll(actions, Open([]));
  }

  /** Appending a completion or skip removes exactly the actions with that
      id from the available list, and keeps the others in order. */
  lemma ClosingEventRemoves(actions: seq<EngineAction>, events: seq<Event>, e: Event)
    requires Closes(e)
    ensures FilterCompletedActions(actions, events + [e])
         == Filter(FilterCompletedActions(actions, events), (a: EngineAction) => a.actionId != e.actionId)
  {
    forall a | a in actions
      ensures Open(events + [e])(a) == (Open(events)(a) && a.actionId != e.actionId)
    {
      if a.actionId == e.actionId {
        assert e in events + [e];
      }
      if Closed(events, a.actionId) {
        var w :| w in events && Closes(w) && w.actionId == a.actionId;
        assert w in events + [e];
      }
    }
    FilterThen(actions, Open(events), (a: EngineAction) => a.actionId != e.actionId, Open(events + [e]));
  }

  /** An entry of any other kind leaves the available list as it was. */
  lemma OtherEventKeeps(actions: seq<EngineAction>, events: seq<Event>, e: Event)
    requires !Closes(e)
    ensures FilterCompletedActions(actions, events + [e]) == FilterCompletedActions(actions, events)
  {
    forall a | a in actions
      ensures Open(events + [e])(a) == Open(events)(a)
    {
      if Closed(events, a.actionId) {
        var w :| w in events && Closes(w) && w.actionId == a.actionId;
        assert w in events + [e];
      }
    }
    FilterCongruent(actions, Open(events + [e]), Open(events));
  }

  /** The action "today" serves: the first available one, or nothing (the
      `{action: null}` reply). */
  function TopAction(actions: seq<EngineAction>, events: seq<Event>): (r: Option<EngineAction>)
    ensures r.None? <==> forall a :: a in actions ==> Closed(events, a.actionId)
    ensures r.Some? ==> r.value in actions && !Closed(events, r.value.actionId)
  {
    var available := FilterCompletedActions(actions, events);
    if available == [] then None
    else
      assert available[0] in available;
      Some(available[0])
  }

  /** The action served is the first one, in engine order, that is still
      open: every action ahead of it has been completed or skipped. */
  lemma TopActionIsFirstOpen(actions: seq<EngineAction>, events: seq<Event>)
    requires TopAction(actions, events).Some?
    ensures exists i :: (0 <= i < |actions| && actions[i] == TopAction(actions, events).value
                         && forall j :: 0 <= j < i ==> Closed(events, actions[j].actionId))
  {
    FilterFirst(actions, Open(events));
  }

  // ---------------------------------------------------------------------
  // Recording completions and skips
  // ---------------------------------------------------------------------

  /** The JSON body of a complete or skip request. `at` is `completedAt`
      for a completion and `skippedAt` for a skip. */
  datatype RequestBody = RequestBody(actionId: Option<string>, at: Option<string>, reason: Option<string>)

  /** How a complete or skip request ends: 204, one of the two 400s, or 409. */
  datatype Outcome = Recorded | InvalidActionId | TimestampRequired | AlreadyCompleted

  function StatusCode(o: Outcome): int
  {
    match o
    case Recorded => 204
    case InvalidActionId => 400
    case TimestampRequired => 400
    case AlreadyCompleted => 409
  }

  /** The body names an id, and it is the id in the path. */
  predicate IdMatches(body: RequestBody, pathId: string)
  {
    TruthyString(body.actionId) && body.actionId.value == pathId
  }

  /** The log already holds a completion of `id`. */
  predicate IsCompleted(events: seq<Event>, id: string)
  {
    exists e :: e in events && e.actionId == id && e.eventType == ActionCompleted
  }

  /** The decision of `POST /api/actions/:id/complete` on a log. */
  function CompleteOutcome(events: seq<Event>, pathId: string, body: RequestBody): Outcome
  {
    if !IdMatches(body, pathId) then InvalidActionId
    else if !TruthyString(body.at) then TimestampRequired
    else if IsCompleted(events, pathId) then AlreadyCompleted
    else Recorded
  }

  /** The decision of `POST /api/actions/:id/skip`: the log plays no part. */
  function SkipOutcome(pathId: string, body: RequestBody): Outcome
  {
    if !IdMatches(body, pathId) then InvalidActionId
    else if !TruthyString(body.at) then TimestampRequired
    else Recorded
  }

  /** The entry a completion appends. */
  function CompletionEvent(actionId: string, completedAt: string, eventId: string, timestamp: string): Event
  {
    Event(eventId, actionId, ActionCompleted, completedAt, "user", None, timestamp)
  }

  /** The entry a skip appends; an empty reason is stored as null. */
  function SkipEvent(actionId: string, skippedAt: string, reason: Option<string>, eventId: string, timestamp: string): Event
  {
    Event(eventId, actionId, ActionSkipped, skippedAt, "user",
          if TruthyString(reason) then reason else None, timestamp)
  }

  /** A completion is accepted exactly when the ids agree, the timestamp
      is present, and no completion of that id is logged yet. */
  lemma CompleteAccepts(events: seq<Event>, pathId: string, body: RequestBody)
    ensures CompleteOutcome(events, pathId, body) == Recorded
        <==> IdMatches(body, pathId) && TruthyString(body.at) && !IsCompleted(events, pathId)
  {
  }

  /** Once a completion is recorded, the same request again is a conflict. */
  lemma SecondCompletionConflicts(events: seq<Event>, pathId: string, body: RequestBody,
                                  eventId: string, timestamp: string)
    requires CompleteOutcome(events, pathId, body) == Recorded
    ensures CompleteOutcome(events + [CompletionEvent(pathId, body.at.value, eventId, timestamp)], pathId, body)
         == AlreadyCompleted
  {
    var e := CompletionEvent(pathId, body.at.value, eventId, timestamp);
    assert e in events + [e];
  }

  /** A skip never blocks a later completion: appending a skip leaves
      every completion decision as it was. */
  lemma SkipKeepsCompletion(events: seq<Event>, pathId: string, body: RequestBody,
                            skippedAt: string, reason: Option<string>, eventId: string, timestamp: string)
    ensures CompleteOutcome(events + [SkipEvent(pathId, skippedAt, reason, eventId, timestamp)], pathId, body)
         == CompleteOutcome(events, pathId, body)
  {
    var e := SkipEvent(pathId, skippedAt, reason, eventId, timestamp);
    if IsCompleted(events + [e], pathId) {
      var w :| w in events + [e] && w.actionId == pathId && w.eventType == ActionCompleted;
      assert w in events;
    }
    if IsCompleted(events, pathId) {
      var w :| w in events && w.actionId == pathId && w.eventType == ActionCompleted;
      assert w in events + [e];
    }
  }

  // ---------------------------------------------------------------------
  // The cache and the handlers
  // ---------------------------------------------------------------------

  const CACHE_TTL_MS: int := 60000

  /** The stored result is served at `now`: one is stored, its timestamp is
      truthy (non-zero), and it is less than the time-to-live old. */
  predicate Fresh(cached: Option<EngineOutput>, stamp: Option<int>, now: int)
  {
    cached.Some? && stamp.Some? && stamp.value != 0 && now - stamp.value < CACHE_TTL_MS
  }

  /** A result stored at a non-zero time is served for the following
      time-to-live, and an emptied cache is never served. */
  lemma StoredIsFresh(r: EngineOutput, stored: int, later: int)
    ensures Fresh(Some(r), Some(stored), later) <==> stored != 0 && later < stored + CACHE_TTL_MS
    ensures !Fresh(None, None, later)
  {
  }

  class ApiServer {
    var events: seq<Event>
    var cachedResult: Option<EngineOutput>
    var cacheTimestamp: Option<int>
    const data: PortfolioData
    /** Loading the portfolio and running the engine at a given time: the
        output, or `None` when either throws. */
    const compute: (PortfolioData, int) -> Option<EngineOutput>

    /** The state at start-up: the log as loaded, nothing cached. */
    constructor (data: PortfolioData, compute: (PortfolioData, int) -> Option<EngineOutput>, events: seq<Event>)
      ensures this.data == data && this.compute == compute && this.events == events
      ensures cachedResult == None && cacheTimestamp == None
    {
      this.data := data;
      this.compute := compute;
      this.events := events;
      cachedResult := None;
      cacheTimestamp := None;
    }

    /** What a read at `now` returns: the stored result while it is fresh,
        a new computation otherwise, which may fail. */
    function Served(now: int): Option<EngineOutput>
      reads this
    {
      if Fresh(cachedResult, cacheTimestamp, now) then Some(cachedResult.value) else compute(data, now)
    }

    /** The cache after a read at `now`: untouched while fresh or when the
        computation fails (a failed compute is never stored); otherwise the
        new result, stamped `now`. */
    twostate predicate CacheAfterRead(now: int, new r: Option<EngineOutput>)
      reads this
    {
      && (Fresh(old(cachedResult), old(cacheTimestamp), now) || r.None? ==>
            cachedResult == old(cachedResult) && cacheTimestamp == old(cacheTimestamp))
      && (!Fresh(old(cachedResult), old(cacheTimestamp), now) && r.Some? ==>
            cachedResult == r && cacheTimestamp == Some(now))
    }

    /** `getEngineOutput()` at time `now`; `None` is the exception thrown
        by `loadPortfolioData` or `compute`. */
    method GetEngineOutput(now: int) returns (r: Option<EngineOutput>)
      modifies this
      ensures r == old(Served(now))
      ensures CacheAfterRead(now, r)
      ensures events == old(events)
    {
      if cachedResult.Some? && cacheTimestamp.Some? && cacheTimestamp.value != 0
         && now - cacheTimestamp.value < CACHE_TTL_MS {
        return cachedResult;
      }
      r := compute(data, now);
      if r.None? {
        return;
      }
      cachedResult := r;
      cacheTimestamp := Some(now);
    }

    /** `invalidateCache()`: the next read computes afresh. */
    method InvalidateCache()
      modifies this
      ensures cachedResult == None && cacheTimestamp == None
      ensures events == old(events)
      ensures forall now :: Served(now) == compute(data, now)
    {
      cachedResult := None;
      cacheTimestamp := None;
    }

    /** `GET /api/actions/today` at time `now`: the first available action
        of the engine output, `{action: null}` when none is, or the 500 of
        the request wrapper when the engine run throws. The read leaves the
        cache as `getEngineOutput` does. */
    method Today(now: int) returns (reply: TodayReply)
      modifies this
      ensures old(Served(now)).Some? ==> reply == TopOf(TopAction(old(Served(now)).value.actions, events))
      ensures old(Served(now)).None? ==> reply == InternalError
      ensures CacheAfterRead(now, old(Served(now)))
      ensures events == old(events)
    {
      var output := GetEngineOutput(now);
      if output.None? {
        return InternalError;
      }
      var available := FilterCompletedActions(output.value.actions, events);
      if |available| == 0 {
        return TopOf(None);
      }
      reply := TopOf(Some(available[0]));
    }

    /** `POST /api/actions/:id/complete`. The fresh event id and the
        timestamp are inputs. */
    method Complete(pathId: string, body: RequestBody, eventId: string, timestamp: string)
      returns (outcome: Outcome)
      modifies this
      ensures outcome == CompleteOutcome(old(events), pathId, body)
      ensures outcome == Recorded ==>
                events == old(events) + [CompletionEvent(pathId, body.at.value, eventId, timestamp)]
                && cachedResult == None && cacheTimestamp == None
      ensures outcome != Recorded ==>
                events == old(events) && cachedResult == old(cachedResult) && cacheTimestamp == old(cacheTimestamp)
    {
      if !TruthyString(body.actionId) || body.actionId.value != pathId {
        return InvalidActionId;
      }
      if !TruthyString(body.at) {
        return TimestampRequired;
      }
      var actionId := body.actionId.value;
      var alreadyCompleted := exists e :: e in events && e.actionId == actionId && e.eventType == ActionCompleted;
      if alreadyCompleted {
        return AlreadyCompleted;
      }
      events := events + [CompletionEvent(actionId, body.at.value, eventId, timestamp)];
      InvalidateCache();
      return Recorded;
    }

    /** `POST /api/actions/:id/skip`: the same checks without the
        duplicate guard, so a valid skip is always appended. */
    method Skip(pathId: string, body: RequestBody, eventId: string, timestamp: string)
      returns (outcome: Outcome)
      modifies this
      ensures outcome == SkipOutcome(pathId, body)
      ensures outcome == Recorded ==>
                events == old(events) + [SkipEvent(pathId, body.at.value, body.reason, eventId, timestamp)]
                && cachedResult == None && cacheTimestamp == None
      ensures outcome != Recorded ==>
                events == old(events) && cachedResult == old(cachedResult) && cacheTimestamp == old(cacheTimestamp)
    {
      if !TruthyString(body.actionId) || body.actionId.value != pathId {
        return InvalidActionId;
      }
      if !TruthyString(body.at) {
        return TimestampRequired;
      }
      var actionId := body.actionId.value;
      events := events + [SkipEvent(actionId, body.at.value, body.reason, eventId, timestamp)];
      InvalidateCache();
      return Recorded;
    }

    /** `DELETE /api/events`: empties the log and the cache. */
    method ClearEvents()
      modifies this
      ensures events == [] && cachedResult == None && cacheTimestamp == None
    {
      events := [];
      InvalidateCache();
    }
  }

  // ---------------------------------------------------------------------
  // Routing
  // ---------------------------------------------------------------------

  /** A route-table entry `"METHOD path"`; the handler it names is the
      entry itself. */
  datatype Route = Route(verb: string, path: string)

  /** The table's key for a route. */
  function Key(r: Route): string
  {
    r.verb + " " + r.path
  }

  /** The route table, in declaration order. */
  const ROUTES: seq<Route> := [
    Route("GET", "/api/health"),
    Route("GET", "/api/actions"),
    Route("GET", "/api/actions/today"),
    Route("GET", "/api/actions/:id"),
    Route("POST", "/api/actions/:id/complete"),
    Route("POST", "/api/actions/:id/skip"),
    Route("GET", "/api/companies"),
    Route("GET", "/api/companies/:id"),
    Route("GET", "/api/events"),
    Route("DELETE", "/api/events"),
    Route("GET", "/api/meta")
  ]

  /** A route found for a request, with the path parameters it binds. */
  datatype RouteMatch = RouteMatch(route: Route, params: map<string, string>)

  /** `s.split(sep)`: the pieces between separators, empty ones included. */
  function Split(s: string, sep: char): (parts: seq<string>)
    ensures |parts| >= 1
    ensures forall i :: 0 <= i < |parts| ==> sep !in parts[i]
  {
    if s == [] then [""]
    else
      var rest := Split(s[1..], sep);
      if s[0] == sep then [""] + rest
      else [[s[0]] + rest[0]] + rest[1..]
  }

  /** `parts.join(sep)`. */
  function Join(parts: seq<string>, sep: char): string
    requires |parts| >= 1
  {
    if |parts| == 1 then parts[0] else parts[0] + [sep] + Join(parts[1..], sep)
  }

  /** Splitting loses nothing: joining the pieces gives the string back. */
  lemma {:induction false} SplitJoin(s: string, sep: char)
    ensures Join(Split(s, sep), sep) == s
  {
    if s != [] {
      SplitJoin(s[1..], sep);
      var rest := Split(s[1..], sep);
      if s[0] == sep {
        assert Split(s, sep)[1..] == rest;
      } else {
        var parts := Split(s, sep);
        assert parts[0] == [s[0]] + rest[0] && parts[1..] == rest[1..];
        if |rest| > 1 {
          assert Join(rest, sep) == rest[0] + [sep] + Join(rest[1..], sep);
        }
      }
    }
  }

  /** A piece without separators splits into itself. */
  lemma {:induction false} SplitPiece(piece: string, sep: char)
    requires sep !in piece
    ensures Split(piece, sep) == [piece]
  {
    if piece != [] {
      SplitPiece(piece[1..], sep);
      assert [piece[0]] + piece[1..] == piece;
    }
  }

  /** A separator-free piece followed by a separator splits off as the
      first part. */
  lemma {:induction false} SplitAfterPiece(piece: string, sep: char, rest: string)
    requires sep !in piece
    ensures Split(piece + [sep] + rest, sep) == [piece] + Split(rest, sep)
  {
    var s := piece + [sep] + rest;
    if piece == [] {
      assert s[0] == sep && s[1..] == rest;
    } else {
      assert s[0] == piece[0] && s[1..] == piece[1..] + [sep] + rest;
      SplitAfterPiece(piece[1..], sep, rest);
      assert [piece[0]] + piece[1..] == piece;
    }
  }

  /** Joining separator-free pieces and splitting again gives the pieces. */
  lemma {:induction false} JoinSplit(parts: seq<string>, sep: char)
    requires |parts| >= 1
    requires forall i :: 0 <= i < |parts| ==> sep !in parts[i]
    ensures Split(Join(parts, sep), sep) == parts
  {
    if |parts| == 1 {
      SplitPiece(parts[0], sep);
    } else {
      JoinSplit(parts[1..], sep);
      SplitAfterPiece(parts[0], sep, Join(parts[1..], sep));
      assert [parts[0]] + parts[1..] == parts;
    }
  }

  /** A `:`-prefixed pattern segment binds a parameter. */
  predicate IsParam(segment: string)
  {
    |segment| > 0 && segment[0] == ':'
  }

  /** Every literal segment of the pattern equals the path's segment at
      the same place, and the two have as many segments. */
  predicate SegmentsMatch(routeParts: seq<string>, pathParts: seq<string>)
  {
    |routeParts| == |pathParts|
    && forall i :: 0 <= i < |routeParts| && !IsParam(routeParts[i]) ==> routeParts[i] == pathParts[i]
  }

  /** The parameters bound by the first `n` segments, later bindings of a
      name overriding earlier ones. */
  function Bind(routeParts: seq<string>, pathParts: seq<string>, n: nat): map<string, string>
    requires n <= |routeParts| && n <= |pathParts|
  {
    if n == 0 then map[]
    else if IsParam(routeParts[n - 1]) then Bind(routeParts, pathParts, n - 1)[routeParts[n - 1][1..] := pathParts[n - 1]]
    else Bind(routeParts, pathParts, n - 1)
  }

  /** A pattern matches with the same method and matching segments. */
  predicate PatternMatches(r: Route, verb: string, pathname: string)
  {
    r.verb == verb && SegmentsMatch(Split(r.path, '/'), Split(pathname, '/'))
  }

  /** The parameters a matching pattern binds. */
  function Params(r: Route, pathname: string): map<string, string>
    requires SegmentsMatch(Split(r.path, '/'), Split(pathname, '/'))
  {
    var routeParts := Split(r.path, '/');
    Bind(routeParts, Split(pathname, '/'), |routeParts|)
  }

  /** The table entry stored under `key`, if any. */
  function Lookup(routes: seq<Route>, key: string): (r: Option<Route>)
    ensures r.None? <==> forall i :: 0 <= i < |routes| ==> Key(routes[i]) != key
    ensures r.Some? ==> r.value in routes && Key(r.value) == key
  {
    if routes == [] then None
    else if Key(routes[0]) == key then Some(routes[0])
    else Lookup(routes[1..], key)
  }

  /** The first pattern, in table order, that matches. */
  function FirstPattern(routes: seq<Route>, verb: string, pathname: string): (r: Option<RouteMatch>)
    ensures r.None? <==> forall i :: 0 <= i < |routes| ==> !PatternMatches(routes[i], verb, pathname)
    ensures r.Some? ==> r.value.route in routes && PatternMatches(r.value.route, verb, pathname)
                        && r.value.params == Params(r.value.route, pathname)
  {
    if routes == [] then None
    else if PatternMatches(routes[0], verb, pathname) then
      Some(RouteMatch(routes[0], Params(routes[0], pathname)))
    else
      var r := FirstPattern(routes[1..], verb, pathname);
      assert forall i :: 1 <= i < |routes| ==> routes[i] == routes[1..][i - 1];
      r
  }

  /** What `matchRoute(method, pathname)` finds: the exact entry with no
      parameters, else the first matching pattern, else nothing. */
  function RouteFor(routes: seq<Route>, verb: string, pathname: string): Option<RouteMatch>
  {
    match Lookup(routes, verb + " " + pathname)
    case Some(r) => Some(RouteMatch(r, map[]))
    case None => FirstPattern(routes, verb, pathname)
  }

  /** A request finds no route exactly when no key equals it and no
      pattern matches it. */
  lemma RouteForNone(routes: seq<Route>, verb: string, pathname: string)
    ensures RouteFor(routes, verb, pathname).None? <==>
            forall i :: 0 <= i < |routes| ==>
              Key(routes[i]) != verb + " " + pathname && !PatternMatches(routes[i], verb, pathname)
  {
  }

  /** A route found is in the table, and is either the exact entry or a
      pattern of the same method whose segments match. */
  lemma RouteForSound(routes: seq<Route>, verb: string, pathname: string)
    requires RouteFor(routes, verb, pathname).Some?
    ensures var m := RouteFor(routes, verb, pathname).value;
            m.route in routes
            && ((Key(m.route) == verb + " " + pathname && m.params == map[])
                || (PatternMatches(m.route, verb, pathname) && m.params == Params(m.route, pathname)))
  {
  }

  /** Every parameter name of a matching pattern is bound, to the path
      segment under its last occurrence. */
  lemma {:induction false} BindLast(routeParts: seq<string>, pathParts: seq<string>, n: nat, i: nat)
    requires n <= |routeParts| && n <= |pathParts|
    requires i < n && IsParam(routeParts[i])
    requires forall j :: i < j < n && IsParam(routeParts[j]) ==> routeParts[j][1..] != routeParts[i][1..]
    ensures routeParts[i][1..] in Bind(routeParts, pathParts, n)
    ensures Bind(routeParts, pathParts, n)[routeParts[i][1..]] == pathParts[i]
  {
    if i < n - 1 {
      BindLast(routeParts, pathParts, n - 1, i);
    }
  }

  /** Every name bound comes from a parameter segment. */
  lemma {:induction false} BindNames(routeParts: seq<string>, pathParts: seq<string>, n: nat, name: string)
    requires n <= |routeParts| && n <= |pathParts|
    requires name in Bind(routeParts, pathParts, n)
    ensures exists i :: 0 <= i < n && IsParam(routeParts[i]) && routeParts[i][1..] == name
  {
    if IsParam(routeParts[n - 1]) && routeParts[n - 1][1..] == name {
    } else {
      BindNames(routeParts, pathParts, n - 1, name);
    }
  }

  /** The segment-by-segment loop of `matchRoute` for one pattern of the
      right length: it fails at the first differing literal segment and
      otherwise binds every parameter. */
  method MatchSegments(routeParts: seq<string>, pathParts: seq<string>)
    returns (matched: bool, params: map<string, string>)
    requires |routeParts| == |pathParts|
    ensures matched == SegmentsMatch(routeParts, pathParts)
    ensures matched ==> params == Bind(routeParts, pathParts, |routeParts|)
  {
    params := map[];
    matched := true;
    var i := 0;
    while i < |routeParts|
      invariant 0 <= i <= |routeParts|
      invariant params == Bind(routeParts, pathParts, i)
      invariant forall j :: 0 <= j < i && !IsParam(routeParts[j]) ==> routeParts[j] == pathParts[j]
    {
      if IsParam(routeParts[i]) {
        params := params[routeParts[i][1..] := pathParts[i]];
      } else if routeParts[i] != pathParts[i] {
        matched := false;
        return;
      }
      i := i + 1;
    }
  }

  /** One pass of `matchRoute`'s loop: the method must agree and the
      path must have as many segments as the pattern before the segments
      are compared. */
  method MatchPattern(route: Route, verb: string, pathname: string)
    returns (matched: bool, params: map<string, string>)
    ensures matched == PatternMatches(route, verb, pathname)
    ensures matched ==> params == Params(route, pathname)
  {
    params := map[];
    if route.verb != verb {
      return false, params;
    }
    var routeParts := Split(route.path, '/');
    var pathParts := Split(pathname, '/');
    if |routeParts| != |pathParts| {
      return false, params;
    }
    matched, params := MatchSegments(routeParts, pathParts);
  }

  /** `matchRoute(method, pathname)` over the table `routes`. */
  method MatchRoute(routes: seq<Route>, verb: string, pathname: string) returns (r: Option<RouteMatch>)
    ensures r == RouteFor(routes, verb, pathname)
  {
    var exact := Lookup(routes, verb + " " + pathname);
    if exact.Some? {
      return Some(RouteMatch(exact.value, map[]));
    }
    var k := 0;
    while k < |routes|
      invariant 0 <= k <= |routes|
      invariant FirstPattern(routes, verb, pathname) == FirstPattern(routes[k..], verb, pathname)
    {
      assert routes[k..][0] == routes[k] && routes[k..][1..] == routes[k + 1..];
      var matched, params := MatchPattern(routes[k], verb, pathname);
      if matched {
        return Some(RouteMatch(routes[k], params));
      }
      k := k + 1;
    }
    return None;
  }
}
