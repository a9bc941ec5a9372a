/**
 Serving one request, and what the books say about it (internal/gateway/gateway.go,
 internal/gateway/proxy.go).

 Verdicts of foreign code (the limiter's backend, reading the request body, building the upstream
 request, the upstream exchange, the request's context) are fields of a World.
 */
module Serving {
  import opened Streaming
  import opened LogRing
  import opened Runtime
  import opened Stats
  import W = SlidingWindow

  // ---------------------------------------------------------------- inputs

  /** `bearer` is the bearer token, empty if there is none. */
  datatype Request = Request(verb: string, path: string, uri: string, bearer: string)

  datatype LimiterReply = Replied(answer: W.Answer) | LimiterDown

  datatype BodyVerdict = TooLarge | Unreadable | Ready(contentLength: int)

  datatype Upstream = Unreachable | Responds(status: int, script: seq<Chunk>)

  datatype World = World(
    start: int,
    readiness: int,
    limiter: LimiterReply,
    body: BodyVerdict,
    requestBuilds: bool,
    headersApply: bool,
    upstream: Upstream,
    goneAfterCopy: bool,
    goneAtEnd: bool,
    errorText: string)

  /** Readers fit the buffer and end; WriteHeader panics on a status outside 100..999. */
  ghost predicate Plausible(world: World) {
    && world.upstream.Responds? ==>
         && 100 <= world.upstream.status <= 999
         && Ends(world.upstream.script, 0)
         && ReaderContract(world.upstream.script)
  }

  // ---------------------------------------------------------------- what is kept

  datatype Tallies = Tallies(
    requests: nat, requests2xx: nat, requests4xx: nat, requests5xx: nat,
    bytesIn: int, bytesOut: nat, inFlight: int,
    upstreamErrors: nat, authFailures: nat, rateLimited: nat, backendErrors: nat)

  const NO_TALLIES: Tallies := Tallies(0, 0, 0, 0, 0, 0, 0, 0, 0, 0, 0)

  /** The global counters, everything ever logged, and what this client was sent. */
  datatype View = View(tallies: Tallies, history: seq<LogEntry>, statuses: seq<int>, wait: int)

  function Recorded(t: Tallies, status: int): Tallies {
    t.(requests := t.requests + 1,
       requests2xx := if 200 <= status < 300 then t.requests2xx + 1 else t.requests2xx,
       requests4xx := if 400 <= status < 500 then t.requests4xx + 1 else t.requests4xx,
       requests5xx := if status >= 500 then t.requests5xx + 1 else t.requests5xx)
  }

  /** The counters agree with the log: each counts the entries of its class ever logged. */
  predicate Balanced(t: Tallies, history: seq<LogEntry>) {
    && t.requests == Count(history, Answered())
    && t.requests2xx == Count(history, StatusIn(200, 300))
    && t.requests4xx == Count(history, StatusIn(400, 500))
    && t.requests5xx == Count(history, StatusFrom(500))
  }

  lemma CountSuffixed(history: seq<LogEntry>, e: LogEntry, counts: LogEntry -> bool)
    ensures Count(history + [e], counts) == Count(history, counts) + if counts(e) then 1 else 0
  {
    assert (history + [e])[..|history|] == history;
  }

  /** Recording a status and logging an entry that carries it keeps the balance, and so does logging
      an event. */
  lemma BalanceKept(t: Tallies, history: seq<LogEntry>, e: LogEntry)
    requires Balanced(t, history)
    ensures Balanced(if e.status == 0 then t else Recorded(t, e.status), history + [e])
  {
    CountSuffixed(history, e, Answered());
    CountSuffixed(history, e, StatusIn(200, 300));
    CountSuffixed(history, e, StatusIn(400, 500));
    CountSuffixed(history, e, StatusFrom(500));
  }

  // ---------------------------------------------------------------- admission

  predicate IsOperational(path: string) {
    path == "/_healthz" || path == "/_readyz" || path == "/_metrics" || path == "/_config"
  }

  predicate Authenticated(s: Snapshot, bearer: string) {
    bearer != "" && bearer in s.tokens
  }

  predicate OperationsAuthorized(s: Snapshot, bearer: string) {
    if s.operationsToken == "" then Authenticated(s, bearer) else bearer == s.operationsToken
  }

  /** No client of a valid configuration reaches an operational endpoint when a dedicated operations
      token is set, and its holder is no client. */
  lemma OperationsKeptApart(s: Snapshot, bearer: string)
    requires ValidSettings(s.cfg) && SnapshotOk(s) && s.operationsToken != ""
    ensures !(Authenticated(s, bearer) && OperationsAuthorized(s, bearer))
  {
    ValidTokens(s.cfg);
  }

  datatype Decision = Decision(allowed: bool, retryAfter: int, failed: bool)

  /** rateLimitManager.Allow: an error lets the request through only if the limiter fails open. */
  function Limit(limit: int, reply: LimiterReply, failOpen: bool): Decision {
    if limit <= 0 then Decision(true, 0, false)
    else match reply
         case Replied(answer) => Decision(answer.allowed, answer.retryAfter, false)
         case LimiterDown => Decision(failOpen, 0, true)
  }

  const LIMITER_DOWN: string := "rate limit backend unavailable: "
  const FAILED_OPEN: string := "rate limit backend unavailable; fail-open allowed request: "

  function Event(world: World, level: string, client: string, req: Request, status: int, message: string): LogEntry {
    LogEntry(world.start, level, client, "", req.path, status, 0, message)
  }

  function RefusedWith(v: View, status: int, wait: int, e: LogEntry): View
    requires e.status == status
  {
    View(Recorded(v.tallies, status), v.history + [e], v.statuses + [status], wait)
  }

  function Unauthorized(v: View, world: World, client: string, req: Request, message: string): View {
    RefusedWith(v.(tallies := v.tallies.(authFailures := v.tallies.authFailures + 1)), 401, v.wait,
                Event(world, "warn", client, req, 401, message))
  }

  /** The Retry-After a refusal carries; 0 for none. */
  function WaitFor(v: View, retryAfter: int): int {
    if retryAfter > 0 then W.HeaderSeconds(retryAfter) else v.wait
  }

  // ---------------------------------------------------------------- proxying

  datatype Route = RoutedTo(provider: string) | NoRoute(status: int)

  const ROUTE_PREFIX: string := "/providers/"

  /** strings.IndexByte */
  function IndexOf(s: string, c: char): (i: int)
    ensures -1 <= i < |s|
    ensures i >= 0 ==> s[i] == c && c !in s[..i]
    ensures i < 0 ==> c !in s
  {
    if s == [] then -1
    else if s[0] == c then 0
    else
      var rest := IndexOf(s[1..], c);
      if rest < 0 then -1 else rest + 1
  }

  function Resolve(s: Snapshot, path: string): Route {
    if !(ROUTE_PREFIX <= path) then RoutedTo(s.cfg.config.defaultProvider)
    else
      var rest := path[|ROUTE_PREFIX|..];
      var idx := IndexOf(rest, '/');
      if idx <= 0 then NoRoute(400)
      else if rest[..idx] !in s.providers then NoRoute(404)
      else RoutedTo(rest[..idx])
  }

  lemma {:induction false} FirstIndex(name: string, tail: string, c: char)
    requires c !in name
    ensures IndexOf(name + [c] + tail, c) == |name|
  {
    var whole := name + [c] + tail;
    if name != [] {
      assert whole[0] == name[0];
      assert whole[1..] == name[1..] + [c] + tail;
      FirstIndex(name[1..], tail, c);
    }
  }

  /** In a published snapshot a request is either refused or goes to a configured provider; a path
      /providers/name/... goes to `name` if that is one, and nowhere else. */
  lemma ResolveExact(s: Snapshot, path: string, name: string, tail: string)
    requires SnapshotOk(s)
    ensures Resolve(s, path).RoutedTo? ==> Resolve(s, path).provider in s.providers
    ensures name != "" && '/' !in name && path == ROUTE_PREFIX + (name + ['/'] + tail) ==>
              Resolve(s, path) == if name in s.providers then RoutedTo(name) else NoRoute(404)
  {
    if name != "" && '/' !in name && path == ROUTE_PREFIX + (name + ['/'] + tail) {
      var rest := name + ['/'] + tail;
      assert path[|ROUTE_PREFIX|..] == rest;
      FirstIndex(name, tail, '/');
      assert rest[..|name|] == name;
    }
  }

  datatype Proxied = Proxied(status: int, bytesOut: nat, responseStarted: bool, provider: string, failed: bool)

  function Exchanged(s: Snapshot, world: World, req: Request, client: Client, call: nat): Proxied
    requires Plausible(world) && WriterContract(client)
  {
    match Resolve(s, req.path)
    case NoRoute(status) => Proxied(status, 0, false, "", true)
    case RoutedTo(p) =>
      if world.body.TooLarge? then Proxied(413, 0, false, p, true)
      else if world.body.Unreadable? then Proxied(400, 0, false, p, true)
      else if !world.requestBuilds || !world.headersApply then Proxied(500, 0, false, p, true)
      else match world.upstream
           case Unreachable => Proxied(502, 0, false, p, true)
           case Responds(status, script) =>
             var r := Copy(script, client, 0, call);
             Proxied(status, |r.output|, true, p, r.error != Nil || world.goneAfterCopy)
  }

  function Received(s: Snapshot, world: World, req: Request): int {
    if Resolve(s, req.path).RoutedTo? && world.body.Ready? && world.body.contentLength > 0
    then world.body.contentLength else 0
  }

  function LevelFor(status: int): string {
    if status >= 500 then "error" else if status >= 400 then "warn" else "info"
  }

  /** What the exchange itself leaves: the bytes moved, and the status if a response started. */
  function Exchanging(v: View, p: Proxied, received: int): View {
    v.(tallies := v.tallies.(bytesIn := v.tallies.bytesIn + received, bytesOut := v.tallies.bytesOut + p.bytesOut),
       statuses := v.statuses + (if p.responseStarted then [p.status] else []))
  }

  /** The books after the exchange.  A client that has gone is neither counted nor answered. */
  function Settled(v: View, p: Proxied, world: World, auth: ClientAuth, req: Request): View {
    if p.failed && world.goneAtEnd then
      v.(history := v.history + [LogEntry(world.start, "info", auth.name, p.provider, req.uri, 0, p.bytesOut,
                                          "client canceled request")])
    else
      var t := if p.failed then v.tallies.(upstreamErrors := v.tallies.upstreamErrors + 1) else v.tallies;
      View(Recorded(t, p.status),
           v.history + [LogEntry(world.start, LevelFor(p.status), auth.name, p.provider, req.uri, p.status,
                                 p.bytesOut, if p.failed then world.errorText else "")],
           if p.failed && !p.responseStarted then v.statuses + [p.status] else v.statuses,
           v.wait)
  }

  function WithInFlight(v: View, n: int): View {
    v.(tallies := v.tallies.(inFlight := n))
  }

  /** The in-flight counter is apart from everything the exchange moves. */
  lemma InFlightApart(v: View, n: int, p: Proxied, received: int, world: World, auth: ClientAuth, req: Request)
    ensures AfterProxy(WithInFlight(v, n), p, received, world, auth, req)
            == WithInFlight(AfterProxy(v, p, received, world, auth, req), n)
    ensures AfterProxy(v, p, received, world, auth, req).tallies.inFlight == v.tallies.inFlight
  {
  }

  function AfterProxy(v: View, p: Proxied, received: int, world: World, auth: ClientAuth, req: Request): View {
    Settled(Exchanging(v, p, received), p, world, auth, req)
  }

  // ---------------------------------------------------------------- the whole request

  function BackendFailed(v: View): View {
    v.(tallies := v.tallies.(backendErrors := v.tallies.backendErrors + 1))
  }

  function FailOpenNote(world: World, auth: ClientAuth, req: Request): LogEntry {
    Event(world, "warn", auth.name, req, 0, FAILED_OPEN + world.errorText)
  }

  function TurnedAway(v: View, world: World, auth: ClientAuth, req: Request, d: Decision): View {
    if d.failed then
      RefusedWith(BackendFailed(v), 503, v.wait,
                  Event(world, "error", auth.name, req, 503, LIMITER_DOWN + world.errorText))
    else
      RefusedWith(v.(tallies := v.tallies.(rateLimited := v.tallies.rateLimited + 1)), 429,
                  WaitFor(v, d.retryAfter), Event(world, "warn", auth.name, req, 429, "rate limit exceeded"))
  }

  /** A limiter that fails open leaves a note. */
  function Noted(v: View, world: World, auth: ClientAuth, req: Request, failed: bool): View {
    if failed then BackendFailed(v).(history := v.history + [FailOpenNote(world, auth, req)]) else v
  }

  function AfterApplication(
      v: View, s: Snapshot, failOpen: bool, world: World, req: Request, client: Client, call: nat): View
    requires Plausible(world) && WriterContract(client)
  {
    if !Authenticated(s, req.bearer) then Unauthorized(v, world, "anonymous", req, "auth failed")
    else
      var auth := s.tokens[req.bearer];
      var d := Limit(auth.rateLimitRPM, world.limiter, failOpen);
      if !d.allowed then TurnedAway(v, world, auth, req, d)
      else
        AfterProxy(Noted(v, world, auth, req, d.failed), Exchanged(s, world, req, client, call),
                   Received(s, world, req), world, auth, req)
  }

  function AfterServe(v: View, s: Snapshot, failOpen: bool, world: World, req: Request, client: Client, call: nat): View
    requires Plausible(world) && WriterContract(client)
  {
    if s.cfg.config.publicHealth && req.path == "/_healthz" then v.(statuses := v.statuses + [200])
    else if s.cfg.config.publicHealth && req.path == "/_readyz" then v.(statuses := v.statuses + [world.readiness])
    else if req.verb == "OPTIONS" then v.(statuses := v.statuses + [204])
    else if IsOperational(req.path) && !OperationsAuthorized(s, req.bearer) then
      Unauthorized(v, world, "operations", req, "operations auth failed")
    else if IsOperational(req.path) then
      v.(statuses := v.statuses + [if req.path == "/_readyz" then world.readiness else 200])
    else AfterApplication(v, s, failOpen, world, req, client, call)
  }

  /** The requests that are answered without being accounted for. */
  predicate Unaccounted(s: Snapshot, req: Request) {
    || (s.cfg.config.publicHealth && (req.path == "/_healthz" || req.path == "/_readyz"))
    || req.verb == "OPTIONS"
    || (IsOperational(req.path) && OperationsAuthorized(s, req.bearer))
  }

  /** An admitted request whose exchange failed and whose client had gone by the end. */
  predicate Abandoned(s: Snapshot, failOpen: bool, world: World, req: Request, client: Client, call: nat)
    requires Plausible(world) && WriterContract(client)
  {
    && !Unaccounted(s, req)
    && !IsOperational(req.path)
    && Authenticated(s, req.bearer)
    && Limit(s.tokens[req.bearer].rateLimitRPM, world.limiter, failOpen).allowed
    && Exchanged(s, world, req, client, call).failed
    && world.goneAtEnd
  }

  /** One status sent, the same one counted and logged. */
  predicate CountedOnce(v: View, after: View) {
    && |after.statuses| == |v.statuses| + 1
    && after.tallies.requests == v.tallies.requests + 1
    && |after.history| > |v.history|
    && after.history[|after.history| - 1].status == after.statuses[|v.statuses|] != 0
  }

  lemma ProxyCountedAsSent(v: View, p: Proxied, received: int, world: World, auth: ClientAuth, req: Request)
    requires p.status != 0 && (!p.failed ==> p.responseStarted)
    ensures var after := AfterProxy(v, p, received, world, auth, req);
            && after.tallies.inFlight == v.tallies.inFlight
            && if p.failed && world.goneAtEnd then
                 && after.tallies.requests == v.tallies.requests
                 && after.statuses == v.statuses + (if p.responseStarted then [p.status] else [])
                 && |after.history| > |v.history|
                 && after.history[|after.history| - 1].status == 0
               else CountedOnce(v, after)
  {
  }

  /**
   One answer, counted once, under the status that was sent.  Every request that is accounted for and
   not abandoned by its client is sent exactly one status, and that very status is counted and logged;
   an abandoned one is logged without a status and counted nowhere, and the rest leave no trace.
   */
  lemma CountedAsSent(v: View, s: Snapshot, failOpen: bool, world: World, req: Request, client: Client, call: nat)
    requires Plausible(world) && WriterContract(client)
    ensures var after := AfterServe(v, s, failOpen, world, req, client, call);
            if Unaccounted(s, req) then
              |after.statuses| == |v.statuses| + 1 && after.tallies == v.tallies && after.history == v.history
            else if Abandoned(s, failOpen, world, req, client, call) then
              && after.tallies.requests == v.tallies.requests
              && |after.history| > |v.history|
              && after.history[|after.history| - 1].status == 0
            else CountedOnce(v, after)
  {
    if !Unaccounted(s, req) && !IsOperational(req.path) {
      ApplicationCountedAsSent(v, s, failOpen, world, req, client, call);
    }
  }

  lemma TurnedAwayCountedAsSent(v: View, world: World, auth: ClientAuth, req: Request, d: Decision)
    ensures CountedOnce(v, TurnedAway(v, world, auth, req, d))
  {
  }

  /** An exchange always has a status; only a started response succeeds. */
  lemma ExchangedFacts(s: Snapshot, world: World, req: Request, client: Client, call: nat)
    requires Plausible(world) && WriterContract(client)
    ensures var p := Exchanged(s, world, req, client, call);
            p.status != 0 && (!p.failed ==> p.responseStarted)
  {
  }

  lemma ApplicationCountedAsSent(
      v: View, s: Snapshot, failOpen: bool, world: World, req: Request, client: Client, call: nat)
    requires Plausible(world) && WriterContract(client)
    requires !Unaccounted(s, req) && !IsOperational(req.path)
    ensures var after := AfterApplication(v, s, failOpen, world, req, client, call);
            if Abandoned(s, failOpen, world, req, client, call) then
              && after.tallies.requests == v.tallies.requests
              && |after.history| > |v.history|
              && after.history[|after.history| - 1].status == 0
            else CountedOnce(v, after)
  {
    if Authenticated(s, req.bearer) {
      var auth := s.tokens[req.bearer];
      var d := Limit(auth.rateLimitRPM, world.limiter, failOpen);
      if !d.allowed {
        TurnedAwayCountedAsSent(v, world, auth, req, d);
      } else {
        var open := Noted(v, world, auth, req, d.failed);
        ExchangedFacts(s, world, req, client, call);
        ProxyCountedAsSent(open, Exchanged(s, world, req, client, call), Received(s, world, req), world, auth, req);
      }
    }
  }

  /** Balance looks at four counters only. */
  lemma BalanceCarried(t: Tallies, t': Tallies, history: seq<LogEntry>)
    requires Balanced(t, history)
    requires t'.requests == t.requests && t'.requests2xx == t.requests2xx
    requires t'.requests4xx == t.requests4xx && t'.requests5xx == t.requests5xx
    ensures Balanced(t', history)
  {
  }

  lemma SettlingKeepsBalance(v: View, p: Proxied, world: World, auth: ClientAuth, req: Request)
    requires Balanced(v.tallies, v.history) && p.status != 0
    ensures var after := Settled(v, p, world, auth, req);
            Balanced(after.tallies, after.history) && after.tallies.inFlight == v.tallies.inFlight
  {
    var after := Settled(v, p, world, auth, req);
    var t := v.tallies.(upstreamErrors := after.tallies.upstreamErrors);
    BalanceCarried(v.tallies, t, v.history);
    BalanceKept(t, v.history, after.history[|v.history|]);
  }

  lemma ProxyKeepsBalance(v: View, p: Proxied, received: int, world: World, auth: ClientAuth, req: Request)
    requires Balanced(v.tallies, v.history) && p.status != 0
    ensures var after := AfterProxy(v, p, received, world, auth, req);
            Balanced(after.tallies, after.history) && after.tallies.inFlight == v.tallies.inFlight
  {
    BalanceCarried(v.tallies, Exchanging(v, p, received).tallies, v.history);
    SettlingKeepsBalance(Exchanging(v, p, received), p, world, auth, req);
  }

  lemma RefusalKeepsBalance(v: View, status: int, wait: int, e: LogEntry)
    requires Balanced(v.tallies, v.history) && e.status == status != 0
    ensures var after := RefusedWith(v, status, wait, e);
            Balanced(after.tallies, after.history) && after.tallies.inFlight == v.tallies.inFlight
  {
    BalanceKept(v.tallies, v.history, e);
  }

  lemma TurningAwayKeepsBalance(v: View, world: World, auth: ClientAuth, req: Request, d: Decision)
    requires Balanced(v.tallies, v.history)
    ensures var after := TurnedAway(v, world, auth, req, d);
            Balanced(after.tallies, after.history) && after.tallies.inFlight == v.tallies.inFlight
  {
    if d.failed {
      BalanceCarried(v.tallies, BackendFailed(v).tallies, v.history);
      RefusalKeepsBalance(BackendFailed(v), 503, v.wait,
                          Event(world, "error", auth.name, req, 503, LIMITER_DOWN + world.errorText));
    } else {
      var t := v.tallies.(rateLimited := v.tallies.rateLimited + 1);
      BalanceCarried(v.tallies, t, v.history);
      RefusalKeepsBalance(v.(tallies := t), 429, WaitFor(v, d.retryAfter),
                          Event(world, "warn", auth.name, req, 429, "rate limit exceeded"));
    }
  }

  lemma NotingKeepsBalance(v: View, world: World, auth: ClientAuth, req: Request, failed: bool)
    requires Balanced(v.tallies, v.history)
    ensures var after := Noted(v, world, auth, req, failed);
            Balanced(after.tallies, after.history) && after.tallies.inFlight == v.tallies.inFlight
  {
    if failed {
      BalanceCarried(v.tallies, BackendFailed(v).tallies, v.history);
      BalanceKept(BackendFailed(v).tallies, v.history, FailOpenNote(world, auth, req));
    }
  }

  lemma UnauthorizedKeepsBalance(v: View, world: World, client: string, req: Request, message: string)
    requires Balanced(v.tallies, v.history)
    ensures var after := Unauthorized(v, world, client, req, message);
            Balanced(after.tallies, after.history) && after.tallies.inFlight == v.tallies.inFlight
  {
    var t := v.tallies.(authFailures := v.tallies.authFailures + 1);
    BalanceCarried(v.tallies, t, v.history);
    RefusalKeepsBalance(v.(tallies := t), 401, v.wait, Event(world, "warn", client, req, 401, message));
  }

  lemma ApplicationKeepsBalance(
      v: View, s: Snapshot, failOpen: bool, world: World, req: Request, client: Client, call: nat)
    requires Plausible(world) && WriterContract(client) && Balanced(v.tallies, v.history)
    ensures var after := AfterApplication(v, s, failOpen, world, req, client, call);
            Balanced(after.tallies, after.history) && after.tallies.inFlight == v.tallies.inFlight
  {
    if !Authenticated(s, req.bearer) {
      UnauthorizedKeepsBalance(v, world, "anonymous", req, "auth failed");
    } else {
      var auth := s.tokens[req.bearer];
      var d := Limit(auth.rateLimitRPM, world.limiter, failOpen);
      if !d.allowed {
        TurningAwayKeepsBalance(v, world, auth, req, d);
      } else {
        NotingKeepsBalance(v, world, auth, req, d.failed);
        ProxyKeepsBalance(Noted(v, world, auth, req, d.failed), Exchanged(s, world, req, client, call),
                          Received(s, world, req), world, auth, req);
      }
    }
  }

  /** Serving keeps the balance of counters and log. */
  lemma ServingKeepsBalance(v: View, s: Snapshot, failOpen: bool, world: World, req: Request, client: Client, call: nat)
    requires Plausible(world) && WriterContract(client) && Balanced(v.tallies, v.history)
    ensures var after := AfterServe(v, s, failOpen, world, req, client, call);
            Balanced(after.tallies, after.history) && after.tallies.inFlight == v.tallies.inFlight
  {
    if !Unaccounted(s, req) {
      if IsOperational(req.path) {
        UnauthorizedKeepsBalance(v, world, "operations", req, "operations auth failed");
      } else {
        ApplicationKeepsBalance(v, s, failOpen, world, req, client, call);
      }
    }
  }

  // ---------------------------------------------------------------- what each request gets

  /** A request for a provider: not a preflight and not one of the four operational paths. */
  predicate ForApplication(req: Request) {
    && req.verb != "OPTIONS"
    && req.path != "/_healthz" && req.path != "/_readyz" && req.path != "/_metrics" && req.path != "/_config"
  }

  predicate KnownClient(s: Snapshot, bearer: string) {
    bearer != "" && bearer in s.tokens
  }

  /** A request refused with a status below 500. */
  function TalliedClientError(t: Tallies): Tallies {
    t.(requests := t.requests + 1, requests4xx := t.requests4xx + 1)
  }

  /** Without a known token a provider request is answered 401, and nothing is forwarded. */
  lemma UnknownClientGets401(
      v: View, s: Snapshot, failOpen: bool, world: World, req: Request, client: Client, call: nat)
    requires Plausible(world) && WriterContract(client) && ForApplication(req) && !KnownClient(s, req.bearer)
    ensures AfterServe(v, s, failOpen, world, req, client, call)
            == View(TalliedClientError(v.tallies).(authFailures := v.tallies.authFailures + 1),
                    v.history + [LogEntry(world.start, "warn", "anonymous", "", req.path, 401, 0, "auth failed")],
                    v.statuses + [401],
                    v.wait)
  {
  }

  /** A client over its limit is answered 429 with the limiter's wait as Retry-After, and nothing is
      forwarded. */
  lemma LimitedClientGets429(
      v: View, s: Snapshot, failOpen: bool, world: World, req: Request, client: Client, call: nat)
    requires Plausible(world) && WriterContract(client) && ForApplication(req) && KnownClient(s, req.bearer)
    requires s.tokens[req.bearer].rateLimitRPM > 0
    requires world.limiter.Replied? && !world.limiter.answer.allowed
    ensures var auth := s.tokens[req.bearer];
            var retryAfter := world.limiter.answer.retryAfter;
            AfterServe(v, s, failOpen, world, req, client, call)
            == View(TalliedClientError(v.tallies).(rateLimited := v.tallies.rateLimited + 1),
                    v.history + [LogEntry(world.start, "warn", auth.name, "", req.path, 429, 0, "rate limit exceeded")],
                    v.statuses + [429],
                    if retryAfter > 0 then W.HeaderSeconds(retryAfter) else v.wait)
  {
  }

  /** When the limiter cannot answer and does not fail open, a limited client is answered 503. */
  lemma LimiterDownGets503(
      v: View, s: Snapshot, world: World, req: Request, client: Client, call: nat)
    requires Plausible(world) && WriterContract(client) && ForApplication(req) && KnownClient(s, req.bearer)
    requires s.tokens[req.bearer].rateLimitRPM > 0 && world.limiter.LimiterDown?
    ensures var auth := s.tokens[req.bearer];
            var t := v.tallies;
            AfterServe(v, s, false, world, req, client, call)
            == View(t.(requests := t.requests + 1, requests5xx := t.requests5xx + 1,
                       backendErrors := t.backendErrors + 1),
                    v.history + [LogEntry(world.start, "error", auth.name, "", req.path, 503, 0,
                                          "rate limit backend unavailable: " + world.errorText)],
                    v.statuses + [503],
                    v.wait)
  {
  }

  /** The clients let through: without a limit, with the limiter's leave, or on a limiter that fails open. */
  predicate LetThrough(s: Snapshot, failOpen: bool, world: World, req: Request) {
    && ForApplication(req)
    && KnownClient(s, req.bearer)
    && (|| s.tokens[req.bearer].rateLimitRPM <= 0
        || (world.limiter.Replied? && world.limiter.answer.allowed)
        || (world.limiter.LimiterDown? && failOpen))
  }

  /** What came before the exchange: a note if the limiter failed open. */
  function BeforeExchange(v: View, s: Snapshot, world: World, req: Request): View
    requires req.bearer in s.tokens
  {
    var auth := s.tokens[req.bearer];
    if auth.rateLimitRPM > 0 && world.limiter.LimiterDown? then
      v.(tallies := v.tallies.(backendErrors := v.tallies.backendErrors + 1),
         history := v.history
         + [LogEntry(world.start, "warn", auth.name, "", req.path, 0, 0,
                     "rate limit backend unavailable; fail-open allowed request: " + world.errorText)])
    else v
  }

  /** The books after an exchange with `provider` that came to `status`, having taken `received` bytes from
      the client and sent it `sent`. */
  ghost predicate Booked(
      v: View, after: View, s: Snapshot, world: World, req: Request,
      provider: string, status: int, received: int, sent: nat, started: bool, failed: bool)
    requires req.bearer in s.tokens
  {
    var before := BeforeExchange(v, s, world, req);
    var (t, t') := (before.tallies, after.tallies);
    var gone := failed && world.goneAtEnd;
    && after.wait == v.wait
    && after.statuses == v.statuses + (if started || !gone then [status] else [])
    && t'.bytesIn == t.bytesIn + received && t'.bytesOut == t.bytesOut + sent && t'.inFlight == t.inFlight
    && t'.upstreamErrors == t.upstreamErrors + (if failed && !gone then 1 else 0)
    && t'.requests == t.requests + (if gone then 0 else 1)
    && t'.requests2xx == t.requests2xx + (if !gone && 200 <= status < 300 then 1 else 0)
    && t'.requests4xx == t.requests4xx + (if !gone && 400 <= status < 500 then 1 else 0)
    && t'.requests5xx == t.requests5xx + (if !gone && status >= 500 then 1 else 0)
    && t'.authFailures == t.authFailures && t'.rateLimited == t.rateLimited && t'.backendErrors == t.backendErrors
    && after.history
       == before.history
          + [LogEntry(world.start,
                      if gone || status < 400 then "info" else if status < 500 then "warn" else "error",
                      s.tokens[req.bearer].name, provider, req.uri,
                      if gone then 0 else status, sent,
                      if gone then "client canceled request" else if failed then world.errorText else "")]
  }

  lemma SettledIsBooked(v: View, s: Snapshot, world: World, req: Request, p: Proxied, received: int)
    requires req.bearer in s.tokens && (!p.failed ==> p.responseStarted)
    ensures Booked(v, AfterProxy(BeforeExchange(v, s, world, req), p, received, world, s.tokens[req.bearer], req),
                   s, world, req, p.provider, p.status, received, p.bytesOut, p.responseStarted, p.failed)
  {
    assert v.statuses + [] == v.statuses;
  }

  lemma LetThroughIsForwarded(
      v: View, s: Snapshot, failOpen: bool, world: World, req: Request, client: Client, call: nat)
    requires Plausible(world) && WriterContract(client) && LetThrough(s, failOpen, world, req)
    ensures AfterServe(v, s, failOpen, world, req, client, call)
            == AfterProxy(BeforeExchange(v, s, world, req), Exchanged(s, world, req, client, call),
                          Received(s, world, req), world, s.tokens[req.bearer], req)
    ensures var p := Exchanged(s, world, req, client, call); !p.failed ==> p.responseStarted
  {
    ExchangedFacts(s, world, req, client, call);
    NotedIsBefore(v, s, failOpen, world, req);
  }

  lemma NotedIsBefore(v: View, s: Snapshot, failOpen: bool, world: World, req: Request)
    requires LetThrough(s, failOpen, world, req)
    ensures var auth := s.tokens[req.bearer];
            var d := Limit(auth.rateLimitRPM, world.limiter, failOpen);
            d.allowed && Noted(v, world, auth, req, d.failed) == BeforeExchange(v, s, world, req)
  {
  }

  /** A path goes to `provider`: the default one unless it starts with /providers/, else the one named by
      what stands before the next slash. */
  ghost predicate GoesTo(s: Snapshot, path: string, provider: string) {
    || (!("/providers/" <= path) && provider == s.cfg.config.defaultProvider)
    || (&& provider != "" && '/' !in provider && provider in s.providers
        && "/providers/" + provider + "/" <= path)
  }

  /** /providers/ without a name, or without a slash after it. */
  predicate NamesNoRoute(path: string) {
    && "/providers/" <= path
    && var rest := path[11..];
       '/' !in rest || (rest != [] && rest[0] == '/')
  }

  /** A route to a provider that is not configured. */
  ghost predicate NamesUnknown(s: Snapshot, path: string, name: string) {
    name != "" && '/' !in name && name !in s.providers && "/providers/" + name + "/" <= path
  }

  lemma PrefixSplits(path: string, name: string)
    requires "/providers/" + name + "/" <= path
    ensures var tail := path[12 + |name|..];
            path == ROUTE_PREFIX + (name + ['/'] + tail)
  {
    var whole := "/providers/" + name + "/";
    assert path == whole + path[|whole|..];
    assert |whole| == 12 + |name|;
  }

  lemma GoesToExact(s: Snapshot, path: string, provider: string)
    requires SnapshotOk(s) && GoesTo(s, path, provider)
    ensures Resolve(s, path) == RoutedTo(provider)
  {
    if "/providers/" <= path {
      PrefixSplits(path, provider);
      ResolveExact(s, path, provider, path[12 + |provider|..]);
    }
  }

  lemma NoRouteExact(s: Snapshot, path: string)
    requires NamesNoRoute(path)
    ensures Resolve(s, path) == NoRoute(400)
  {
  }

  lemma UnknownExact(s: Snapshot, path: string, name: string)
    requires SnapshotOk(s) && NamesUnknown(s, path, name)
    ensures Resolve(s, path) == NoRoute(404)
  {
    PrefixSplits(path, name);
    ResolveExact(s, path, name, path[12 + |name|..]);
  }

  /** A request let through on a path that names no provider is answered 400, one that names an unknown
      provider 404; no upstream is contacted. */
  lemma BadRouteAnswered(
      v: View, s: Snapshot, failOpen: bool, world: World, req: Request, client: Client, call: nat, name: string)
    requires Plausible(world) && WriterContract(client) && LetThrough(s, failOpen, world, req) && SnapshotOk(s)
    requires NamesNoRoute(req.path) || NamesUnknown(s, req.path, name)
    ensures Booked(v, AfterServe(v, s, failOpen, world, req, client, call), s, world, req,
                   "", if NamesNoRoute(req.path) then 400 else 404, 0, 0, false, true)
  {
    if NamesNoRoute(req.path) {
      NoRouteExact(s, req.path);
    } else {
      UnknownExact(s, req.path, name);
    }
    LetThroughIsForwarded(v, s, failOpen, world, req, client, call);
    SettledIsBooked(v, s, world, req, Exchanged(s, world, req, client, call), Received(s, world, req));
  }

  /** The exchange gets as far as the provider. */
  predicate ReachesProvider(world: World) {
    world.body.Ready? && world.requestBuilds && world.headersApply && world.upstream.Responds?
  }

  function BodyLength(world: World): int {
    if world.body.Ready? && world.body.contentLength > 0 then world.body.contentLength else 0
  }

  /** A request let through to a provider that is not reached, by cause: 413 for a body over the limit, 400
      for one that cannot be read, 500 when the upstream request cannot be made, 502 when the provider
      cannot be reached. */
  lemma UnreachedAnswered(
      v: View, s: Snapshot, failOpen: bool, world: World, req: Request, client: Client, call: nat, provider: string)
    requires Plausible(world) && WriterContract(client) && LetThrough(s, failOpen, world, req) && SnapshotOk(s)
    requires GoesTo(s, req.path, provider) && !ReachesProvider(world)
    ensures Booked(v, AfterServe(v, s, failOpen, world, req, client, call), s, world, req, provider,
                   if world.body.TooLarge? then 413
                   else if world.body.Unreadable? then 400
                   else if !world.requestBuilds || !world.headersApply then 500
                   else 502,
                   BodyLength(world), 0, false, true)
  {
    GoesToExact(s, req.path, provider);
    LetThroughIsForwarded(v, s, failOpen, world, req, client, call);
    SettledIsBooked(v, s, world, req, Exchanged(s, world, req, client, call), Received(s, world, req));
  }

  /** And one that reaches it is answered with the provider's own status and exactly the bytes the client
      took. */
  lemma ProviderResponseRelayed(
      v: View, s: Snapshot, failOpen: bool, world: World, req: Request, client: Client, call: nat, provider: string)
    requires Plausible(world) && WriterContract(client) && LetThrough(s, failOpen, world, req) && SnapshotOk(s)
    requires GoesTo(s, req.path, provider) && ReachesProvider(world)
    ensures var r := Copy(world.upstream.script, client, 0, call);
            Booked(v, AfterServe(v, s, failOpen, world, req, client, call), s, world, req, provider,
                   world.upstream.status, BodyLength(world), |r.output|, true, r.error != Nil || world.goneAfterCopy)
  {
    GoesToExact(s, req.path, provider);
    LetThroughIsForwarded(v, s, failOpen, world, req, client, call);
    SettledIsBooked(v, s, world, req, Exchanged(s, world, req, client, call), Received(s, world, req));
  }

  /** The four operational paths: open to the operations token, or, when there is none, to clients; 401
      otherwise.  Health and readiness are open to all if the settings say so. */
  lemma OperationsAnswered(
      v: View, s: Snapshot, failOpen: bool, world: World, req: Request, client: Client, call: nat)
    requires Plausible(world) && WriterContract(client) && req.verb != "OPTIONS" && !ForApplication(req)
    ensures var after := AfterServe(v, s, failOpen, world, req, client, call);
            var open := s.cfg.config.publicHealth && (req.path == "/_healthz" || req.path == "/_readyz");
            var entitled := if s.operationsToken == "" then KnownClient(s, req.bearer)
                            else req.bearer == s.operationsToken;
            if open || entitled then
              after == v.(statuses := v.statuses + [if req.path == "/_readyz" then world.readiness else 200])
            else
              after
              == View(TalliedClientError(v.tallies).(authFailures := v.tallies.authFailures + 1),
                      v.history + [LogEntry(world.start, "warn", "operations", "", req.path, 401, 0,
                                            "operations auth failed")],
                      v.statuses + [401],
                      v.wait)
  {
  }

  /** A preflight that got this far is answered 204 and leaves no trace, unless it asks for open health. */
  lemma OptionsAnswered(
      v: View, s: Snapshot, failOpen: bool, world: World, req: Request, client: Client, call: nat)
    requires Plausible(world) && WriterContract(client) && req.verb == "OPTIONS"
    ensures var open := s.cfg.config.publicHealth && (req.path == "/_healthz" || req.path == "/_readyz");
            AfterServe(v, s, failOpen, world, req, client, call)
            == v.(statuses := v.statuses
                  + [if !open then 204 else if req.path == "/_readyz" then world.readiness else 200])
  {
  }

  // ---------------------------------------------------------------- the code itself

  class Response {
    var statuses: seq<int>
    var wait: int
    const out: Writer

    constructor (client: Client)
      ensures statuses == [] && wait == 0 && fresh(out) && out.client == client && out.calls == 0
    {
      statuses := [];
      wait := 0;
      out := new Writer(client);
    }

    /** The status line; http.Error sends one too. */
    method WriteHeader(status: int)
      modifies this`statuses
      ensures statuses == old(statuses) + [status]
    {
      statuses := statuses + [status];
    }
  }

  /** The part of the gateway that serveHTTP writes. */
  class Accounts {
    var tallies: Tallies
    const logs: LogRing
    const failOpen: bool
    ghost var history: seq<LogEntry>

    /** The log holds the latest of everything ever logged. */
    ghost predicate RingOk()
      reads this, logs, logs.entries
    {
      logs.Valid() && Suffix(logs.Contents(), history)
    }

    /** Between requests the counters agree with the log as well. */
    ghost predicate Valid()
      reads this, logs, logs.entries
    {
      RingOk() && Balanced(tallies, history)
    }

    ghost function Seen(w: Response): View
      reads this, w
    {
      View(tallies, history, w.statuses, w.wait)
    }

    constructor (logLimit: int, failOpen: bool)
      ensures Valid() && fresh(logs) && fresh(logs.entries) && this.failOpen == failOpen
      ensures tallies == NO_TALLIES && history == []
    {
      tallies := NO_TALLIES;
      logs := new LogRing(logLimit);
      this.failOpen := failOpen;
      history := [];
    }

    method RecordStatus(status: int)
      modifies this`tallies
      ensures tallies == Recorded(old(tallies), status)
    {
      tallies := tallies.(requests := tallies.requests + 1);
      if 200 <= status < 300 {
        tallies := tallies.(requests2xx := tallies.requests2xx + 1);
      } else if 400 <= status < 500 {
        tallies := tallies.(requests4xx := tallies.requests4xx + 1);
      } else if status >= 500 {
        tallies := tallies.(requests5xx := tallies.requests5xx + 1);
      }
    }

    method Log(e: LogEntry)
      requires RingOk() && e.level != ""
      modifies this`history, logs`len, logs.entries
      ensures RingOk() && history == old(history) + [e]
    {
      StepKeepsSuffix(logs.Contents(), logs.limit, Add(e), history);
      logs.Add(e, e.time);
      history := history + [e];
    }

    method Refuse(w: Response, status: int, e: LogEntry)
      requires RingOk() && e.level != "" && e.status == status
      modifies this, logs`len, logs.entries, w`statuses
      ensures RingOk() && Seen(w) == RefusedWith(old(Seen(w)), status, old(w.wait), e)
    {
      RecordStatus(status);
      Log(e);
      w.WriteHeader(status);
    }

    method Proxy(s: Snapshot, world: World, req: Request, w: Response) returns (result: Proxied)
      requires RingOk() && Plausible(world) && WriterContract(w.out.client)
      modifies this`tallies, w`statuses, w.out
      ensures RingOk()
      ensures result == Exchanged(s, world, req, w.out.client, old(w.out.calls))
      ensures Seen(w) == Exchanging(old(Seen(w)), result, Received(s, world, req))
      ensures w.out.output == old(w.out.output)
                              + (if result.responseStarted
                                 then Copy(world.upstream.script, w.out.client, 0, old(w.out.calls)).output else [])
    {
      var route := Resolve(s, req.path);
      if route.NoRoute? {
        return Proxied(route.status, 0, false, "", true);
      }
      var p := route.provider;
      if world.body.TooLarge? {
        return Proxied(413, 0, false, p, true);
      }
      if world.body.Unreadable? {
        return Proxied(400, 0, false, p, true);
      }
      if world.body.contentLength > 0 {
        tallies := tallies.(bytesIn := tallies.bytesIn + world.body.contentLength);
      }
      if !world.requestBuilds {
        return Proxied(500, 0, false, p, true);
      }
      if !world.headersApply {
        return Proxied(500, 0, false, p, true);
      }
      if world.upstream.Unreachable? {
        return Proxied(502, 0, false, p, true);
      }
      result := Relay(p, world, w);
    }

    /** The answered part: status line, stream, bytes counted. */
    method Relay(p: string, world: World, w: Response) returns (result: Proxied)
      requires RingOk() && Plausible(world) && WriterContract(w.out.client) && world.upstream.Responds?
      modifies this`tallies, w`statuses, w.out
      ensures RingOk()
      ensures var r := Copy(world.upstream.script, w.out.client, 0, old(w.out.calls));
              && result == Proxied(world.upstream.status, |r.output|, true, p, r.error != Nil || world.goneAfterCopy)
              && w.out.output == old(w.out.output) + r.output
      ensures Seen(w) == Exchanging(old(Seen(w)), result, 0)
    {
      w.WriteHeader(world.upstream.status);
      var body := new Reader(world.upstream.script);
      var written, error := CopyAndFlush(w.out, body);
      if written > 0 {
        tallies := tallies.(bytesOut := tallies.bytesOut + written);
      }
      return Proxied(world.upstream.status, written, true, p, error != Nil || world.goneAfterCopy);
    }

    method ServeApplication(s: Snapshot, world: World, req: Request, w: Response)
      requires RingOk() && Plausible(world) && WriterContract(w.out.client)
      modifies this, logs`len, logs.entries, w, w.out
      ensures RingOk()
      ensures Seen(w) == AfterApplication(old(Seen(w)), s, failOpen, world, req, w.out.client, old(w.out.calls))
    {
      if !Authenticated(s, req.bearer) {
        tallies := tallies.(authFailures := tallies.authFailures + 1);
        Refuse(w, 401, Event(world, "warn", "anonymous", req, 401, "auth failed"));
        return;
      }
      var auth := s.tokens[req.bearer];
      var d := Limit(auth.rateLimitRPM, world.limiter, failOpen);
      ApplyLimit(d, world, req, auth, w);
      if d.allowed {
        Forward(s, world, req, auth, w);
      }
    }

    method ApplyLimit(d: Decision, world: World, req: Request, auth: ClientAuth, w: Response)
      requires RingOk()
      modifies this, logs`len, logs.entries, w`statuses, w`wait
      ensures RingOk()
      ensures Seen(w) == if d.allowed then Noted(old(Seen(w)), world, auth, req, d.failed)
                         else TurnedAway(old(Seen(w)), world, auth, req, d)
    {
      if d.failed {
        tallies := tallies.(backendErrors := tallies.backendErrors + 1);
        if !d.allowed {
          Refuse(w, 503, Event(world, "error", auth.name, req, 503, LIMITER_DOWN + world.errorText));
          return;
        }
        Log(FailOpenNote(world, auth, req));
      }
      if !d.allowed {
        tallies := tallies.(rateLimited := tallies.rateLimited + 1);
        if d.retryAfter > 0 {
          w.wait := W.HeaderSeconds(d.retryAfter);
        }
        Refuse(w, 429, Event(world, "warn", auth.name, req, 429, "rate limit exceeded"));
      }
    }

    method Forward(s: Snapshot, world: World, req: Request, auth: ClientAuth, w: Response)
      requires RingOk() && Plausible(world) && WriterContract(w.out.client)
      modifies this, logs`len, logs.entries, w, w.out
      ensures RingOk()
      ensures Seen(w) == AfterProxy(old(Seen(w)), Exchanged(s, world, req, w.out.client, old(w.out.calls)),
                                    Received(s, world, req), world, auth, req)
    {
      ghost var before := Seen(w);
      tallies := tallies.(inFlight := tallies.inFlight + 1);
      assert Seen(w) == WithInFlight(before, before.tallies.inFlight + 1);
      var result := Proxy(s, world, req, w);
      Settle(result, world, req, auth, w);
      InFlightApart(before, before.tallies.inFlight + 1, result, Received(s, world, req), world, auth, req);
      tallies := tallies.(inFlight := tallies.inFlight - 1);
    }

    method Settle(result: Proxied, world: World, req: Request, auth: ClientAuth, w: Response)
      requires RingOk()
      modifies this, logs`len, logs.entries, w`statuses
      ensures RingOk() && Seen(w) == Settled(old(Seen(w)), result, world, auth, req)
    {
      var gone := result.failed && world.goneAtEnd;
      if result.failed && !gone {
        tallies := tallies.(upstreamErrors := tallies.upstreamErrors + 1);
        if !result.responseStarted {
          w.WriteHeader(result.status);
        }
      }
      if !gone {
        RecordStatus(result.status);
      }
      var level := LevelFor(result.status);
      var message := if result.failed then world.errorText else "";
      var status := result.status;
      if gone {
        status := 0;
        level := "info";
        message := "client canceled request";
      }
      Log(LogEntry(world.start, level, auth.name, result.provider, req.uri, status, result.bytesOut, message));
    }

    /** Serves one request; the response goes to `w`. */
    method ServeHTTP(s: Snapshot, world: World, req: Request, w: Response)
      requires Valid() && Plausible(world) && WriterContract(w.out.client)
      modifies this, logs`len, logs.entries, w, w.out
      ensures Valid()
      ensures Seen(w) == AfterServe(old(Seen(w)), s, failOpen, world, req, w.out.client, old(w.out.calls))
    {
      ghost var before, call := Seen(w), w.out.calls;
      Dispatch(s, world, req, w);
      ServingKeepsBalance(before, s, failOpen, world, req, w.out.client, call);
    }

    method Dispatch(s: Snapshot, world: World, req: Request, w: Response)
      requires RingOk() && Plausible(world) && WriterContract(w.out.client)
      modifies this, logs`len, logs.entries, w, w.out
      ensures RingOk()
      ensures Seen(w) == AfterServe(old(Seen(w)), s, failOpen, world, req, w.out.client, old(w.out.calls))
    {
      if req.path == "/_healthz" && s.cfg.config.publicHealth {
        w.WriteHeader(200);
        return;
      }
      if req.path == "/_readyz" && s.cfg.config.publicHealth {
        w.WriteHeader(world.readiness);
        return;
      }
      if req.verb == "OPTIONS" {
        w.WriteHeader(204);
        return;
      }
      if IsOperational(req.path) {
        if !OperationsAuthorized(s, req.bearer) {
          tallies := tallies.(authFailures := tallies.authFailures + 1);
          Refuse(w, 401, Event(world, "warn", "operations", req, 401, "operations auth failed"));
          return;
        }
        w.WriteHeader(if req.path == "/_readyz" then world.readiness else 200);
        return;
      }
      ServeApplication(s, world, req, w);
    }

    /** The dashboard counts what is in the ring.  It never shows more than the counters, and shows
        exactly the counters as long as nothing answered has been pushed out. */
    method Dashboard(routeKey: string -> string) returns (shown: Summary)
      requires Valid()
      ensures Classified(shown, logs.Contents())
      ensures var pushedOut := history[..|history| - logs.len];
              && tallies.requests == shown.requests + Count(pushedOut, Answered())
              && tallies.requests2xx == shown.twoXX + Count(pushedOut, StatusIn(200, 300))
              && tallies.requests4xx == shown.fourXX + Count(pushedOut, StatusIn(400, 500))
              && tallies.requests5xx == shown.fiveXX + Count(pushedOut, StatusFrom(500))
    {
      var entries := logs.Snapshot();
      shown := Summarize(entries[..], routeKey);
      ghost var cut := |history| - logs.len;
      assert history == history[..cut] + logs.Contents();
      CountJoined(history[..cut], logs.Contents(), Answered());
      CountJoined(history[..cut], logs.Contents(), StatusIn(200, 300));
      CountJoined(history[..cut], logs.Contents(), StatusIn(400, 500));
      CountJoined(history[..cut], logs.Contents(), StatusFrom(500));
    }
  }

  lemma {:induction false} CountJoined(first: seq<LogEntry>, second: seq<LogEntry>, counts: LogEntry -> bool)
    ensures Count(first + second, counts) == Count(first, counts) + Count(second, counts)
  {
    if second == [] {
      assert first + second == first;
    } else {
      var n := |second| - 1;
      assert (first + second)[..|first| + n] == first + second[..n];
      CountJoined(first, second[..n], counts);
    }
  }
}
