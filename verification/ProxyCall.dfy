/**
 One tool call through the gateway: two pipeline runs around a retry loop, and what the client can receive.
 Upstream, token exchange and time are the `World`; every result holds for every world.
 */
module ProxyCall {
  import opened Prelude
  import opened Json
  import opened Context
  import opened Identity
  import R = ToolRouting
  import opened HookPipeline

  datatype ServerConfig = ServerConfig(transport: string, maxRetries: int, retryDelay: real)

  datatype Gateway = Gateway(servers: map<string, ServerConfig>, hooks: Option<seq<Hook>>)

  datatype TokenOutcome = Token(bearer: Option<string>) | ExchangeFailed | TokenBroke

  /** `get_session`: ready, a transport connection or timeout error, or any other exception. */
  datatype SessionOutcome = Ready | Unreachable | SessionBroke

  datatype UpstreamOutcome =
    | Returned(content: seq<Json>, isError: bool)
    | TimedOut
    | TransportFailed
    | UpstreamBroke

  /** Answers by attempt; `clock(j)` is the moment pipeline run j starts. */
  datatype World = World(
    correlationId: string,
    authorization: string,
    clock: nat -> nat,
    token: (string, RequestContext) -> TokenOutcome,
    session: nat -> SessionOutcome,
    upstream: nat -> UpstreamOutcome,
    disconnectRaises: nat -> bool,
    valid: (string, Json) -> bool,
    show: Json -> string)

  datatype Content = Item(kind: string, item: Json) | Fallback(text: string)

  datatype Notice = AccessDenied | ResponseBlocked

  datatype Exception = RoutingError | UpstreamError | OtherException

  datatype Reply =
    | Rebuilt(content: seq<Content>)
    | Raw(items: seq<Json>)
    | Told(notice: Notice, correlationId: string)
    | Raised(exception: Exception)

  /** What a call did, in order. */
  datatype Effect =
    | Ran(run: PipelineResult)
    | AskedToken
    | AskedSession(attempt: nat, bearer: Option<string>)
    | CalledUpstream(tool: string, arguments: Option<Json>)
    | Disconnected
    | Slept(delay: real)

  // ------------------------------------------------------------------
  // Payloads
  // ------------------------------------------------------------------

  function ResponsePayload(content: seq<Json>, isError: bool): Json {
    JObject([Field("content", JArray(content)), Field("is_error", JBool(isError))])
  }

  function RebuildItem(w: World, item: Json): Option<Content> {
    if !item.JObject? then None
    else
      match Get(item.fields, "type")
      case Some(JString(kind)) =>
        if kind == "text" || kind == "image" || kind == "resource"
        then (if w.valid(kind, item) then Some(Item(kind, item)) else None)
        else Some(Fallback(w.show(item)))
      case _ => Some(Fallback(w.show(item)))
  }

  function RebuildItems(w: World, items: seq<Json>): Option<seq<Content>> {
    if items == [] then Some([])
    else
      match (RebuildItem(w, items[0]), RebuildItems(w, items[1..]))
      case (Some(first), Some(rest)) => Some([first] + rest)
      case _ => None
  }

  /** `_rebuild_content`; None is an exception. */
  function RebuildContent(w: World, payload: Json): Option<seq<Content>> {
    if !payload.JObject? then None
    else
      match Get(payload.fields, "content")
      case None => Some([])
      case Some(JArray(items)) => RebuildItems(w, items)
      case Some(JString(s)) => if s == "" then Some([]) else None
      case Some(JObject(fields)) => if fields == [] then Some([]) else None
      case _ => None
  }

  function FirstContext(w: World, server: string, tool: string, transport: string, arguments: Option<Json>): HookContext {
    var args := match arguments case Some(a) => (if a.Truthy() then a else JObject([])) case None => JObject([]);
    HookContext(RequestContext(w.correlationId, None, None, None), JObject([Field("arguments", args)]), JObject([]),
                server, tool, Pending, "", false, [], [], false, [], false, false, "", w.authorization, transport)
  }

  // ------------------------------------------------------------------
  // The retry loop, described
  // ------------------------------------------------------------------

  predicate TransportTrouble(w: World, a: nat) {
    w.session(a).Unreachable? || (w.session(a).Ready? && w.upstream(a).TransportFailed?)
  }

  /** Attempt `a` ends in an error the loop retries. */
  predicate FailsRetryably(w: World, a: nat) {
    || (TransportTrouble(w, a) && !w.disconnectRaises(a))
    || (w.session(a).Ready? && w.upstream(a).TimedOut?)
  }

  /** What attempt `a` does up to the end of its upstream call and, on transport trouble, the disconnect. */
  function Tried(w: World, a: nat, bearer: Option<string>, tool: string, arguments: Option<Json>): seq<Effect> {
    [AskedSession(a, bearer)]
    + (if w.session(a).Ready? then [CalledUpstream(tool, arguments)] else [])
    + (if TransportTrouble(w, a) then [Disconnected] else [])
  }

  function Delay(cfg: ServerConfig, a: nat): real {
    cfg.retryDelay * Pow2(a) as real
  }

  function Backoff(cfg: ServerConfig, a: nat): seq<Effect> {
    if a < cfg.maxRetries then [Slept(Delay(cfg, a))] else []
  }

  /** The first k attempts, all retried. */
  function Retries(w: World, cfg: ServerConfig, k: nat, bearer: Option<string>, tool: string, arguments: Option<Json>)
    : seq<Effect>
  {
    if k == 0 then []
    else Retries(w, cfg, k - 1, bearer, tool, arguments) + Tried(w, k - 1, bearer, tool, arguments) + Backoff(cfg, k - 1)
  }

  function Attempts(cfg: ServerConfig): nat {
    if cfg.maxRetries + 1 > 0 then cfg.maxRetries + 1 else 0
  }

  /** The run of hooks over an upstream result, and the reply it leads to. */
  ghost predicate Answered(g: Gateway, w: World, first: HookContext, k: nat, tail: seq<Effect>, reply: Reply)
    requires w.upstream(k).Returned?
  {
    var up := w.upstream(k);
    match g.hooks
    case None => tail == [] && reply == Raw(up.content)
    case Some(hooks) =>
      && |tail| == 1 && tail[0].Ran?
      && Describes(hooks, w.clock(1), first.(responsePayload := ResponsePayload(up.content, up.isError)), tail[0].run)
      && reply == if !tail[0].run.success then Told(ResponseBlocked, first.request.correlationId)
                  else match RebuildContent(w, tail[0].run.context.responsePayload)
                       case Some(content) => Rebuilt(content)
                       case None => Raised(OtherException)
  }

  /** Attempt k settles the call: its own effects, then the answer if upstream gave one. */
  ghost predicate Decided(g: Gateway, w: World, first: HookContext, bearer: Option<string>, tool: string,
                          arguments: Option<Json>, k: nat, effects: seq<Effect>, reply: Reply)
  {
    var tried := Tried(w, k, bearer, tool, arguments);
    && !FailsRetryably(w, k)
    && tried <= effects
    && if w.session(k).Ready? && w.upstream(k).Returned?
       then Answered(g, w, first, k, effects[|tried|..], reply)
       else effects == tried && reply == Raised(OtherException)
  }

  /** k attempts were retried and attempt k, if the budget allows one, settled the call. */
  ghost predicate Settled(g: Gateway, w: World, cfg: ServerConfig, first: HookContext, bearer: Option<string>,
                          tool: string, arguments: Option<Json>, k: nat, effects: seq<Effect>, reply: Reply)
  {
    var before := Retries(w, cfg, k, bearer, tool, arguments);
    && k <= Attempts(cfg)
    && (forall a: nat :: a < k ==> FailsRetryably(w, a))
    && if k == Attempts(cfg) then effects == before && reply == Raised(UpstreamError)
       else before <= effects && Decided(g, w, first, bearer, tool, arguments, k, effects[|before|..], reply)
  }

  /** The part of a call after the first pipeline run. */
  ghost predicate Forwarded(g: Gateway, w: World, cfg: ServerConfig, first: HookContext, server: string, tool: string,
                            arguments: Option<Json>, effects: seq<Effect>, reply: Reply)
  {
    && |effects| >= 1 && effects[0] == AskedToken
    && match w.token(server, first.request)
       case ExchangeFailed => effects == [AskedToken] && reply == Told(AccessDenied, first.request.correlationId)
       case TokenBroke => effects == [AskedToken] && reply == Raised(OtherException)
       case Token(bearer) => exists k: nat :: Settled(g, w, cfg, first, bearer, tool, arguments, k, effects[1..], reply)
  }

  ghost predicate CallSpec(g: Gateway, w: World, name: string, arguments: Option<Json>, effects: seq<Effect>, reply: Reply) {
    match R.ParseTool(name)
    case None => effects == [] && reply == Raised(RoutingError)
    case Some((server, tool)) =>
      if server !in g.servers then effects == [] && reply == Raised(RoutingError)
      else
        var cfg := g.servers[server];
        var start := FirstContext(w, server, tool, cfg.transport, arguments);
        match g.hooks
        case None => Forwarded(g, w, cfg, start, server, tool, arguments, effects, reply)
        case Some(hooks) =>
          && |effects| >= 1 && effects[0].Ran?
          && Describes(hooks, w.clock(0), start, effects[0].run)
          && var first := effects[0].run.context;
             if first.policyDecision == Denied
             then |effects| == 1 && reply == Told(AccessDenied, first.request.correlationId)
             else Forwarded(g, w, cfg, first, server, tool, arguments, effects[1..], reply)
  }

  // ------------------------------------------------------------------
  // The call
  // ------------------------------------------------------------------

  /** One pass of the loop body up to the retry; None means the error is one the loop retries. */
  method Attempt(g: Gateway, w: World, first: HookContext, bearer: Option<string>, tool: string,
                 arguments: Option<Json>, attempt: nat)
    returns (effects: seq<Effect>, reply: Option<Reply>)
    ensures reply.None? ==> FailsRetryably(w, attempt) && effects == Tried(w, attempt, bearer, tool, arguments)
    ensures reply.Some? ==> Decided(g, w, first, bearer, tool, arguments, attempt, effects, reply.value)
  {
    effects := [AskedSession(attempt, bearer)];
    var trouble := false;
    match w.session(attempt) {
      case SessionBroke => return effects, Some(Raised(OtherException));
      case Unreachable => trouble := true;
      case Ready =>
        effects := effects + [CalledUpstream(tool, arguments)];
        match w.upstream(attempt) {
          case UpstreamBroke => return effects, Some(Raised(OtherException));
          case TimedOut =>
          case TransportFailed => trouble := true;
          case Returned(content, isError) =>
            if g.hooks.None? {
              return effects, Some(Raw(content));
            }
            var postCtx := first.(responsePayload := ResponsePayload(content, isError));
            var post := Execute(g.hooks.value, w.clock(1), postCtx);
            effects := effects + [Ran(post)];
            if !post.success {
              return effects, Some(Told(ResponseBlocked, first.request.correlationId));
            }
            match RebuildContent(w, post.context.responsePayload) {
              case None => return effects, Some(Raised(OtherException));
              case Some(items) => return effects, Some(Rebuilt(items));
            }
        }
    }
    if trouble {
      effects := effects + [Disconnected];
      if w.disconnectRaises(attempt) {
        return effects, Some(Raised(OtherException));
      }
    }
    return effects, None;
  }

  method CallWithRetries(g: Gateway, w: World, cfg: ServerConfig, first: HookContext, bearer: Option<string>,
                         tool: string, arguments: Option<Json>)
    returns (effects: seq<Effect>, reply: Reply)
    ensures exists k: nat :: Settled(g, w, cfg, first, bearer, tool, arguments, k, effects, reply)
  {
    effects := [];
    var attempt: nat := 0;
    while attempt < cfg.maxRetries + 1
      invariant attempt <= Attempts(cfg)
      invariant effects == Retries(w, cfg, attempt, bearer, tool, arguments)
      invariant forall a: nat :: a < attempt ==> FailsRetryably(w, a)
    {
      var made, outcome := Attempt(g, w, first, bearer, tool, arguments, attempt);
      if outcome.Some? {
        assert (effects + made)[|effects|..] == made;
        assert Settled(g, w, cfg, first, bearer, tool, arguments, attempt, effects + made, outcome.value);
        return effects + made, outcome.value;
      }
      effects := effects + made;
      if attempt < cfg.maxRetries {
        effects := effects + [Slept(Delay(cfg, attempt))];
      } else {
        assert effects == effects + Backoff(cfg, attempt);
      }
      attempt := attempt + 1;
    }
    assert Settled(g, w, cfg, first, bearer, tool, arguments, attempt, effects, Raised(UpstreamError));
    return effects, Raised(UpstreamError);
  }

  /** The call from the token request on. */
  method Forward(g: Gateway, w: World, cfg: ServerConfig, first: HookContext, server: string, tool: string,
                 arguments: Option<Json>)
    returns (effects: seq<Effect>, reply: Reply)
    ensures Forwarded(g, w, cfg, first, server, tool, arguments, effects, reply)
  {
    match w.token(server, first.request) {
      case ExchangeFailed => return [AskedToken], Told(AccessDenied, first.request.correlationId);
      case TokenBroke => return [AskedToken], Raised(OtherException);
      case Token(bearer) =>
        var rest, outcome := CallWithRetries(g, w, cfg, first, bearer, tool, arguments);
        assert ([AskedToken] + rest)[1..] == rest;
        return [AskedToken] + rest, outcome;
    }
  }

  method CallTool(g: Gateway, w: World, name: string, arguments: Option<Json>)
    returns (effects: seq<Effect>, reply: Reply)
    ensures CallSpec(g, w, name, arguments, effects, reply)
  {
    var route := R.ParseTool(name);
    if route.None? || route.value.0 !in g.servers {
      return [], Raised(RoutingError);
    }
    var server, tool := route.value.0, route.value.1;
    var cfg := g.servers[server];
    var hookCtx := FirstContext(w, server, tool, cfg.transport, arguments);
    if g.hooks.None? {
      effects, reply := Forward(g, w, cfg, hookCtx, server, tool, arguments);
      return;
    }
    var result := Execute(g.hooks.value, w.clock(0), hookCtx);
    if result.context.policyDecision == Denied {
      return [Ran(result)], Told(AccessDenied, result.context.request.correlationId);
    }
    var rest, outcome := Forward(g, w, cfg, result.context, server, tool, arguments);
    assert ([Ran(result)] + rest)[1..] == rest;
    return [Ran(result)] + rest, outcome;
  }

  // ------------------------------------------------------------------
  // Counting what a call did
  // ------------------------------------------------------------------

  /** The sum of a weight over a list of effects. */
  function Total(weight: Effect -> real, effects: seq<Effect>): real {
    if effects == [] then 0.0 else weight(effects[0]) + Total(weight, effects[1..])
  }

  function IsRun(e: Effect): real { if e.Ran? then 1.0 else 0.0 }
  function IsSession(e: Effect): real { if e.AskedSession? then 1.0 else 0.0 }
  function IsDisconnect(e: Effect): real { if e.Disconnected? then 1.0 else 0.0 }
  function SleepOf(e: Effect): real { if e.Slept? then e.delay else 0.0 }

  lemma {:induction false} TotalsAdd(weight: Effect -> real, a: seq<Effect>, b: seq<Effect>)
    ensures Total(weight, a + b) == Total(weight, a) + Total(weight, b)
  {
    if a == [] {
      assert a + b == b;
    } else {
      assert (a + b)[1..] == a[1..] + b;
      TotalsAdd(weight, a[1..], b);
    }
  }

  lemma TotalOfOne(weight: Effect -> real, e: Effect)
    ensures Total(weight, [e]) == weight(e)
  {
    assert [e][1..] == [];
  }

  lemma TotalOfTried(weight: Effect -> real, w: World, a: nat, bearer: Option<string>, tool: string, arguments: Option<Json>)
    ensures Total(weight, Tried(w, a, bearer, tool, arguments))
         == weight(AskedSession(a, bearer))
            + (if w.session(a).Ready? then weight(CalledUpstream(tool, arguments)) else 0.0)
            + (if TransportTrouble(w, a) then weight(Disconnected) else 0.0)
  {
    var x := [AskedSession(a, bearer)];
    var y := if w.session(a).Ready? then [CalledUpstream(tool, arguments)] else [];
    var z := if TransportTrouble(w, a) then [Disconnected] else [];
    TotalOfOne(weight, AskedSession(a, bearer));
    TotalOfOne(weight, CalledUpstream(tool, arguments));
    TotalOfOne(weight, Disconnected);
    TotalsAdd(weight, x, y);
    TotalsAdd(weight, x + y, z);
  }

  lemma TotalOfBackoff(weight: Effect -> real, cfg: ServerConfig, a: nat)
    ensures Total(weight, Backoff(cfg, a)) == if a < cfg.maxRetries then weight(Slept(Delay(cfg, a))) else 0.0
  {
    TotalOfOne(weight, Slept(Delay(cfg, a)));
  }

  lemma OneMoreRetry(weight: Effect -> real, w: World, cfg: ServerConfig, k: nat, bearer: Option<string>, tool: string,
                     arguments: Option<Json>)
    requires k > 0
    ensures Total(weight, Retries(w, cfg, k, bearer, tool, arguments))
         == Total(weight, Retries(w, cfg, k - 1, bearer, tool, arguments))
            + Total(weight, Tried(w, k - 1, bearer, tool, arguments)) + Total(weight, Backoff(cfg, k - 1))
  {
    var r := Retries(w, cfg, k - 1, bearer, tool, arguments);
    var t, b := Tried(w, k - 1, bearer, tool, arguments), Backoff(cfg, k - 1);
    TotalsAdd(weight, r, t);
    TotalsAdd(weight, r + t, b);
  }

  /** Attempts below `k` that met transport trouble. */
  function Troubles(w: World, k: nat): (n: nat)
    ensures n <= k
  {
    if k == 0 then 0 else Troubles(w, k - 1) + (if TransportTrouble(w, k - 1) then 1 else 0)
  }

  /** Sleeps taken in the first k retried attempts: one each, but none after the last attempt of the budget. */
  function Pauses(cfg: ServerConfig, k: nat): nat
    requires k <= Attempts(cfg)
  {
    if k == 0 || k <= cfg.maxRetries then k else k - 1
  }

  /** The geometric sum of the pauses taken. */
  function SleepAfter(cfg: ServerConfig, k: nat): real
    requires k <= Attempts(cfg)
  {
    cfg.retryDelay * (Pow2(Pauses(cfg, k)) - 1) as real
  }

  lemma PauseAdds(cfg: ServerConfig, k: nat)
    requires 0 < k <= Attempts(cfg)
    ensures SleepAfter(cfg, k) == SleepAfter(cfg, k - 1) + (if k - 1 < cfg.maxRetries then Delay(cfg, k - 1) else 0.0)
  {
    if k <= cfg.maxRetries {
      var x := Pow2(k - 1) as real;
      assert (Pow2(k) - 1) as real == 2.0 * x - 1.0;
      assert (Pow2(k - 1) - 1) as real == x - 1.0;
      assert cfg.retryDelay * (x - 1.0) + cfg.retryDelay * x == cfg.retryDelay * (2.0 * x - 1.0);
    } else {
      assert Pauses(cfg, k - 1) == Pauses(cfg, k);
    }
  }

  /** A weight that sees only session requests (`s`) and disconnects (`d`). */
  ghost predicate Counts(weight: Effect -> real, s: bool, d: bool) {
    && (forall a, b :: weight(AskedSession(a, b)) == if s then 1.0 else 0.0)
    && weight(Disconnected) == (if d then 1.0 else 0.0)
    && (forall t, x :: weight(CalledUpstream(t, x)) == 0.0)
    && (forall x :: weight(Slept(x)) == 0.0)
  }

  /** After k retried attempts: k session requests and one disconnect per transport trouble. */
  lemma {:induction false} RetriesCount(weight: Effect -> real, s: bool, d: bool, w: World, cfg: ServerConfig, k: nat,
                                        bearer: Option<string>, tool: string, arguments: Option<Json>)
    requires Counts(weight, s, d)
    ensures Total(weight, Retries(w, cfg, k, bearer, tool, arguments))
         == (if s then k as real else 0.0) + (if d then Troubles(w, k) as real else 0.0)
  {
    if k == 0 {
    } else {
      RetriesCount(weight, s, d, w, cfg, k - 1, bearer, tool, arguments);
      OneMoreRetry(weight, w, cfg, k, bearer, tool, arguments);
      TotalOfTried(weight, w, k - 1, bearer, tool, arguments);
      TotalOfBackoff(weight, cfg, k - 1);
    }
  }

  /** After k retried attempts the total sleep is exactly retry_delay * (2^pauses - 1). */
  lemma {:induction false} RetriesSleep(w: World, cfg: ServerConfig, k: nat, bearer: Option<string>, tool: string,
                                        arguments: Option<Json>)
    requires k <= Attempts(cfg)
    ensures Total(SleepOf, Retries(w, cfg, k, bearer, tool, arguments)) == SleepAfter(cfg, k)
  {
    if k == 0 {
      assert Pow2(0) == 1;
    } else {
      RetriesSleep(w, cfg, k - 1, bearer, tool, arguments);
      OneMoreRetry(SleepOf, w, cfg, k, bearer, tool, arguments);
      TotalOfTried(SleepOf, w, k - 1, bearer, tool, arguments);
      TotalOfBackoff(SleepOf, cfg, k - 1);
      PauseAdds(cfg, k);
    }
  }

  /** Attempts made when k of them were retried. */
  function Made(cfg: ServerConfig, k: nat): nat {
    if k == Attempts(cfg) then k else k + 1
  }

  /** The settling attempt adds its own session, its own trouble, at most one run and no sleep. */
  lemma DecidedTotals(weight: Effect -> real, g: Gateway, w: World, first: HookContext, bearer: Option<string>,
                      tool: string, arguments: Option<Json>, k: nat, effects: seq<Effect>, reply: Reply)
    requires Decided(g, w, first, bearer, tool, arguments, k, effects, reply)
    requires weight == IsSession || weight == IsDisconnect || weight == SleepOf
    ensures Total(weight, effects)
         == weight(AskedSession(k, bearer)) + (if TransportTrouble(w, k) then weight(Disconnected) else 0.0)
  {
    var tried := Tried(w, k, bearer, tool, arguments);
    var tail := effects[|tried|..];
    assert effects == tried + tail;
    TotalsAdd(weight, tried, tail);
    TotalOfTried(weight, w, k, bearer, tool, arguments);
    if tail != [] {
      assert tail == [tail[0]];
      TotalOfOne(weight, tail[0]);
    }
  }

  /** What the loop adds up to: its retries, and the settling attempt if the budget allowed one. */
  lemma SettledTotal(weight: Effect -> real, g: Gateway, w: World, cfg: ServerConfig, first: HookContext,
                     bearer: Option<string>, tool: string, arguments: Option<Json>, k: nat, effects: seq<Effect>, reply: Reply)
    requires Settled(g, w, cfg, first, bearer, tool, arguments, k, effects, reply)
    requires weight == IsSession || weight == IsDisconnect || weight == SleepOf
    ensures k <= Attempts(cfg)
    ensures Total(weight, effects)
         == Total(weight, Retries(w, cfg, k, bearer, tool, arguments))
            + if k == Attempts(cfg) then 0.0
              else weight(AskedSession(k, bearer)) + (if TransportTrouble(w, k) then weight(Disconnected) else 0.0)
  {
    var before := Retries(w, cfg, k, bearer, tool, arguments);
    if k < Attempts(cfg) {
      var last := effects[|before|..];
      assert effects == before + last;
      DecidedTotals(weight, g, w, first, bearer, tool, arguments, k, last, reply);
      TotalsAdd(weight, before, last);
    }
  }

  lemma SettledSessions(g: Gateway, w: World, cfg: ServerConfig, first: HookContext, bearer: Option<string>,
                        tool: string, arguments: Option<Json>, k: nat, effects: seq<Effect>, reply: Reply)
    requires Settled(g, w, cfg, first, bearer, tool, arguments, k, effects, reply)
    ensures Total(IsSession, effects) == Made(cfg, k) as real
  {
    SettledTotal(IsSession, g, w, cfg, first, bearer, tool, arguments, k, effects, reply);
    RetriesCount(IsSession, true, false, w, cfg, k, bearer, tool, arguments);
  }

  lemma TroublesMade(w: World, cfg: ServerConfig, k: nat)
    ensures Troubles(w, Made(cfg, k)) == Troubles(w, k) + if k != Attempts(cfg) && TransportTrouble(w, k) then 1 else 0
  {
    assert Troubles(w, k + 1) == Troubles(w, k) + if TransportTrouble(w, k) then 1 else 0;
  }

  lemma SettledDisconnects(g: Gateway, w: World, cfg: ServerConfig, first: HookContext, bearer: Option<string>,
                           tool: string, arguments: Option<Json>, k: nat, effects: seq<Effect>, reply: Reply)
    requires Settled(g, w, cfg, first, bearer, tool, arguments, k, effects, reply)
    ensures Total(IsDisconnect, effects) == Troubles(w, Made(cfg, k)) as real
  {
    SettledTotal(IsDisconnect, g, w, cfg, first, bearer, tool, arguments, k, effects, reply);
    RetriesCount(IsDisconnect, false, true, w, cfg, k, bearer, tool, arguments);
    TroublesMade(w, cfg, k);
    assert IsDisconnect(AskedSession(k, bearer)) == 0.0 && IsDisconnect(Disconnected) == 1.0;
  }

  lemma SettledSleep(g: Gateway, w: World, cfg: ServerConfig, first: HookContext, bearer: Option<string>,
                     tool: string, arguments: Option<Json>, k: nat, effects: seq<Effect>, reply: Reply)
    requires Settled(g, w, cfg, first, bearer, tool, arguments, k, effects, reply)
    ensures k <= Attempts(cfg) && Total(SleepOf, effects) == SleepAfter(cfg, k)
  {
    SettledTotal(SleepOf, g, w, cfg, first, bearer, tool, arguments, k, effects, reply);
    RetriesSleep(w, cfg, k, bearer, tool, arguments);
  }

  /** The whole loop, counted: sessions, disconnects and sleep are those of the attempts made. */
  lemma SettledCounts(g: Gateway, w: World, cfg: ServerConfig, first: HookContext, bearer: Option<string>,
                      tool: string, arguments: Option<Json>, k: nat, effects: seq<Effect>, reply: Reply)
    requires Settled(g, w, cfg, first, bearer, tool, arguments, k, effects, reply)
    ensures k <= Attempts(cfg) && Made(cfg, k) <= Attempts(cfg)
    ensures Total(IsSession, effects) == Made(cfg, k) as real
    ensures Total(IsDisconnect, effects) == Troubles(w, Made(cfg, k)) as real
    ensures Total(SleepOf, effects) == SleepAfter(cfg, k)
  {
    SettledSessions(g, w, cfg, first, bearer, tool, arguments, k, effects, reply);
    SettledDisconnects(g, w, cfg, first, bearer, tool, arguments, k, effects, reply);
    SettledSleep(g, w, cfg, first, bearer, tool, arguments, k, effects, reply);
  }

  lemma DecidedRuns(g: Gateway, w: World, first: HookContext, bearer: Option<string>, tool: string,
                    arguments: Option<Json>, k: nat, effects: seq<Effect>, reply: Reply)
    requires Decided(g, w, first, bearer, tool, arguments, k, effects, reply)
    ensures Total(IsRun, effects) <= 1.0
  {
    var tried := Tried(w, k, bearer, tool, arguments);
    var tail := effects[|tried|..];
    assert effects == tried + tail;
    TotalsAdd(IsRun, tried, tail);
    TotalOfTried(IsRun, w, k, bearer, tool, arguments);
    if tail != [] {
      assert tail == [tail[0]];
      TotalOfOne(IsRun, tail[0]);
    }
  }

  /** The pipeline runs at most once more after the first run, whatever the retries. */
  lemma SettledRuns(g: Gateway, w: World, cfg: ServerConfig, first: HookContext, bearer: Option<string>,
                    tool: string, arguments: Option<Json>, k: nat, effects: seq<Effect>, reply: Reply)
    requires Settled(g, w, cfg, first, bearer, tool, arguments, k, effects, reply)
    ensures Total(IsRun, effects) <= 1.0
  {
    var before := Retries(w, cfg, k, bearer, tool, arguments);
    RetriesCount(IsRun, false, false, w, cfg, k, bearer, tool, arguments);
    if k < Attempts(cfg) {
      var last := effects[|before|..];
      assert effects == before + last;
      TotalsAdd(IsRun, before, last);
      DecidedRuns(g, w, first, bearer, tool, arguments, k, last, reply);
    }
  }

  lemma ForwardedCounts(g: Gateway, w: World, cfg: ServerConfig, first: HookContext, server: string, tool: string,
                        arguments: Option<Json>, effects: seq<Effect>, reply: Reply)
    requires Forwarded(g, w, cfg, first, server, tool, arguments, effects, reply)
    ensures Total(IsRun, effects) <= 1.0
    ensures Total(IsSession, effects) <= Attempts(cfg) as real
    ensures Total(IsDisconnect, effects) <= Total(IsSession, effects)
  {
    var token := w.token(server, first.request);
    if token.Token? {
      var rest := effects[1..];
      var k: nat :| Settled(g, w, cfg, first, token.bearer, tool, arguments, k, rest, reply);
      SettledCounts(g, w, cfg, first, token.bearer, tool, arguments, k, rest, reply);
      SettledRuns(g, w, cfg, first, token.bearer, tool, arguments, k, rest, reply);
    } else {
      assert effects[1..] == [];
    }
  }

  /** Per call: at most two pipeline runs, at most max_retries + 1 session requests, at most one disconnect for each. */
  lemma CallIsBounded(g: Gateway, w: World, name: string, arguments: Option<Json>, effects: seq<Effect>, reply: Reply)
    requires CallSpec(g, w, name, arguments, effects, reply)
    ensures Total(IsRun, effects) <= 2.0
    ensures Total(IsDisconnect, effects) <= Total(IsSession, effects)
    ensures match R.ParseTool(name)
            case None => effects == []
            case Some((server, _)) =>
              if server in g.servers then Total(IsSession, effects) <= Attempts(g.servers[server]) as real
              else effects == []
  {
    var route := R.ParseTool(name);
    if route.Some? && route.value.0 in g.servers {
      var (server, tool) := route.value;
      var cfg := g.servers[server];
      if g.hooks.None? {
        ForwardedCounts(g, w, cfg, FirstContext(w, server, tool, cfg.transport, arguments), server, tool, arguments,
                        effects, reply);
      } else if effects[0].run.context.policyDecision == Denied {
        assert effects[1..] == [];
      } else {
        ForwardedCounts(g, w, cfg, effects[0].run.context, server, tool, arguments, effects[1..], reply);
      }
    }
  }

  /** A first run that denies is the whole call: no token is asked for and no session opened. */
  lemma DenialStopsTheCall(g: Gateway, w: World, name: string, arguments: Option<Json>, effects: seq<Effect>, reply: Reply)
    requires CallSpec(g, w, name, arguments, effects, reply)
    requires effects != [] && effects[0].Ran? && effects[0].run.context.policyDecision == Denied && g.hooks.Some?
    ensures effects == [effects[0]] && reply.Told? && reply.notice == AccessDenied
  {
    var route := R.ParseTool(name);
    assert route.Some? && route.value.0 in g.servers;
  }

  // ------------------------------------------------------------------
  // What the client is sent
  // ------------------------------------------------------------------

  /** The kinds of content the protocol's library has a class for. */
  const KINDS := {"text", "image", "resource"}

  /** The item's type, if it is one of these. */
  predicate OfKind(item: Json, kind: string) {
    kind in KINDS && item.JObject? && Get(item.fields, "type") == Some(JString(kind))
  }

  /** `entry` shows a dict: as content of its own kind, or printed as text if it is of none. */
  predicate Shows(w: World, item: Json, entry: Content) {
    && item.JObject?
    && (forall kind | kind in KINDS && OfKind(item, kind) :: entry == Item(kind, item))
    && ((forall kind | kind in KINDS :: !OfKind(item, kind)) ==> entry == Fallback(w.show(item)))
  }

  /** One entry per item, in order. */
  predicate ShowsAll(w: World, items: seq<Json>, content: seq<Content>) {
    |content| == |items| && forall i :: 0 <= i < |items| ==> Shows(w, items[i], content[i])
  }

  /** No dict, or of a known kind whose class rejects it. */
  predicate Unshowable(w: World, item: Json) {
    !item.JObject? || exists kind | kind in KINDS :: OfKind(item, kind) && !w.valid(kind, item)
  }

  predicate SomeUnshowable(w: World, items: seq<Json>) {
    exists item | item in items :: Unshowable(w, item)
  }

  lemma ItemIsShown(w: World, item: Json)
    ensures RebuildItem(w, item).None? <==> Unshowable(w, item)
    ensures RebuildItem(w, item).Some? ==> Shows(w, item, RebuildItem(w, item).value)
  {
    assert "text" in KINDS && "image" in KINDS && "resource" in KINDS;
    if item.JObject? {
      match Get(item.fields, "type")
      case Some(JString(kind)) => assert kind in KINDS ==> OfKind(item, kind);
      case _ =>
    }
  }

  lemma {:induction false} ItemsAreShown(w: World, items: seq<Json>)
    ensures RebuildItems(w, items).None? <==> SomeUnshowable(w, items)
    ensures RebuildItems(w, items).Some? ==> ShowsAll(w, items, RebuildItems(w, items).value)
  {
    if items == [] {
    } else {
      ItemIsShown(w, items[0]);
      ItemsAreShown(w, items[1..]);
      assert items == [items[0]] + items[1..];
    }
  }

  /**
   After a second run that succeeded and left a list as content: the client gets one entry per item, in order, or the
   exception that some item is no dict or no valid content of its kind.
   */
  lemma AnswersShowEveryItem(g: Gateway, w: World, first: HookContext, k: nat, tail: seq<Effect>, reply: Reply, items: seq<Json>)
    requires w.upstream(k).Returned? && Answered(g, w, first, k, tail, reply) && g.hooks.Some?
    requires var run := tail[0].run;
             run.success && run.context.responsePayload.JObject?
             && Get(run.context.responsePayload.fields, "content") == Some(JArray(items))
    ensures if SomeUnshowable(w, items) then reply == Raised(OtherException)
            else reply.Rebuilt? && ShowsAll(w, items, reply.content)
  {
    ItemsAreShown(w, items);
  }

  /** The first run starts from the call as it came in, with nobody identified and nothing decided. */
  lemma FirstRunSeesTheCall(g: Gateway, w: World, name: string, arguments: Option<Json>, effects: seq<Effect>, reply: Reply)
    requires CallSpec(g, w, name, arguments, effects, reply) && effects != [] && g.hooks.Some?
    ensures R.ParseTool(name).Some? && effects[0].Ran?
    ensures var (server, tool) := R.ParseTool(name).value;
            exists ctx: HookContext ::
              && Describes(g.hooks.value, w.clock(0), ctx, effects[0].run)
              && ctx.serverName == server && ctx.toolName == tool && ctx.authorization == w.authorization
              && ctx.request == RequestContext(w.correlationId, None, None, None) && ctx.policyDecision == Pending
              && (arguments.None? || arguments == Some(JNull) || arguments == Some(JObject([])) ==>
                    ctx.requestPayload == JObject([Field("arguments", JObject([]))]))
              && (arguments.Some? && arguments.value.JObject? ==>
                    ctx.requestPayload == JObject([Field("arguments", arguments.value)]))
  {
    var (server, tool) := R.ParseTool(name).value;
    var ctx := FirstContext(w, server, tool, g.servers[server].transport, arguments);
    assert Describes(g.hooks.value, w.clock(0), ctx, effects[0].run);
  }

  /** Attempt `a` met a timeout, or trouble with the transport that the disconnect got rid of. */
  predicate Excused(w: World, a: nat) {
    match w.session(a)
    case Ready => w.upstream(a).TimedOut? || (w.upstream(a).TransportFailed? && !w.disconnectRaises(a))
    case Unreachable => !w.disconnectRaises(a)
    case SessionBroke => false
  }

  /**
   A call without hooks whose attempts are excused up to one: if the budget reaches it and upstream answers it, the client
   gets that answer's content; if it fails otherwise, that exception; and if the budget does not reach it, the upstream error.
   */
  lemma FirstAnswerIsDelivered(g: Gateway, w: World, cfg: ServerConfig, first: HookContext, bearer: Option<string>,
                               tool: string, arguments: Option<Json>, k: nat, effects: seq<Effect>, reply: Reply,
                               answer: nat)
    requires g.hooks.None? && Settled(g, w, cfg, first, bearer, tool, arguments, k, effects, reply)
    requires forall a: nat :: a < answer ==> Excused(w, a)
    ensures answer <= cfg.maxRetries && w.session(answer).Ready? && w.upstream(answer).Returned? ==>
              k == answer && reply == Raw(w.upstream(answer).content)
    ensures answer > cfg.maxRetries ==> reply == Raised(UpstreamError)
    ensures answer <= cfg.maxRetries && !Excused(w, answer) && !(w.session(answer).Ready? && w.upstream(answer).Returned?) ==>
              k == answer && reply == Raised(OtherException)
  {
    assert forall a: nat :: FailsRetryably(w, a) <==> Excused(w, a);
    if k < answer {
      assert Excused(w, k);
    } else if answer < k {
      assert FailsRetryably(w, answer);
    }
  }

  // ------------------------------------------------------------------
  // What upstream is sent
  // ------------------------------------------------------------------

  /** Every upstream call among the effects is for this tool with these arguments. */
  ghost predicate Sends(tool: string, arguments: Option<Json>, effects: seq<Effect>) {
    forall i :: 0 <= i < |effects| && effects[i].CalledUpstream? ==> effects[i] == CalledUpstream(tool, arguments)
  }

  lemma {:induction false} RetriesSend(w: World, cfg: ServerConfig, k: nat, bearer: Option<string>, tool: string,
                                       arguments: Option<Json>)
    ensures Sends(tool, arguments, Retries(w, cfg, k, bearer, tool, arguments))
  {
    if k == 0 {
    } else {
      RetriesSend(w, cfg, k - 1, bearer, tool, arguments);
      assert Sends(tool, arguments, Tried(w, k - 1, bearer, tool, arguments)) && Sends(tool, arguments, Backoff(cfg, k - 1));
    }
  }

  lemma SendsBoth(tool: string, arguments: Option<Json>, a: seq<Effect>, effects: seq<Effect>)
    requires a <= effects && Sends(tool, arguments, a) && Sends(tool, arguments, effects[|a|..])
    ensures Sends(tool, arguments, effects)
  {
    assert effects == a + effects[|a|..];
  }

  lemma DecidedSends(g: Gateway, w: World, first: HookContext, bearer: Option<string>, tool: string,
                     arguments: Option<Json>, k: nat, effects: seq<Effect>, reply: Reply)
    requires Decided(g, w, first, bearer, tool, arguments, k, effects, reply)
    ensures Sends(tool, arguments, effects)
  {
    var tried := Tried(w, k, bearer, tool, arguments);
    assert Sends(tool, arguments, tried);
    if w.session(k).Ready? && w.upstream(k).Returned? {
      SendsBoth(tool, arguments, tried, effects);
    }
  }

  lemma ForwardedSends(g: Gateway, w: World, cfg: ServerConfig, first: HookContext, server: string, tool: string,
                       arguments: Option<Json>, effects: seq<Effect>, reply: Reply)
    requires Forwarded(g, w, cfg, first, server, tool, arguments, effects, reply)
    ensures Sends(tool, arguments, effects)
  {
    var token := w.token(server, first.request);
    if token.Token? {
      var rest := effects[1..];
      var k: nat :| Settled(g, w, cfg, first, token.bearer, tool, arguments, k, rest, reply);
      var before := Retries(w, cfg, k, token.bearer, tool, arguments);
      RetriesSend(w, cfg, k, token.bearer, tool, arguments);
      if k < Attempts(cfg) {
        DecidedSends(g, w, first, token.bearer, tool, arguments, k, rest[|before|..], reply);
        SendsBoth(tool, arguments, before, rest);
      }
      SendsBoth(tool, arguments, [AskedToken], effects);
    }
  }

  /** Whatever the hooks did to the request payload, upstream is sent the arguments the client gave. */
  lemma UpstreamSeesTheOriginalArguments(g: Gateway, w: World, name: string, arguments: Option<Json>, effects: seq<Effect>,
                                         reply: Reply, i: nat)
    requires CallSpec(g, w, name, arguments, effects, reply) && i < |effects| && effects[i].CalledUpstream?
    ensures R.ParseTool(name).Some? && effects[i] == CalledUpstream(R.ParseTool(name).value.1, arguments)
  {
    var (server, tool) := R.ParseTool(name).value;
    var cfg := g.servers[server];
    if g.hooks.None? {
      ForwardedSends(g, w, cfg, FirstContext(w, server, tool, cfg.transport, arguments), server, tool, arguments, effects, reply);
    } else if effects[0].run.context.policyDecision != Denied {
      ForwardedSends(g, w, cfg, effects[0].run.context, server, tool, arguments, effects[1..], reply);
      assert effects[i] == effects[1..][i - 1];
    }
  }
}
