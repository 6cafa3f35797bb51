/**
 The transport pool together with the token-exchange cache that feeds it: calls, listings and disconnects, cut at
 their awaits and arbitrarily interleaved with every step of the exchange machine.
 */
module SessionPool {
  import opened Prelude
  import opened Identity
  import Obo = OboExchange

  datatype SessionKey = SessionKey(server: string, subject: Option<string>)

  datatype Settings = Settings(enabled: bool, audience: string, scopes: seq<string>)

  /** Configured servers, and per server the exchange settings, if any. */
  datatype Setup = Setup(servers: set<string>, settings: map<string, Settings>, ttl: int)

  type TransportId = nat
  type LockId = nat
  type CallerId = nat

  function SubjectOf(context: Option<RequestContext>): Option<string> {
    if context.Some? && context.value.identity.Some? then Some(context.value.identity.value.userId) else None
  }

  datatype Connect = Connect(context: Option<RequestContext>, bearer: Option<string>)

  /** A transport with the record of every connect made on it; `key` is what it was created for. */
  datatype Transport = Transport(key: SessionKey, connected: bool, connects: seq<Connect>)

  datatype Pc =
    | Asking
    | Awaiting(task: Obo.TaskId)
    | Ready
    | HasGlobal
    | WantLock(lock: LockId)
    | HasLock(lock: LockId)
    | Connecting(lock: LockId, transport: TransportId)
    | Got(transport: TransportId)
    | Failed
    | Refused

  datatype Caller = Caller(server: string, context: Option<RequestContext>, auth: Option<string>, pc: Pc)
  {
    function Key(): SessionKey { SessionKey(server, SubjectOf(context)) }

    predicate Inside(lock: LockId) { (pc.HasLock? || pc.Connecting?) && pc.lock == lock }
  }

  /** A disconnect in progress: the keys still to pop. `disconnect_all` swallows errors, `disconnect` does not. */
  datatype Closer = Closer(keys: seq<SessionKey>, closing: Option<TransportId>, swallows: bool)

  /** The pool and everyone who uses it. */
  datatype Pool = Pool(
    transports: map<SessionKey, TransportId>,
    locks: map<SessionKey, LockId>,
    nextLock: LockId,
    globalHolder: Option<CallerId>,
    holders: map<LockId, CallerId>,
    heap: seq<Transport>,
    callers: seq<Caller>,
    closers: seq<Closer>)
  {
    function At(c: CallerId, pc: Pc): seq<Caller>
      requires c < |callers|
    {
      callers[c := callers[c].(pc := pc)]
    }

    function Link(x: TransportId, connected: bool): seq<Transport>
      requires x < |heap|
    {
      heap[x := heap[x].(connected := connected)]
    }
  }

  /** The pool beside the exchange machine that answers its callers. */
  datatype State = State(obo: Obo.State, pool: Pool)

  const START := State(Obo.START, Pool(map[], map[], 0, None, map[], [], [], []))

  // ------------------------------------------------------------------
  // The auth provider
  // ------------------------------------------------------------------

  datatype Decision = NoToken | Refuse | Ask(request: Obo.Request)

  /** `OBOAuthProvider.get_token` up to its exchange; an empty raw token counts as missing. */
  function Decide(settings: map<string, Settings>, server: string, context: RequestContext): Decision {
    if server !in settings || !settings[server].enabled then NoToken
    else if context.rawToken.None? || context.rawToken.value == "" then Refuse
    else if context.identity.None? then Refuse
    else Ask(Obo.Request(context.rawToken.value, context.identity.value.userId,
                         settings[server].audience, settings[server].scopes))
  }

  // ------------------------------------------------------------------
  // Steps
  // ------------------------------------------------------------------

  datatype Step =
    | Exchange(step: Obo.Step)
    | Call(server: string, context: RequestContext)
    | List(server: string)
    | Resume(c: CallerId)
    | Connected(c: CallerId)
    | Raise(c: CallerId)
    | Retry(c: CallerId)
    | Drop(keys: seq<SessionKey>, swallows: bool)
    | Close(d: nat)
    | CloseRaises(d: nat)
    | Drift(x: TransportId, connected: bool)

  /**
   Whether a step can be taken, given the exchange machine's state. Requests reach that machine from asking callers only,
   and a transport that no connect was made on never reports itself connected.
   */
  predicate Enabled(p: Pool, o: Obo.State, step: Step) {
    match step
    case Exchange(e) => Obo.Enabled(o, e) && !e.Arrive?
    case Call(_, _) => true
    case List(_) => true
    case Resume(c) => c < |p.callers| && CanResume(p, o, c)
    case Connected(c) => c < |p.callers| && p.callers[c].pc.Connecting? && p.callers[c].pc.transport < |p.heap|
    case Raise(c) => c < |p.callers| && !p.callers[c].pc.Got? && !p.callers[c].pc.Failed? && !p.callers[c].pc.Refused?
    case Retry(c) => c < |p.callers| && (p.callers[c].pc.Got? || p.callers[c].pc.Failed?)
    case Drop(_, _) => true
    case Close(d) => d < |p.closers| && (p.closers[d].closing.Some? ==> p.closers[d].closing.value < |p.heap|)
    case CloseRaises(d) => d < |p.closers| && p.closers[d].closing.Some?
    case Drift(x, connected) => x < |p.heap| && (connected ==> p.heap[x].connects != [])
  }

  predicate CanResume(p: Pool, o: Obo.State, c: CallerId)
    requires c < |p.callers|
  {
    match p.callers[c].pc
    case Asking => p.callers[c].context.Some?
    case Awaiting(t) => t < |o.tasks| && !o.tasks[t].Live()
    case Ready => p.globalHolder.None?
    case HasGlobal => true
    case WantLock(lock) => lock !in p.holders
    case HasLock(_) => p.callers[c].Key() in p.transports ==> p.transports[p.callers[c].Key()] < |p.heap|
    case _ => false
  }

  /** `get_session` under the key's lock: the pooled transport or a new one, connected only if it is not. */
  function TookLock(p: Pool, c: CallerId): Pool
    requires c < |p.callers| && p.callers[c].pc.HasLock?
    requires p.callers[c].Key() in p.transports ==> p.transports[p.callers[c].Key()] < |p.heap|
  {
    var caller, lock := p.callers[c], p.callers[c].pc.lock;
    var key := caller.Key();
    var created := key !in p.transports;
    var x := if created then |p.heap| else p.transports[key];
    var heap := if created then p.heap + [Transport(key, false, [])] else p.heap;
    var transports := if created then p.transports[key := x] else p.transports;
    if heap[x].connected then
      p.(transports := transports, heap := heap, holders := p.holders - {lock}, callers := p.At(c, Got(x)))
    else
      var connects := heap[x].connects + [Connect(caller.context, caller.auth)];
      p.(transports := transports, heap := heap[x := heap[x].(connects := connects)], callers := p.At(c, Connecting(lock, x)))
  }

  /** The caller asks the provider, or takes the provider's answer; only the caller itself changes. */
  function Provided(caller: Caller, o: Obo.State, u: Setup): Caller
    requires caller.pc.Asking? ==> caller.context.Some?
    requires caller.pc.Awaiting? ==> caller.pc.task < |o.tasks|
  {
    match caller.pc
    case Asking =>
      (match Decide(u.settings, caller.server, caller.context.value)
       case NoToken => caller.(pc := Ready)
       case Refuse => caller.(pc := Refused)
       case Ask(_) => caller.(pc := Awaiting(|o.tasks|)))
    case Awaiting(t) =>
      if o.tasks[t].pc.Returned? then caller.(auth := Some(o.tasks[t].pc.token.access), pc := Ready)
      else caller.(pc := Refused)
    case _ => caller
  }

  function Resumed(p: Pool, o: Obo.State, u: Setup, c: CallerId): Pool
    requires Enabled(p, o, Resume(c))
  {
    var caller := p.callers[c];
    var key := caller.Key();
    match caller.pc
    case Asking => p.(callers := p.callers[c := Provided(caller, o, u)])
    case Awaiting(_) => p.(callers := p.callers[c := Provided(caller, o, u)])
    case Ready =>
      if caller.server !in u.servers then p.(callers := p.At(c, Failed))
      else p.(globalHolder := Some(c), callers := p.At(c, HasGlobal))
    case HasGlobal =>
      if key in p.locks then p.(globalHolder := None, callers := p.At(c, WantLock(p.locks[key])))
      else p.(locks := p.locks[key := p.nextLock], nextLock := p.nextLock + 1,
              globalHolder := None, callers := p.At(c, WantLock(p.nextLock)))
    case WantLock(lock) => p.(holders := p.holders[lock := c], callers := p.At(c, HasLock(lock)))
    case HasLock(_) => TookLock(p, c)
    case _ => p
  }

  /** The connect returned: the transport is connected and its session is handed out. */
  function ConnectDone(p: Pool, c: CallerId): Pool
    requires c < |p.callers| && p.callers[c].pc.Connecting? && p.callers[c].pc.transport < |p.heap|
  {
    var pc := p.callers[c].pc;
    p.(heap := p.Link(pc.transport, true), holders := p.holders - {pc.lock}, callers := p.At(c, Got(pc.transport)))
  }

  /** The caller raises, or is cancelled, wherever it is; the locks it is inside of are released. */
  function CallerRaised(p: Pool, c: CallerId): Pool
    requires c < |p.callers|
  {
    var pc := p.callers[c].pc;
    var callers := p.At(c, if pc.Asking? || pc.Awaiting? then Refused else Failed);
    if pc.HasGlobal? then p.(globalHolder := None, callers := callers)
    else if pc.HasLock? || pc.Connecting? then p.(holders := p.holders - {pc.lock}, callers := callers)
    else p.(callers := callers)
  }

  /** One turn of the disconnect loop: finishes the transport it waits for, or pops the next key and its lock. */
  function Closed(p: Pool, d: nat): Pool
    requires d < |p.closers| && (p.closers[d].closing.Some? ==> p.closers[d].closing.value < |p.heap|)
  {
    var closer := p.closers[d];
    if closer.closing.Some? then
      p.(heap := p.Link(closer.closing.value, false), closers := p.closers[d := closer.(closing := None)])
    else if closer.keys == [] then p
    else
      var key := closer.keys[0];
      var closing := if key in p.transports then Some(p.transports[key]) else None;
      p.(transports := p.transports - {key}, locks := p.locks - {key},
         closers := p.closers[d := closer.(keys := closer.keys[1..], closing := closing)])
  }

  function CloseRaised(p: Pool, d: nat): Pool
    requires d < |p.closers|
  {
    var closer := p.closers[d];
    p.(closers := p.closers[d := closer.(keys := if closer.swallows then closer.keys else [], closing := None)])
  }

  /** What a step does to the pool. */
  function PoolAfter(p: Pool, o: Obo.State, u: Setup, step: Step): Pool
    requires Enabled(p, o, step)
  {
    match step
    case Exchange(_) => p
    case Call(server, context) => p.(callers := p.callers + [Caller(server, Some(context), None, Asking)])
    case List(server) => p.(callers := p.callers + [Caller(server, None, None, Ready)])
    case Resume(c) => Resumed(p, o, u, c)
    case Connected(c) => ConnectDone(p, c)
    case Raise(c) => CallerRaised(p, c)
    case Retry(c) => p.(callers := p.At(c, Ready))
    case Drop(keys, swallows) => p.(closers := p.closers + [Closer(keys, None, swallows)])
    case Close(d) => Closed(p, d)
    case CloseRaises(d) => CloseRaised(p, d)
    case Drift(x, connected) => p.(heap := p.Link(x, connected))
  }

  /** The exchange machine's own part of a step: a step of it, or the arrival of a caller's request. */
  function OboStep(p: Pool, o: Obo.State, u: Setup, step: Step): Option<Obo.Step>
    requires Enabled(p, o, step)
  {
    if step.Exchange? then Some(step.step)
    else if step.Resume? && p.callers[step.c].pc.Asking? then
      var decision := Decide(u.settings, p.callers[step.c].server, p.callers[step.c].context.value);
      if decision.Ask? then Some(Obo.Arrive(decision.request)) else None
    else None
  }

  function OboAfter(o: Obo.State, u: Setup, e: Option<Obo.Step>): Obo.State
    requires e.Some? ==> Obo.Enabled(o, e.value)
  {
    if e.Some? then Obo.Do(o, u.ttl, e.value) else o
  }

  function Do(s: State, u: Setup, step: Step): State
    requires Enabled(s.pool, s.obo, step)
  {
    State(OboAfter(s.obo, u, OboStep(s.pool, s.obo, u, step)), PoolAfter(s.pool, s.obo, u, step))
  }

  // ------------------------------------------------------------------
  // Isolation
  // ------------------------------------------------------------------

  /** `bearer` is the token of an exchange for this subject, with this server's audience and scopes. */
  ghost predicate Vouches(log: seq<Obo.Exchange>, i: nat, settings: map<string, Settings>, key: SessionKey, bearer: string) {
    && i < |log| && log[i].outcome.Stored? && log[i].outcome.token.access == bearer
    && key.server in settings && settings[key.server].enabled
    && key.subject == Some(log[i].request.subjectId)
    && log[i].request.audience == settings[key.server].audience
    && multiset(log[i].request.scopes) == multiset(settings[key.server].scopes)
  }

  ghost predicate Vouched(log: seq<Obo.Exchange>, u: Setup, key: SessionKey, bearer: Option<string>) {
    bearer.Some? ==> exists i: nat :: Vouches(log, i, u.settings, key, bearer.value)
  }

  /** Tokens are exchanged for calls of this server. */
  predicate Exchanges(u: Setup, server: string) {
    server in u.settings && u.settings[server].enabled
  }

  /** The exchange request of a call: the caller's own token and id, the server's own audience and scopes. */
  predicate AsksFor(u: Setup, server: string, context: RequestContext, request: Obo.Request) {
    && Exchanges(u, server)
    && context.rawToken.Some? && context.rawToken.value != "" && context.identity.Some?
    && request.subjectToken == context.rawToken.value
    && request.subjectId == context.identity.value.userId
    && request.audience == u.settings[server].audience
    && request.scopes == u.settings[server].scopes
  }

  ghost predicate ConnectOk(log: seq<Obo.Exchange>, u: Setup, key: SessionKey, connect: Connect) {
    && SubjectOf(connect.context) == key.subject && Vouched(log, u, key, connect.bearer)
    && (connect.bearer.Some? <==> connect.context.Some? && Exchanges(u, key.server))
  }

  /** Every connect made on a transport is for the subject it was created for. */
  ghost predicate TransportOk(log: seq<Obo.Exchange>, u: Setup, t: Transport) {
    forall k: nat :: k < |t.connects| ==> ConnectOk(log, u, t.key, t.connects[k])
  }

  /** Past the provider, a call has a token exactly if its server exchanges tokens; a listing never has one. */
  predicate TokenOk(u: Setup, caller: Caller) {
    if caller.pc.Asking? || caller.pc.Awaiting? || caller.pc.Refused? then caller.context.Some? && caller.auth.None?
    else caller.auth.Some? <==> caller.context.Some? && Exchanges(u, caller.server)
  }

  /** A caller waits for a request of its own, and holds only transports of its own key that it or another connected. */
  predicate CallerOk(heap: seq<Transport>, o: Obo.State, u: Setup, caller: Caller) {
    && TokenOk(u, caller)
    && match caller.pc {
      case Awaiting(t) => t < |o.tasks| && AsksFor(u, caller.server, caller.context.value, o.tasks[t].request)
      case HasGlobal => caller.server in u.servers
      case WantLock(_) => caller.server in u.servers
      case HasLock(_) => caller.server in u.servers
      case Connecting(_, x) => caller.server in u.servers && x < |heap| && heap[x].key == caller.Key() && heap[x].connects != []
      case Got(x) => caller.server in u.servers && x < |heap| && heap[x].key == caller.Key() && heap[x].connects != []
      case _ => true
    }
  }

  /** The request is one a call of the pool asks for. */
  predicate AskedBy(p: Pool, u: Setup, request: Obo.Request, c: CallerId) {
    && c < |p.callers| && p.callers[c].context.Some?
    && AsksFor(u, p.callers[c].server, p.callers[c].context.value, request)
  }

  ghost predicate Owned(p: Pool, u: Setup, request: Obo.Request) {
    exists c: CallerId :: AskedBy(p, u, request, c)
  }

  ghost predicate RequestsOwned(p: Pool, o: Obo.State, u: Setup) {
    forall t: Obo.TaskId :: t < |o.tasks| ==> Owned(p, u, o.tasks[t].request)
  }

  ghost predicate PooledOk(p: Pool) {
    forall key :: key in p.transports ==> p.transports[key] < |p.heap| && p.heap[p.transports[key]].key == key
  }

  /** What is connected was connected by somebody. */
  ghost predicate ConnectedOk(p: Pool) {
    forall x: TransportId :: x < |p.heap| && p.heap[x].connected ==> p.heap[x].connects != []
  }

  ghost predicate CallersOk(p: Pool, o: Obo.State, u: Setup) {
    forall c: CallerId :: c < |p.callers| ==>
                            CallerOk(p.heap, o, u, p.callers[c]) && Vouched(o.log, u, p.callers[c].Key(), p.callers[c].auth)
  }

  ghost predicate HeapOk(p: Pool, log: seq<Obo.Exchange>, u: Setup) {
    forall x: TransportId :: x < |p.heap| ==> TransportOk(log, u, p.heap[x])
  }

  ghost predicate Isolated(s: State, u: Setup) {
    && Obo.Inv(s.obo, u.ttl) && Obo.LogNamesRequests(s.obo) && RequestsOwned(s.pool, s.obo, u)
    && PooledOk(s.pool) && ConnectedOk(s.pool) && CallersOk(s.pool, s.obo, u) && HeapOk(s.pool, s.obo.log, u)
  }

  // ------------------------------------------------------------------
  // What no step undoes
  // ------------------------------------------------------------------

  /** Requests are kept and stored exchanges stay. */
  ghost predicate Recalls(o: Obo.State, o': Obo.State) {
    && |o'.tasks| >= |o.tasks| && (forall t: Obo.TaskId :: t < |o.tasks| ==> o'.tasks[t].request == o.tasks[t].request)
    && |o'.log| >= |o.log| && (forall i: nat :: i < |o.log| && o.log[i].outcome.Stored? ==> o'.log[i] == o.log[i])
  }

  lemma ExchangesKeepInvariant(o: Obo.State, u: Setup, e: Option<Obo.Step>)
    requires Obo.Inv(o, u.ttl) && (e.Some? ==> Obo.Enabled(o, e.value))
    ensures Obo.Inv(OboAfter(o, u, e), u.ttl) && Recalls(o, OboAfter(o, u, e))
  {
    if e.Some? {
      Obo.StepKeeps(o, u.ttl, e.value);
      Obo.HistoryStays(o, u.ttl, e.value);
    }
  }

  /** The heap grows; a transport keeps its key and its connects, to which at most one is added. */
  ghost predicate HeapGrows(heap: seq<Transport>, heap': seq<Transport>) {
    && |heap| <= |heap'|
    && forall x: TransportId :: x < |heap| ==> heap'[x].key == heap[x].key && heap[x].connects <= heap'[x].connects
  }

  /** The caller a step is taken by. */
  predicate TakenBy(step: Step, c: CallerId) {
    (step.Resume? || step.Connected? || step.Raise? || step.Retry?) && step.c == c
  }

  /** At most one caller's token and program counter change. */
  ghost predicate Moves(callers: seq<Caller>, callers': seq<Caller>, c: CallerId) {
    && c < |callers| && |callers'| == |callers|
    && (forall d: CallerId :: d < |callers| && d != c ==> callers'[d] == callers[d])
    && callers'[c].server == callers[c].server && callers'[c].context == callers[c].context
  }

  lemma TookLockKeeps(p: Pool, c: CallerId)
    requires c < |p.callers| && p.callers[c].pc.HasLock?
    requires p.callers[c].Key() in p.transports ==> p.transports[p.callers[c].Key()] < |p.heap|
    ensures Moves(p.callers, TookLock(p, c).callers, c) && HeapGrows(p.heap, TookLock(p, c).heap)
  {
  }

  /** The segments of `get_session` before it is inside the key's lock. */
  predicate BeforeLock(pc: Pc) {
    pc.Ready? || pc.HasGlobal? || pc.WantLock?
  }

  lemma BeforeLockKeeps(p: Pool, o: Obo.State, u: Setup, c: CallerId)
    requires Enabled(p, o, Resume(c)) && BeforeLock(p.callers[c].pc)
    ensures var p' := Resumed(p, o, u, c);
            && p'.heap == p.heap && p'.transports == p.transports && Moves(p.callers, p'.callers, c)
            && p'.callers[c].auth == p.callers[c].auth
            && (BeforeLock(p'.callers[c].pc) || p'.callers[c].pc.HasLock? || p'.callers[c].pc.Failed?)
            && p'.callers[c] == p.callers[c].(pc := p'.callers[c].pc)
            && (p.callers[c].pc.Ready? ==> p'.callers[c].pc.Failed? || p.callers[c].server in u.servers)
  {
  }

  lemma BeforeLockStaysOk(p: Pool, o: Obo.State, o': Obo.State, u: Setup, c: CallerId)
    requires Enabled(p, o, Resume(c)) && BeforeLock(p.callers[c].pc) && CallerOk(p.heap, o, u, p.callers[c])
    ensures c < |Resumed(p, o, u, c).callers|
            && CallerOk(Resumed(p, o, u, c).heap, o', u, Resumed(p, o, u, c).callers[c])
  {
    BeforeLockKeeps(p, o, u, c);
    BeforeLockIsOk(p.heap, o, o', u, p.callers[c], Resumed(p, o, u, c).callers[c]);
  }

  lemma BeforeLockIsOk(heap: seq<Transport>, o: Obo.State, o': Obo.State, u: Setup, before: Caller, after: Caller)
    requires CallerOk(heap, o, u, before) && BeforeLock(before.pc) && after == before.(pc := after.pc)
    requires BeforeLock(after.pc) || after.pc.HasLock? || after.pc.Failed?
    requires before.pc.Ready? ==> after.pc.Failed? || before.server in u.servers
    ensures CallerOk(heap, o', u, after)
  {
  }

  lemma ProvidingKeeps(p: Pool, o: Obo.State, u: Setup, c: CallerId)
    requires Enabled(p, o, Resume(c)) && (p.callers[c].pc.Asking? || p.callers[c].pc.Awaiting?)
    ensures var p' := Resumed(p, o, u, c);
            && p'.heap == p.heap && p'.transports == p.transports
            && p'.callers == p.callers[c := Provided(p.callers[c], o, u)] && Moves(p.callers, p'.callers, c)
  {
  }

  lemma ResumeKeeps(p: Pool, o: Obo.State, u: Setup, c: CallerId)
    requires Enabled(p, o, Resume(c))
    ensures Moves(p.callers, Resumed(p, o, u, c).callers, c) && HeapGrows(p.heap, Resumed(p, o, u, c).heap)
  {
    if p.callers[c].pc.HasLock? {
      TookLockKeeps(p, c);
    } else if BeforeLock(p.callers[c].pc) {
      BeforeLockKeeps(p, o, u, c);
    } else {
      ProvidingKeeps(p, o, u, c);
    }
  }

  lemma HeapOnlyGrows(p: Pool, o: Obo.State, u: Setup, step: Step)
    requires Enabled(p, o, step)
    ensures HeapGrows(p.heap, PoolAfter(p, o, u, step).heap)
  {
    if step.Resume? {
      ResumeKeeps(p, o, u, step.c);
    }
  }

  lemma CallersKeep(p: Pool, o: Obo.State, u: Setup, step: Step, c: CallerId)
    requires Enabled(p, o, step) && c < |p.callers|
    ensures var after := PoolAfter(p, o, u, step).callers;
            && c < |after| && (TakenBy(step, c) ==> Moves(p.callers, after, c))
            && (!TakenBy(step, c) ==> after[c] == p.callers[c])
  {
    if step.Resume? {
      ResumeKeeps(p, o, u, step.c);
    }
  }

  lemma NewcomersAreFresh(p: Pool, o: Obo.State, u: Setup, step: Step, c: CallerId)
    requires Enabled(p, o, step) && |p.callers| <= c < |PoolAfter(p, o, u, step).callers|
    ensures var caller := PoolAfter(p, o, u, step).callers[c];
            caller.auth.None? && ((caller.pc.Ready? && caller.context.None?) || (caller.pc.Asking? && caller.context.Some?))
  {
    if step.Resume? {
      ResumeKeeps(p, o, u, step.c);
    }
  }

  lemma VouchedStays(o: Obo.State, o': Obo.State, u: Setup, key: SessionKey, bearer: Option<string>)
    requires Vouched(o.log, u, key, bearer) && Recalls(o, o')
    ensures Vouched(o'.log, u, key, bearer)
  {
    if bearer.Some? {
      var i: nat :| Vouches(o.log, i, u.settings, key, bearer.value);
      assert Vouches(o'.log, i, u.settings, key, bearer.value);
    }
  }

  // ------------------------------------------------------------------
  // Every step keeps isolation
  // ------------------------------------------------------------------

  /** Only `get_session` inside the key's lock pools a transport or records a connect. */
  predicate InsideLock(p: Pool, step: Step) {
    step.Resume? && step.c < |p.callers| && p.callers[step.c].pc.HasLock?
  }

  lemma OnlyInsideLockPools(p: Pool, o: Obo.State, u: Setup, step: Step)
    requires Enabled(p, o, step) && !InsideLock(p, step)
    ensures var p' := PoolAfter(p, o, u, step);
            && (forall key :: key in p'.transports ==> key in p.transports && p'.transports[key] == p.transports[key])
            && (step.Close? || p'.transports == p.transports)
  {
    if step.Resume? {
      if BeforeLock(p.callers[step.c].pc) {
        BeforeLockKeeps(p, o, u, step.c);
      } else {
        ProvidingKeeps(p, o, u, step.c);
      }
    }
  }

  lemma OnlyInsideLockConnects(p: Pool, o: Obo.State, u: Setup, step: Step)
    requires Enabled(p, o, step) && !InsideLock(p, step)
    ensures var heap' := PoolAfter(p, o, u, step).heap;
            |heap'| == |p.heap| && forall x: TransportId :: x < |p.heap| ==> heap'[x].connects == p.heap[x].connects
  {
    if step.Resume? {
      if BeforeLock(p.callers[step.c].pc) {
        BeforeLockKeeps(p, o, u, step.c);
      } else {
        ProvidingKeeps(p, o, u, step.c);
      }
    }
  }

  lemma TookLockPools(p: Pool, c: CallerId)
    requires PooledOk(p) && c < |p.callers| && p.callers[c].pc.HasLock?
    ensures PooledOk(TookLock(p, c))
  {
  }

  lemma PoolStaysOk(p: Pool, o: Obo.State, u: Setup, step: Step)
    requires PooledOk(p) && Enabled(p, o, step)
    ensures PooledOk(PoolAfter(p, o, u, step))
  {
    if InsideLock(p, step) {
      TookLockPools(p, step.c);
    } else {
      OnlyInsideLockPools(p, o, u, step);
      HeapOnlyGrows(p, o, u, step);
    }
  }

  /** The token a finished exchange hands to its caller is vouched for under the caller's key. */
  lemma AnswerIsVouched(o: Obo.State, u: Setup, caller: Caller)
    requires Obo.Inv(o, u.ttl) && caller.pc.Awaiting? && CallerOk([], o, u, caller)
    requires o.tasks[caller.pc.task].pc.Returned?
    ensures Vouched(o.log, u, caller.Key(), Some(o.tasks[caller.pc.task].pc.token.access))
  {
    var t := caller.pc.task;
    Obo.TokenIsForItsRequest(o, u.ttl, t);
    var i: nat :| Obo.Supplied(o.log, i, o.tasks[t].request, o.tasks[t].pc.token);
    assert Vouches(o.log, i, u.settings, caller.Key(), o.tasks[t].pc.token.access);
  }

  lemma AuthIsVouched(o: Obo.State, u: Setup, caller: Caller)
    requires Obo.Inv(o, u.ttl) && CallerOk([], o, u, caller) && (caller.pc.Asking? || caller.pc.Awaiting?)
    requires Vouched(o.log, u, caller.Key(), caller.auth)
    ensures Vouched(o.log, u, caller.Key(), Provided(caller, o, u).auth)
  {
    if caller.pc.Awaiting? && o.tasks[caller.pc.task].pc.Returned? {
      AnswerIsVouched(o, u, caller);
    }
  }

  /** A caller's token changes only by the provider's answer. */
  lemma OnlyAnswersChangeAuth(p: Pool, o: Obo.State, u: Setup, step: Step, c: CallerId)
    requires Enabled(p, o, step) && TakenBy(step, c)
    ensures var after := PoolAfter(p, o, u, step).callers;
            && c < |after|
            && if step.Resume? && (p.callers[c].pc.Asking? || p.callers[c].pc.Awaiting?)
               then after[c] == Provided(p.callers[c], o, u)
               else after[c].auth == p.callers[c].auth
  {
    if step.Resume? {
      if BeforeLock(p.callers[c].pc) {
        BeforeLockKeeps(p, o, u, c);
      } else if !p.callers[c].pc.HasLock? {
        ProvidingKeeps(p, o, u, c);
      }
    }
  }

  lemma TookLockStaysOk(p: Pool, o: Obo.State, u: Setup, c: CallerId)
    requires PooledOk(p) && ConnectedOk(p) && c < |p.callers| && p.callers[c].pc.HasLock?
    requires CallerOk(p.heap, o, u, p.callers[c])
    ensures CallerOk(TookLock(p, c).heap, o, u, TookLock(p, c).callers[c])
  {
  }

  /** After an asking caller's request arrived, it is the caller's own that it waits for. */
  lemma ProvidedStaysOk(heap: seq<Transport>, p: Pool, o: Obo.State, u: Setup, c: CallerId)
    requires Enabled(p, o, Resume(c)) && (p.callers[c].pc.Asking? || p.callers[c].pc.Awaiting?)
    requires CallerOk(heap, o, u, p.callers[c])
    ensures CallerOk(heap, OboAfter(o, u, OboStep(p, o, u, Resume(c))), u, Provided(p.callers[c], o, u))
  {
  }

  lemma ConnectDoneStaysOk(p: Pool, o: Obo.State, u: Setup, c: CallerId)
    requires c < |p.callers| && p.callers[c].pc.Connecting? && CallerOk(p.heap, o, u, p.callers[c])
    ensures CallerOk(ConnectDone(p, c).heap, o, u, ConnectDone(p, c).callers[c])
  {
  }

  lemma ResumedStaysOk(p: Pool, o: Obo.State, o': Obo.State, u: Setup, c: CallerId)
    requires PooledOk(p) && ConnectedOk(p) && Enabled(p, o, Resume(c)) && o' == OboAfter(o, u, OboStep(p, o, u, Resume(c)))
    requires CallerOk(p.heap, o, u, p.callers[c])
    ensures c < |Resumed(p, o, u, c).callers|
            && CallerOk(Resumed(p, o, u, c).heap, o', u, Resumed(p, o, u, c).callers[c])
  {
    var pc := p.callers[c].pc;
    if pc.HasLock? {
      TookLockKeeps(p, c);
      TookLockStaysOk(p, o', u, c);
    } else if BeforeLock(pc) {
      BeforeLockStaysOk(p, o, o', u, c);
    } else {
      ProvidingKeeps(p, o, u, c);
      ProvidedStaysOk(p.heap, p, o, u, c);
    }
  }

  lemma ReturnedStaysOk(p: Pool, o: Obo.State, o': Obo.State, u: Setup, step: Step, c: CallerId)
    requires Enabled(p, o, step) && TakenBy(step, c) && !step.Resume? && CallerOk(p.heap, o', u, p.callers[c])
    ensures c < |PoolAfter(p, o, u, step).callers|
            && CallerOk(PoolAfter(p, o, u, step).heap, o', u, PoolAfter(p, o, u, step).callers[c])
  {
    if step.Connected? {
      ConnectDoneStaysOk(p, o', u, c);
    }
  }

  lemma MoverStaysOk(p: Pool, o: Obo.State, o': Obo.State, u: Setup, step: Step, c: CallerId)
    requires PooledOk(p) && ConnectedOk(p) && CallersOk(p, o, u) && Enabled(p, o, step) && TakenBy(step, c)
    requires o' == OboAfter(o, u, OboStep(p, o, u, step)) && Recalls(o, o')
    ensures c < |PoolAfter(p, o, u, step).callers|
            && CallerOk(PoolAfter(p, o, u, step).heap, o', u, PoolAfter(p, o, u, step).callers[c])
  {
    if step.Resume? {
      ResumedStaysOk(p, o, o', u, c);
    } else {
      BystanderStaysOk(p.heap, p.heap, o, o', u, p.callers[c]);
      ReturnedStaysOk(p, o, o', u, step, c);
    }
  }

  lemma BystanderStaysOk(heap: seq<Transport>, heap': seq<Transport>, o: Obo.State, o': Obo.State, u: Setup, caller: Caller)
    requires CallerOk(heap, o, u, caller) && Recalls(o, o') && HeapGrows(heap, heap')
    ensures CallerOk(heap', o', u, caller)
  {
  }

  lemma CallerStaysVouched(p: Pool, o: Obo.State, o': Obo.State, u: Setup, step: Step, c: CallerId)
    requires Obo.Inv(o, u.ttl) && CallersOk(p, o, u) && Enabled(p, o, step) && c < |p.callers| && Recalls(o, o')
    ensures c < |PoolAfter(p, o, u, step).callers|
            && Vouched(o'.log, u, p.callers[c].Key(), PoolAfter(p, o, u, step).callers[c].auth)
  {
    CallersKeep(p, o, u, step, c);
    assert CallerOk(p.heap, o, u, p.callers[c]);
    if TakenBy(step, c) {
      OnlyAnswersChangeAuth(p, o, u, step, c);
      if step.Resume? && (p.callers[c].pc.Asking? || p.callers[c].pc.Awaiting?) {
        AuthIsVouched(o, u, p.callers[c]);
      }
    }
    VouchedStays(o, o', u, p.callers[c].Key(), PoolAfter(p, o, u, step).callers[c].auth);
  }

  lemma OldCallerStaysOk(p: Pool, o: Obo.State, o': Obo.State, u: Setup, step: Step, c: CallerId)
    requires PooledOk(p) && ConnectedOk(p) && CallersOk(p, o, u) && Enabled(p, o, step)
    requires o' == OboAfter(o, u, OboStep(p, o, u, step)) && Recalls(o, o') && c < |p.callers|
    ensures c < |PoolAfter(p, o, u, step).callers|
            && CallerOk(PoolAfter(p, o, u, step).heap, o', u, PoolAfter(p, o, u, step).callers[c])
  {
    CallersKeep(p, o, u, step, c);
    if TakenBy(step, c) {
      MoverStaysOk(p, o, o', u, step, c);
    } else {
      HeapOnlyGrows(p, o, u, step);
      BystanderStaysOk(p.heap, PoolAfter(p, o, u, step).heap, o, o', u, p.callers[c]);
    }
  }

  lemma CallersStayOk(p: Pool, o: Obo.State, u: Setup, step: Step)
    requires Obo.Inv(o, u.ttl) && PooledOk(p) && ConnectedOk(p) && CallersOk(p, o, u) && Enabled(p, o, step)
    requires Recalls(o, OboAfter(o, u, OboStep(p, o, u, step)))
    ensures CallersOk(PoolAfter(p, o, u, step), OboAfter(o, u, OboStep(p, o, u, step)), u)
  {
    var p', o' := PoolAfter(p, o, u, step), OboAfter(o, u, OboStep(p, o, u, step));
    forall c: CallerId | c < |p'.callers|
      ensures CallerOk(p'.heap, o', u, p'.callers[c]) && Vouched(o'.log, u, p'.callers[c].Key(), p'.callers[c].auth)
    {
      if c >= |p.callers| {
        NewcomersAreFresh(p, o, u, step, c);
        NewcomerIsOk(p'.heap, o', u, p'.callers[c]);
      } else {
        CallersKeep(p, o, u, step, c);
        CallerStaysVouched(p, o, o', u, step, c);
        OldCallerStaysOk(p, o, o', u, step, c);
      }
    }
  }

  lemma NewcomerIsOk(heap: seq<Transport>, o: Obo.State, u: Setup, caller: Caller)
    requires caller.auth.None? && ((caller.pc.Ready? && caller.context.None?) || (caller.pc.Asking? && caller.context.Some?))
    ensures CallerOk(heap, o, u, caller) && Vouched(o.log, u, caller.Key(), caller.auth)
  {
  }

  /** A connect not on the record before is the mover's own: its context and its token. */
  lemma NewConnectsAreTheMovers(p: Pool, c: CallerId, x: TransportId, k: nat)
    requires PooledOk(p) && c < |p.callers| && p.callers[c].pc.HasLock?
    requires x < |TookLock(p, c).heap| && k < |TookLock(p, c).heap[x].connects|
    requires !(x < |p.heap| && k < |p.heap[x].connects|)
    ensures TookLock(p, c).heap[x].key == p.callers[c].Key()
    ensures TookLock(p, c).heap[x].connects[k] == Connect(p.callers[c].context, p.callers[c].auth)
  {
  }

  lemma HeapStaysOk(p: Pool, o: Obo.State, o': Obo.State, u: Setup, step: Step)
    requires PooledOk(p) && CallersOk(p, o, u) && HeapOk(p, o.log, u) && Enabled(p, o, step) && Recalls(o, o')
    ensures HeapOk(PoolAfter(p, o, u, step), o'.log, u)
  {
    var heap' := PoolAfter(p, o, u, step).heap;
    HeapOnlyGrows(p, o, u, step);
    forall x: TransportId | x < |heap'| ensures TransportOk(o'.log, u, heap'[x]) {
      forall k: nat | k < |heap'[x].connects| ensures ConnectOk(o'.log, u, heap'[x].key, heap'[x].connects[k]) {
        if x < |p.heap| && k < |p.heap[x].connects| {
          assert TransportOk(o.log, u, p.heap[x]) && ConnectOk(o.log, u, p.heap[x].key, p.heap[x].connects[k]);
          VouchedStays(o, o', u, p.heap[x].key, p.heap[x].connects[k].bearer);
        } else {
          if !InsideLock(p, step) {
            OnlyInsideLockConnects(p, o, u, step);
          }
          NewConnectsAreTheMovers(p, step.c, x, k);
          VouchedStays(o, o', u, p.callers[step.c].Key(), p.callers[step.c].auth);
        }
      }
    }
  }

  lemma TookLockStaysConnected(p: Pool, c: CallerId)
    requires PooledOk(p) && ConnectedOk(p) && c < |p.callers| && p.callers[c].pc.HasLock?
    ensures ConnectedOk(TookLock(p, c))
  {
  }

  lemma ConnectedStaysOk(p: Pool, o: Obo.State, u: Setup, step: Step)
    requires PooledOk(p) && ConnectedOk(p) && CallersOk(p, o, u) && Enabled(p, o, step)
    ensures ConnectedOk(PoolAfter(p, o, u, step))
  {
    if InsideLock(p, step) {
      TookLockStaysConnected(p, step.c);
    } else if step.Resume? {
      if BeforeLock(p.callers[step.c].pc) {
        BeforeLockKeeps(p, o, u, step.c);
      } else {
        ProvidingKeeps(p, o, u, step.c);
      }
    } else if step.Connected? {
      assert CallerOk(p.heap, o, u, p.callers[step.c]);
    }
  }

  /** Only the arrival of a request adds a task. */
  lemma OnlyArrivalsAddTasks(o: Obo.State, u: Setup, e: Obo.Step)
    requires Obo.Enabled(o, e) && !e.Arrive?
    ensures |Obo.Do(o, u.ttl, e).tasks| == |o.tasks|
  {
    if e.Resume? {
      Obo.ResumeIsOneMove(o, u.ttl, e.t);
    }
  }

  lemma RequestsStayOwned(p: Pool, o: Obo.State, u: Setup, step: Step)
    requires RequestsOwned(p, o, u) && Enabled(p, o, step) && Recalls(o, OboAfter(o, u, OboStep(p, o, u, step)))
    ensures RequestsOwned(PoolAfter(p, o, u, step), OboAfter(o, u, OboStep(p, o, u, step)), u)
  {
    var p', o' := PoolAfter(p, o, u, step), OboAfter(o, u, OboStep(p, o, u, step));
    if step.Exchange? {
      OnlyArrivalsAddTasks(o, u, step.step);
    }
    forall t: Obo.TaskId | t < |o'.tasks| ensures Owned(p', u, o'.tasks[t].request) {
      var request := o'.tasks[t].request;
      var c: CallerId;
      if t < |o.tasks| {
        assert Owned(p, u, o.tasks[t].request);
        c :| AskedBy(p, u, request, c);
      } else {
        c := step.c;
      }
      CallersKeep(p, o, u, step, c);
      assert AskedBy(p', u, request, c);
    }
  }

  lemma ExchangesKeepRequests(o: Obo.State, u: Setup, e: Option<Obo.Step>)
    requires Obo.LogNamesRequests(o) && (e.Some? ==> Obo.Enabled(o, e.value))
    ensures Obo.LogNamesRequests(OboAfter(o, u, e))
  {
    if e.Some? {
      Obo.StepNamesRequests(o, u.ttl, e.value);
    }
  }

  /** A state that is isolated, part by part. */
  lemma PartsAreIsolated(p: Pool, o: Obo.State, u: Setup)
    requires Obo.Inv(o, u.ttl) && Obo.LogNamesRequests(o) && RequestsOwned(p, o, u)
    requires PooledOk(p) && ConnectedOk(p) && CallersOk(p, o, u) && HeapOk(p, o.log, u)
    ensures Isolated(State(o, p), u)
  {
  }

  lemma StepKeepsIsolation(s: State, u: Setup, step: Step)
    requires Isolated(s, u) && Enabled(s.pool, s.obo, step)
    ensures Isolated(Do(s, u, step), u)
  {
    var p, o := s.pool, s.obo;
    var e := OboStep(p, o, u, step);
    ExchangesKeepInvariant(o, u, e);
    ExchangesKeepRequests(o, u, e);
    RequestsStayOwned(p, o, u, step);
    PoolStaysOk(p, o, u, step);
    ConnectedStaysOk(p, o, u, step);
    CallersStayOk(p, o, u, step);
    HeapStaysOk(p, o, OboAfter(o, u, e), u, step);
    PartsAreIsolated(PoolAfter(p, o, u, step), OboAfter(o, u, e), u);
  }

  // ------------------------------------------------------------------
  // Who is where
  // ------------------------------------------------------------------

  /** Where a caller stands with respect to the locks. */
  datatype Lane = Outside | InGlobal | Waiting(lock: LockId) | Within(lock: LockId)

  function LaneOf(caller: Caller): Lane {
    match caller.pc
    case HasGlobal => InGlobal
    case WantLock(lock) => Waiting(lock)
    case HasLock(lock) => Within(lock)
    case Connecting(lock, _) => Within(lock)
    case _ => Outside
  }

  predicate SameLocks(p: Pool, p': Pool) {
    p'.locks == p.locks && p'.nextLock == p.nextLock
  }

  predicate SameHolders(p: Pool, p': Pool) {
    p'.globalHolder == p.globalHolder && p'.holders == p.holders
  }

  /** What one caller's step does to locks and holders, lane by lane. */
  ghost predicate Hops(p: Pool, p': Pool, c: CallerId) {
    && Moves(p.callers, p'.callers, c)
    && match (LaneOf(p.callers[c]), LaneOf(p'.callers[c])) {
      case (Outside, Outside) => SameLocks(p, p') && SameHolders(p, p')
      case (Outside, InGlobal) =>
        SameLocks(p, p') && p.globalHolder.None? && p'.globalHolder == Some(c) && p'.holders == p.holders
      case (InGlobal, Outside) => SameLocks(p, p') && p'.globalHolder.None? && p'.holders == p.holders
      case (InGlobal, Waiting(lock)) => p'.globalHolder.None? && p'.holders == p.holders && Found(p, p', p.callers[c].Key(), lock)
      case (Waiting(_), Outside) => SameLocks(p, p') && SameHolders(p, p')
      case (Waiting(lock), Within(now)) =>
        now == lock && lock !in p.holders && SameLocks(p, p') && p'.globalHolder == p.globalHolder
        && p'.holders == p.holders[lock := c]
      case (Within(lock), Within(now)) => now == lock && SameLocks(p, p') && SameHolders(p, p')
      case (Within(lock), Outside) =>
        SameLocks(p, p') && p'.globalHolder == p.globalHolder && p'.holders == p.holders - {lock}
      case _ => false
    }
  }

  /** The key's lock, found or made fresh. */
  predicate Found(p: Pool, p': Pool, key: SessionKey, lock: LockId) {
    if key in p.locks then SameLocks(p, p') && lock == p.locks[key]
    else lock == p.nextLock && p'.nextLock == p.nextLock + 1 && p'.locks == p.locks[key := p.nextLock]
  }

  /** A step no caller takes: newcomers are outside, and a disconnect may drop one key it names. */
  ghost predicate Stands(p: Pool, p': Pool, dropped: set<SessionKey>) {
    && |p.callers| <= |p'.callers| && (forall c: CallerId :: c < |p.callers| ==> p'.callers[c] == p.callers[c])
    && (forall c: CallerId :: |p.callers| <= c < |p'.callers| ==> LaneOf(p'.callers[c]).Outside?)
    && SameHolders(p, p') && p'.nextLock == p.nextLock && p'.locks == p.locks - dropped
    && p'.transports == p.transports - dropped
  }

  /** The key a step of a disconnect pops, if it pops one. */
  function Popped(p: Pool, step: Step): set<SessionKey> {
    if step.Close? && step.d < |p.closers| && p.closers[step.d].closing.None? && p.closers[step.d].keys != []
    then {p.closers[step.d].keys[0]} else {}
  }

  predicate ByCaller(step: Step) {
    step.Resume? || step.Connected? || step.Raise? || step.Retry?
  }

  lemma TookLockHops(p: Pool, c: CallerId)
    requires c < |p.callers| && p.callers[c].pc.HasLock?
    requires p.callers[c].Key() in p.transports ==> p.transports[p.callers[c].Key()] < |p.heap|
    ensures Hops(p, TookLock(p, c), c) && TookLock(p, c).closers == p.closers
  {
  }

  lemma BeforeLockHops(p: Pool, o: Obo.State, u: Setup, c: CallerId)
    requires Enabled(p, o, Resume(c)) && BeforeLock(p.callers[c].pc)
    ensures Hops(p, Resumed(p, o, u, c), c) && Resumed(p, o, u, c).closers == p.closers
  {
  }

  lemma ProvidingHops(p: Pool, o: Obo.State, u: Setup, c: CallerId)
    requires Enabled(p, o, Resume(c)) && (p.callers[c].pc.Asking? || p.callers[c].pc.Awaiting?)
    ensures Hops(p, Resumed(p, o, u, c), c) && Resumed(p, o, u, c).closers == p.closers
  {
  }

  lemma ReturningHops(p: Pool, o: Obo.State, u: Setup, step: Step)
    requires Enabled(p, o, step) && ByCaller(step) && !step.Resume?
    ensures Hops(p, PoolAfter(p, o, u, step), step.c) && PoolAfter(p, o, u, step).closers == p.closers
  {
    if step.Raise? {
      RaisingHops(p, step.c);
    }
  }

  lemma RaisingHops(p: Pool, c: CallerId)
    requires c < |p.callers| && !p.callers[c].pc.Got? && !p.callers[c].pc.Failed? && !p.callers[c].pc.Refused?
    ensures Hops(p, CallerRaised(p, c), c) && CallerRaised(p, c).closers == p.closers
  {
  }

  lemma CallersHop(p: Pool, o: Obo.State, u: Setup, step: Step)
    requires Enabled(p, o, step) && ByCaller(step)
    ensures Hops(p, PoolAfter(p, o, u, step), step.c) && PoolAfter(p, o, u, step).closers == p.closers
  {
    if !step.Resume? {
      ReturningHops(p, o, u, step);
    } else if p.callers[step.c].pc.HasLock? {
      TookLockHops(p, step.c);
    } else if BeforeLock(p.callers[step.c].pc) {
      BeforeLockHops(p, o, u, step.c);
    } else {
      ProvidingHops(p, o, u, step.c);
    }
  }

  lemma OthersStand(p: Pool, o: Obo.State, u: Setup, step: Step)
    requires Enabled(p, o, step) && !ByCaller(step)
    ensures Stands(p, PoolAfter(p, o, u, step), Popped(p, step))
  {
    assert p.locks - {} == p.locks && p.transports - {} == p.transports;
  }

  // ------------------------------------------------------------------
  // Mutual exclusion, in every run
  // ------------------------------------------------------------------

  ghost predicate HolderOk(p: Pool, lock: LockId)
    requires lock in p.holders
  {
    p.holders[lock] < |p.callers| && LaneOf(p.callers[p.holders[lock]]) == Within(lock)
  }

  predicate HoldsOk(p: Pool, c: CallerId)
    requires c < |p.callers|
  {
    match LaneOf(p.callers[c])
    case InGlobal => p.globalHolder == Some(c)
    case Within(lock) => lock in p.holders && p.holders[lock] == c
    case _ => true
  }

  /** The holders of the locks are exactly the callers inside of them. */
  ghost predicate Mutex(p: Pool) {
    && (p.globalHolder.Some? ==> p.globalHolder.value < |p.callers| && LaneOf(p.callers[p.globalHolder.value]).InGlobal?)
    && (forall lock :: lock in p.holders ==> HolderOk(p, lock))
    && (forall c: CallerId :: c < |p.callers| ==> HoldsOk(p, c))
  }

  lemma HopKeepsMutex(p: Pool, p': Pool, c: CallerId)
    requires Mutex(p) && Hops(p, p', c)
    ensures Mutex(p')
  {
    assert HoldsOk(p, c);
    forall lock | lock in p'.holders ensures HolderOk(p', lock) {
      assert lock in p.holders ==> HolderOk(p, lock);
    }
    forall d: CallerId | d < |p'.callers| ensures HoldsOk(p', d) {
      assert HoldsOk(p, d);
    }
  }

  lemma StandKeeps(p: Pool, p': Pool, dropped: set<SessionKey>)
    requires Mutex(p) && Stands(p, p', dropped)
    ensures Mutex(p')
  {
    forall lock | lock in p'.holders ensures HolderOk(p', lock) {
      assert HolderOk(p, lock);
    }
    forall d: CallerId | d < |p'.callers| ensures HoldsOk(p', d) {
      assert d < |p.callers| ==> HoldsOk(p, d);
    }
  }

  lemma StepKeepsMutex(p: Pool, o: Obo.State, u: Setup, step: Step)
    requires Mutex(p) && Enabled(p, o, step)
    ensures Mutex(PoolAfter(p, o, u, step))
  {
    if ByCaller(step) {
      CallersHop(p, o, u, step);
      HopKeepsMutex(p, PoolAfter(p, o, u, step), step.c);
    } else {
      OthersStand(p, o, u, step);
      StandKeeps(p, PoolAfter(p, o, u, step), Popped(p, step));
    }
  }

  // ------------------------------------------------------------------
  // Uniqueness of a key no disconnect names
  // ------------------------------------------------------------------

  ghost predicate Unnamed(p: Pool, key: SessionKey) {
    forall d: nat :: d < |p.closers| ==> key !in p.closers[d].keys
  }

  /** A caller of the key that waits for a lock or is inside one has the key's own lock. */
  predicate LockOk(p: Pool, key: SessionKey, c: CallerId)
    requires c < |p.callers|
  {
    var lane := LaneOf(p.callers[c]);
    p.callers[c].Key() == key && (lane.Waiting? || lane.Within?) ==> key in p.locks && p.locks[key] == lane.lock
  }

  /** Every transport ever created for the key is still its pooled one. */
  ghost predicate Pooled(p: Pool, key: SessionKey) {
    forall x: TransportId :: x < |p.heap| && p.heap[x].key == key ==> key in p.transports && p.transports[key] == x
  }

  ghost predicate Sole(p: Pool, key: SessionKey) {
    Unnamed(p, key) && Pooled(p, key) && forall c: CallerId :: c < |p.callers| ==> LockOk(p, key, c)
  }

  lemma StaysUnnamed(p: Pool, o: Obo.State, u: Setup, step: Step, key: SessionKey)
    requires Unnamed(p, key) && Enabled(p, o, step) && (step.Drop? ==> key !in step.keys)
    ensures Unnamed(PoolAfter(p, o, u, step), key) && key !in Popped(p, step)
  {
    if ByCaller(step) {
      CallersHop(p, o, u, step);
    }
  }

  lemma LocksStayOk(p: Pool, o: Obo.State, u: Setup, step: Step, key: SessionKey)
    requires Sole(p, key) && Enabled(p, o, step) && key !in Popped(p, step)
    ensures forall c: CallerId :: c < |PoolAfter(p, o, u, step).callers| ==> LockOk(PoolAfter(p, o, u, step), key, c)
  {
    var p' := PoolAfter(p, o, u, step);
    if ByCaller(step) {
      CallersHop(p, o, u, step);
    } else {
      OthersStand(p, o, u, step);
    }
    forall c: CallerId | c < |p'.callers| ensures LockOk(p', key, c) {
      assert c < |p.callers| ==> LockOk(p, key, c);
    }
  }

  lemma TookLockStaysPooled(p: Pool, key: SessionKey, c: CallerId)
    requires PooledOk(p) && Pooled(p, key) && c < |p.callers| && p.callers[c].pc.HasLock?
    ensures Pooled(TookLock(p, c), key)
  {
    TookLockKeeps(p, c);
  }

  lemma StaysPooled(p: Pool, o: Obo.State, u: Setup, step: Step, key: SessionKey)
    requires PooledOk(p) && Pooled(p, key) && Enabled(p, o, step) && key !in Popped(p, step)
    ensures Pooled(PoolAfter(p, o, u, step), key)
  {
    if InsideLock(p, step) {
      TookLockStaysPooled(p, key, step.c);
    } else {
      OnlyInsideLockPools(p, o, u, step);
      OnlyInsideLockConnects(p, o, u, step);
      HeapOnlyGrows(p, o, u, step);
      if !ByCaller(step) {
        OthersStand(p, o, u, step);
      }
    }
  }

  lemma StepKeepsSole(p: Pool, o: Obo.State, u: Setup, step: Step, key: SessionKey)
    requires PooledOk(p) && Sole(p, key) && Enabled(p, o, step) && (step.Drop? ==> key !in step.keys)
    ensures Sole(PoolAfter(p, o, u, step), key)
  {
    StaysUnnamed(p, o, u, step, key);
    StaysPooled(p, o, u, step, key);
    LocksStayOk(p, o, u, step, key);
  }

  // ------------------------------------------------------------------
  // Every run
  // ------------------------------------------------------------------

  function Run(steps: seq<Step>, u: Setup): Option<State> {
    if steps == [] then Some(START)
    else
      var before, last := Run(steps[..|steps| - 1], u), steps[|steps| - 1];
      if before.Some? && Enabled(before.value.pool, before.value.obo, last) then Some(Do(before.value, u, last)) else None
  }

  lemma {:induction false} RunsKeep(steps: seq<Step>, u: Setup)
    requires Run(steps, u).Some?
    ensures var s := Run(steps, u).value; Isolated(s, u) && Mutex(s.pool)
  {
    if steps == [] {
      StartIsOk(u);
    } else {
      var front, last := steps[..|steps| - 1], steps[|steps| - 1];
      var before := Run(front, u).value;
      RunsKeep(front, u);
      StepKeepsIsolation(before, u, last);
      StepKeepsMutex(before.pool, before.obo, u, last);
    }
  }

  lemma StartIsOk(u: Setup)
    ensures Isolated(START, u) && Mutex(START.pool)
  {
  }

  /**
   In every run, with any disconnects: a connect on a transport carries a context of the subject the transport was
   created for; it carries a bearer exactly if a call made it and the server exchanges tokens, and then one from an
   exchange for that subject with that server's audience and scopes.
   */
  lemma SessionsAreIsolated(steps: seq<Step>, u: Setup, x: TransportId, k: nat)
    requires Run(steps, u).Some?
    requires var heap := Run(steps, u).value.pool.heap; x < |heap| && k < |heap[x].connects|
    ensures var s := Run(steps, u).value;
            var t := s.pool.heap[x];
            var connect := t.connects[k];
            && SubjectOf(connect.context) == t.key.subject && Vouched(s.obo.log, u, t.key, connect.bearer)
            && (connect.bearer.Some? <==> connect.context.Some? && Exchanges(u, t.key.server))
  {
    RunsKeep(steps, u);
    var s := Run(steps, u).value;
    assert TransportOk(s.obo.log, u, s.pool.heap[x]) && ConnectOk(s.obo.log, u, s.pool.heap[x].key, s.pool.heap[x].connects[k]);
  }

  /**
   In every run: a caller that waits for a token waits for an exchange of its own, with its own raw token and user id and
   its server's audience and scopes, and that is what the token endpoint is sent for it.
   */
  lemma ExchangesCarryTheCallersToken(steps: seq<Step>, u: Setup, c: CallerId)
    requires Run(steps, u).Some?
    requires var callers := Run(steps, u).value.pool.callers; c < |callers| && callers[c].pc.Awaiting?
    ensures var s := Run(steps, u).value;
            var caller := s.pool.callers[c];
            var t := caller.pc.task;
            && caller.context.Some? && caller.server in u.settings && u.settings[caller.server].enabled
            && var context := caller.context.value;
            && context.rawToken.Some? && context.rawToken.value != "" && context.identity.Some?
            && t < |s.obo.tasks| && s.obo.tasks[t].request.subjectToken == context.rawToken.value
            && s.obo.tasks[t].request.subjectId == context.identity.value.userId
            && s.obo.tasks[t].request.audience == u.settings[caller.server].audience
            && s.obo.tasks[t].request.scopes == u.settings[caller.server].scopes
            && forall i: nat :: i < |s.obo.log| && s.obo.log[i].task == t ==> s.obo.log[i].request == s.obo.tasks[t].request
  {
    RunsKeep(steps, u);
    var s := Run(steps, u).value;
    assert CallerOk(s.pool.heap, s.obo, u, s.pool.callers[c]);
  }

  /**
   In every run, whatever the token endpoint is sent was some call's own: its raw token as subject token, with its user
   id as the subject the answer is cached under, and its server's audience and scopes.
   */
  lemma EveryExchangeIsACallersOwn(steps: seq<Step>, u: Setup, i: nat)
    requires Run(steps, u).Some? && i < |Run(steps, u).value.obo.log|
    ensures var s := Run(steps, u).value;
            var request := s.obo.log[i].request;
            exists c: CallerId ::
              && c < |s.pool.callers| && s.pool.callers[c].context.Some?
              && var caller, context := s.pool.callers[c], s.pool.callers[c].context.value;
              && caller.server in u.settings && u.settings[caller.server].enabled
              && context.rawToken == Some(request.subjectToken) && request.subjectToken != ""
              && context.identity.Some? && request.subjectId == context.identity.value.userId
              && request.audience == u.settings[caller.server].audience
              && request.scopes == u.settings[caller.server].scopes
  {
    RunsKeep(steps, u);
    var s := Run(steps, u).value;
    var request := s.obo.log[i].request;
    assert Owned(s.pool, u, s.obo.tasks[s.obo.log[i].task].request);
    var c: CallerId :| AskedBy(s.pool, u, request, c);
    assert s.pool.callers[c].context.Some?;
  }

  /**
   What the provider does for a call: without an exchange to make, no token; with one but without a token or an identity
   to make it with, a refusal; otherwise the call's own request arrives at the exchange client and is waited for.
   */
  lemma ProviderAsksOnlyWithCredentials(s: State, u: Setup, c: CallerId)
    requires Enabled(s.pool, s.obo, Resume(c)) && s.pool.callers[c].pc.Asking?
    ensures var s', caller := Do(s, u, Resume(c)), s.pool.callers[c];
            var context := caller.context.value;
            var usable := context.rawToken.Some? && context.rawToken.value != "" && context.identity.Some?;
            && c < |s'.pool.callers|
            && if caller.server !in u.settings || !u.settings[caller.server].enabled then
                 s'.pool.callers[c] == caller.(pc := Ready) && s'.obo == s.obo
               else if !usable then
                 s'.pool.callers[c] == caller.(pc := Refused) && s'.obo == s.obo
               else
                 && s'.pool.callers[c] == caller.(pc := Awaiting(|s.obo.tasks|))
                 && s'.obo.tasks == s.obo.tasks
                      + [Obo.Task(Obo.Request(context.rawToken.value, context.identity.value.userId,
                                              u.settings[caller.server].audience, u.settings[caller.server].scopes), Obo.Start)]
  {
  }

  /** A session handed out is of a configured server, on a connected transport of the caller's own server and subject. */
  lemma CallersGetTheirOwnTransport(steps: seq<Step>, u: Setup, c: CallerId)
    requires Run(steps, u).Some?
    requires var callers := Run(steps, u).value.pool.callers; c < |callers| && callers[c].pc.Got?
    ensures var p := Run(steps, u).value.pool;
            var x := p.callers[c].pc.transport;
            && p.callers[c].server in u.servers
            && x < |p.heap| && p.heap[x].key == SessionKey(p.callers[c].server, SubjectOf(p.callers[c].context))
            && p.heap[x].connects != []
  {
    RunsKeep(steps, u);
    var s := Run(steps, u).value;
    assert CallerOk(s.pool.heap, s.obo, u, s.pool.callers[c]);
  }

  /** A transport keeps its server and subject, and the record of its connects, for the rest of the run. */
  lemma {:induction false} TransportsKeepTheirKeys(steps: seq<Step>, u: Setup, n: nat)
    requires Run(steps, u).Some? && n <= |steps|
    ensures Run(steps[..n], u).Some?
    ensures HeapGrows(Run(steps[..n], u).value.pool.heap, Run(steps, u).value.pool.heap)
  {
    if n == |steps| {
      assert steps[..n] == steps;
    } else {
      var front, last := steps[..|steps| - 1], steps[|steps| - 1];
      TransportsKeepTheirKeys(front, u, n);
      assert front[..n] == steps[..n];
      HeapOnlyGrows(Run(front, u).value.pool, Run(front, u).value.obo, u, last);
    }
  }

  // ------------------------------------------------------------------
  // Progress
  // ------------------------------------------------------------------

  predicate Finished(pc: Pc) {
    pc.Got? || pc.Failed? || pc.Refused?
  }

  /** A step that takes some task on: no failure, no retry, no new work, and a token endpoint that answers. */
  predicate Progresses(step: Step) {
    step.Resume? || step.Connected? || (step.Exchange? && (step.step.Resume? || step.step.Respond?))
  }

  lemma WithinCanMove(s: State, u: Setup, d: CallerId)
    requires Isolated(s, u) && d < |s.pool.callers| && LaneOf(s.pool.callers[d]).Within?
    ensures Enabled(s.pool, s.obo, Resume(d)) || Enabled(s.pool, s.obo, Connected(d))
  {
    assert CallerOk(s.pool.heap, s.obo, u, s.pool.callers[d]);
  }

  lemma AwaitingCanMove(s: State, u: Setup, c: CallerId)
    requires Isolated(s, u) && c < |s.pool.callers| && s.pool.callers[c].pc.Awaiting?
    ensures exists step :: Enabled(s.pool, s.obo, step) && Progresses(step)
  {
    var t := s.pool.callers[c].pc.task;
    assert CallerOk(s.pool.heap, s.obo, u, s.pool.callers[c]);
    if s.obo.tasks[t].Live() {
      Obo.SomeTaskCanMoveIn(s.obo, u.ttl, t);
      var v: Obo.TaskId :| Obo.Enabled(s.obo, Obo.Resume(v)) || Obo.Enabled(s.obo, Obo.Respond(v, "token", 0));
      var step := Exchange(if Obo.Enabled(s.obo, Obo.Resume(v)) then Obo.Resume(v) else Obo.Respond(v, "token", 0));
      assert Enabled(s.pool, s.obo, step) && Progresses(step);
    } else {
      assert Enabled(s.pool, s.obo, Resume(c)) && Progresses(Resume(c));
    }
  }

  /** In every run, disconnects included: while a caller has no session and no error, some task can go on. */
  lemma SomeTaskCanMove(steps: seq<Step>, u: Setup, c: CallerId)
    requires Run(steps, u).Some?
    requires var callers := Run(steps, u).value.pool.callers; c < |callers| && !Finished(callers[c].pc)
    ensures var s := Run(steps, u).value; exists step :: Enabled(s.pool, s.obo, step) && Progresses(step)
  {
    RunsKeep(steps, u);
    var s := Run(steps, u).value;
    var p, pc := s.pool, s.pool.callers[c].pc;
    assert CallerOk(p.heap, s.obo, u, p.callers[c]);
    if pc.Awaiting? {
      AwaitingCanMove(s, u, c);
    } else if LaneOf(p.callers[c]).Within? || (pc.WantLock? && pc.lock in p.holders) {
      var d := if pc.WantLock? then p.holders[pc.lock] else c;
      assert pc.WantLock? ==> HolderOk(p, pc.lock);
      WithinCanMove(s, u, d);
      assert Progresses(Resume(d)) && Progresses(Connected(d));
    } else {
      var d := if pc.Ready? && p.globalHolder.Some? then p.globalHolder.value else c;
      assert Enabled(p, s.obo, Resume(d)) && Progresses(Resume(d));
    }
  }

  // ------------------------------------------------------------------
  // One transport per key, exactly when no disconnect names the key
  // ------------------------------------------------------------------

  /** The disconnects of a run name none but these keys. */
  predicate DropsWithin(steps: seq<Step>, named: set<SessionKey>) {
    forall i :: 0 <= i < |steps| && steps[i].Drop? ==> forall key :: key in steps[i].keys ==> key in named
  }

  predicate BothConnecting(p: Pool, key: SessionKey, c: CallerId, d: CallerId) {
    && c < |p.callers| && d < |p.callers| && p.callers[c].Key() == key && p.callers[d].Key() == key
    && p.callers[c].pc.Connecting? && p.callers[d].pc.Connecting?
  }

  /** At most one transport of the key was ever created, and no two callers connect it at once. */
  ghost predicate Unique(p: Pool, key: SessionKey) {
    && (forall x: TransportId, y: TransportId ::
          x < |p.heap| && y < |p.heap| && p.heap[x].key == key && p.heap[y].key == key ==> x == y)
    && (forall c: CallerId, d: CallerId :: BothConnecting(p, key, c, d) ==> c == d)
  }

  lemma {:induction false} UnnamedKeysStaySole(steps: seq<Step>, u: Setup, key: SessionKey, named: set<SessionKey>)
    requires Run(steps, u).Some? && DropsWithin(steps, named) && key !in named
    ensures Sole(Run(steps, u).value.pool, key)
  {
    if steps == [] {
      assert Run(steps, u).value == START;
    } else {
      var front, last := steps[..|steps| - 1], steps[|steps| - 1];
      var before := Run(front, u).value;
      assert steps[|steps| - 1] == last && forall i :: 0 <= i < |front| ==> front[i] == steps[i];
      UnnamedKeysStaySole(front, u, key, named);
      RunsKeep(front, u);
      StepKeepsSole(before.pool, before.obo, u, last, key);
    }
  }

  /** In a run whose disconnects do not name the key, whatever else they name. */
  lemma UnnamedKeysAreUnique(steps: seq<Step>, u: Setup, key: SessionKey, named: set<SessionKey>)
    requires Run(steps, u).Some? && DropsWithin(steps, named) && key !in named
    ensures Unique(Run(steps, u).value.pool, key)
  {
    RunsKeep(steps, u);
    UnnamedKeysStaySole(steps, u, key, named);
    var p := Run(steps, u).value.pool;
    forall c: CallerId, d: CallerId | BothConnecting(p, key, c, d) ensures c == d {
      assert HoldsOk(p, c) && HoldsOk(p, d) && LockOk(p, key, c) && LockOk(p, key, d);
    }
  }
}
