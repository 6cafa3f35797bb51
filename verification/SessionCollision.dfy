/** A disconnect that names a key can give its uniqueness up, so uniqueness holds of exactly the keys none names. */
module SessionCollision {
  import opened Prelude
  import opened Identity
  import opened SessionPool
  import Obo = OboExchange

  /** A run under construction: where it is, and that its disconnects name no other key. */
  ghost predicate Reached(steps: seq<Step>, u: Setup, key: SessionKey, s: State) {
    Run(steps, u) == Some(s) && DropsWithin(steps, {key})
  }

  lemma OneMoreStep(steps: seq<Step>, u: Setup, key: SessionKey, s: State, step: Step)
    requires Reached(steps, u, key, s) && Enabled(s.pool, s.obo, step)
    requires step.Drop? ==> step.keys == [key]
    ensures Reached(steps + [step], u, key, Do(s, u, step))
  {
    assert (steps + [step])[..|steps|] == steps;
  }

  // ------------------------------------------------------------------
  // A caller of any key, ready to ask for its session
  // ------------------------------------------------------------------

  /** The context of a request by the subject, with a token to exchange. */
  function ContextOf(subject: string): RequestContext {
    RequestContext("", None, Some(UserIdentity(subject, None, [])), Some("token"))
  }

  /** The pool with one caller in it, about to ask for a session of the key. */
  ghost predicate OneReady(p: Pool, key: SessionKey) {
    && |p.callers| == 1 && p.callers[0].pc.Ready? && p.callers[0].Key() == key
    && p == START.pool.(callers := p.callers)
  }

  /** The exchange machine's steps of a lone request, as steps of the whole. */
  lemma {:induction false} LiftResumes(steps: seq<Step>, u: Setup, key: SessionKey, p: Pool, request: Obo.Request,
                                       o: seq<Obo.State>, k: nat) returns (more: seq<Step>)
    requires Obo.Alone(u.ttl, request, o) && k <= 5 && Reached(steps, u, key, State(o[0], p))
    ensures Reached(more, u, key, State(o[k], p))
  {
    if k == 0 {
      more := steps;
    } else {
      var before := LiftResumes(steps, u, key, p, request, o, k - 1);
      assert Obo.Enabled(o[k - 1], Obo.Resume(0)) && o[k] == Obo.Do(o[k - 1], u.ttl, Obo.Resume(0));
      OneMoreStep(before, u, key, State(o[k - 1], p), Exchange(Obo.Resume(0)));
      more := before + [Exchange(Obo.Resume(0))];
    }
  }

  lemma AskingCallerGetsReady(steps: seq<Step>, u: Setup, key: SessionKey, s: State, caller: Caller)
    returns (more: seq<Step>, s': State)
    requires Reached(steps, u, key, s) && s.obo == Obo.START && s.pool == START.pool.(callers := [caller])
    requires caller.pc.Asking? && caller.context.Some? && caller.Key() == key
    requires Decide(u.settings, caller.server, caller.context.value).Ask?
    ensures Reached(more, u, key, s') && OneReady(s'.pool, key)
  {
    var request := Decide(u.settings, caller.server, caller.context.value).request;
    var o := Obo.LoneRequestReturns(u.ttl, request);
    OneMoreStep(steps, u, key, s, Resume(0));
    var p := s.pool.(callers := [caller.(pc := Awaiting(0))]);
    assert Do(s, u, Resume(0)) == State(o[0], p);
    var asked := LiftResumes(steps + [Resume(0)], u, key, p, request, o, 5);
    OneMoreStep(asked, u, key, State(o[5], p), Exchange(Obo.Respond(0, "token", 0)));
    OneMoreStep(asked + [Exchange(Obo.Respond(0, "token", 0))], u, key, State(o[6], p), Resume(0));
    more := asked + [Exchange(Obo.Respond(0, "token", 0))] + [Resume(0)];
    s' := Do(State(o[6], p), u, Resume(0));
  }

  lemma SomeCallerGetsReady(u: Setup, key: SessionKey) returns (steps: seq<Step>, s: State)
    ensures Reached(steps, u, key, s) && OneReady(s.pool, key)
  {
    match key.subject
    case None =>
      OneMoreStep([], u, key, START, List(key.server));
      steps, s := [] + [List(key.server)], Do(START, u, List(key.server));
    case Some(subject) =>
      var call := Call(key.server, ContextOf(subject));
      OneMoreStep([], u, key, START, call);
      var called := Do(START, u, call);
      var caller := Caller(key.server, Some(ContextOf(subject)), None, Asking);
      if Decide(u.settings, key.server, ContextOf(subject)).Ask? {
        steps, s := AskingCallerGetsReady([] + [call], u, key, called, caller);
      } else {
        OneMoreStep([] + [call], u, key, called, Resume(0));
        steps, s := [] + [call] + [Resume(0)], Do(called, u, Resume(0));
      }
  }

  // ------------------------------------------------------------------
  // It creates a transport, loses it to a disconnect, and creates another
  // ------------------------------------------------------------------

  /** The lone caller is ready again; this many transports of the key have been created and none is pooled. */
  ghost predicate ReadyAfter(p: Pool, key: SessionKey, created: nat) {
    && |p.callers| == 1 && p.callers[0].pc.Ready? && p.callers[0].Key() == key
    && p.transports == map[] && p.locks == map[] && p.globalHolder.None? && p.holders == map[]
    && |p.heap| == created && forall x: TransportId :: x < created ==> p.heap[x].key == key
  }

  /** The lone caller is connecting the last transport created, which is the pooled one. */
  ghost predicate ConnectingAfter(p: Pool, key: SessionKey, created: nat) {
    && |p.callers| == 1 && p.callers[0].Key() == key && created > 0
    && p.callers[0].pc.Connecting? && p.callers[0].pc.transport == created - 1
    && p.transports == map[key := created - 1] && p.locks == map[key := p.callers[0].pc.lock]
    && p.globalHolder.None? && p.holders == map[p.callers[0].pc.lock := 0]
    && |p.heap| == created && forall x: TransportId :: x < created ==> p.heap[x].key == key
  }

  lemma LoneCallerTakesItsLock(p: Pool, o: Obo.State, u: Setup, key: SessionKey, created: nat) returns (p1: Pool, p2: Pool, p3: Pool)
    requires ReadyAfter(p, key, created) && key.server in u.servers
    ensures Enabled(p, o, Resume(0)) && p.callers[0].pc.Ready? && p1 == Resumed(p, o, u, 0)
    ensures Enabled(p1, o, Resume(0)) && p1.callers[0].pc.HasGlobal? && p2 == Resumed(p1, o, u, 0)
    ensures Enabled(p2, o, Resume(0)) && p2.callers[0].pc.WantLock? && p3 == Resumed(p2, o, u, 0)
    ensures p3 == p.(locks := map[key := p.nextLock], nextLock := p.nextLock + 1, holders := map[p.nextLock := 0],
                     callers := [p.callers[0].(pc := HasLock(p.nextLock))])
  {
    p1 := p.(globalHolder := Some(0), callers := [p.callers[0].(pc := HasGlobal)]);
    p2 := p.(locks := map[key := p.nextLock], nextLock := p.nextLock + 1,
             callers := [p.callers[0].(pc := WantLock(p.nextLock))]);
    p3 := p2.(holders := map[p.nextLock := 0], callers := [p.callers[0].(pc := HasLock(p.nextLock))]);
    assert p1.callers == p.At(0, HasGlobal);
    assert p2.callers == p1.At(0, WantLock(p.nextLock));
    assert p3.callers == p2.At(0, HasLock(p.nextLock));
  }

  lemma LoneCallerCreates(p: Pool, key: SessionKey, created: nat)
    requires |p.callers| == 1 && p.callers[0].pc.HasLock? && p.callers[0].Key() == key && p.transports == map[]
    requires p.locks == map[key := p.callers[0].pc.lock] && p.holders == map[p.callers[0].pc.lock := 0] && p.globalHolder.None?
    requires |p.heap| == created && forall x: TransportId :: x < created ==> p.heap[x].key == key
    ensures ConnectingAfter(TookLock(p, 0), key, created + 1) && TookLock(p, 0).closers == p.closers
  {
  }

  /** From ready to connecting: four steps of the caller. */
  lemma LoneCallerConnects(steps: seq<Step>, u: Setup, key: SessionKey, s: State, created: nat)
    returns (more: seq<Step>, s': State)
    requires Reached(steps, u, key, s) && ReadyAfter(s.pool, key, created) && key.server in u.servers
    ensures Reached(more, u, key, s') && ConnectingAfter(s'.pool, key, created + 1) && s'.pool.closers == s.pool.closers
  {
    var p1, p2, p3 := LoneCallerTakesItsLock(s.pool, s.obo, u, key, created);
    var step := Resume(0);
    OneMoreStep(steps, u, key, s, step);
    OneMoreStep(steps + [step], u, key, State(s.obo, p1), step);
    OneMoreStep(steps + [step] + [step], u, key, State(s.obo, p2), step);
    OneMoreStep(steps + [step] + [step] + [step], u, key, State(s.obo, p3), step);
    LoneCallerCreates(p3, key, created);
    more, s' := steps + [step] + [step] + [step] + [step], State(s.obo, TookLock(p3, 0));
  }

  lemma PoppedPool(p: Pool, key: SessionKey, created: nat)
    requires ConnectingAfter(p, key, created) && p.closers == [Closer([key], None, false)]
    ensures Closed(p, 0).transports == map[] && Closed(p, 0).locks == map[]
    ensures Closed(p, 0).callers == p.callers && Closed(p, 0).heap == p.heap && SameHolders(p, Closed(p, 0))
  {
    assert map[key := created - 1] - {key} == map[] && map[key := p.callers[0].pc.lock] - {key} == map[];
  }

  lemma FailedCallerRetries(p: Pool, key: SessionKey, created: nat)
    requires |p.callers| == 1 && p.callers[0].pc.Connecting? && p.callers[0].Key() == key
    requires p.transports == map[] && p.locks == map[] && p.globalHolder.None? && p.holders == map[p.callers[0].pc.lock := 0]
    requires |p.heap| == created && forall x: TransportId :: x < created ==> p.heap[x].key == key
    ensures var q := CallerRaised(p, 0); q.callers[0].pc.Failed? && ReadyAfter(q.(callers := q.At(0, Ready)), key, created)
  {
    assert map[p.callers[0].pc.lock := 0 as CallerId] - {p.callers[0].pc.lock} == map[];
  }

  /** A disconnect of the key pops the transport the caller is connecting; the connect fails, and the caller retries. */
  lemma LoneCallerIsDropped(steps: seq<Step>, u: Setup, key: SessionKey, s: State, created: nat)
    returns (more: seq<Step>, s': State)
    requires Reached(steps, u, key, s) && ConnectingAfter(s.pool, key, created) && s.pool.closers == []
    ensures Reached(more, u, key, s') && ReadyAfter(s'.pool, key, created)
  {
    var p1 := s.pool.(closers := [] + [Closer([key], None, false)]);
    OneMoreStep(steps, u, key, s, Drop([key], false));
    PoppedPool(p1, key, created);
    var p2 := Closed(p1, 0);
    OneMoreStep(steps + [Drop([key], false)], u, key, State(s.obo, p1), Close(0));
    FailedCallerRetries(p2, key, created);
    var p3 := CallerRaised(p2, 0);
    OneMoreStep(steps + [Drop([key], false)] + [Close(0)], u, key, State(s.obo, p2), Raise(0));
    OneMoreStep(steps + [Drop([key], false)] + [Close(0)] + [Raise(0)], u, key, State(s.obo, p3), Retry(0));
    more := steps + [Drop([key], false)] + [Close(0)] + [Raise(0)] + [Retry(0)];
    s' := State(s.obo, p3.(callers := p3.At(0, Ready)));
  }

  /** For any key of a configured server, a run whose one disconnect names it and in which two transports of it exist. */
  lemma DisconnectAllowsASecondTransport(u: Setup, key: SessionKey) returns (steps: seq<Step>)
    requires key.server in u.servers
    ensures Run(steps, u).Some? && DropsWithin(steps, {key}) && !Unique(Run(steps, u).value.pool, key)
  {
    var steps0, s0 := SomeCallerGetsReady(u, key);
    var steps1, s1 := LoneCallerConnects(steps0, u, key, s0, 0);
    var steps2, s2 := LoneCallerIsDropped(steps1, u, key, s1, 1);
    var steps3, s3 := LoneCallerConnects(steps2, u, key, s2, 1);
    assert s3.pool.heap[0].key == key && s3.pool.heap[1].key == key;
    steps := steps3;
  }

  /**
   However the tasks are interleaved, one transport of a key is ever created and its connects never overlap, exactly
   when the key is not among those that disconnects may name.
   */
  lemma UniqueIffNotNamed(u: Setup, key: SessionKey, named: set<SessionKey>)
    requires key.server in u.servers
    ensures (forall steps :: Run(steps, u).Some? && DropsWithin(steps, named) ==> Unique(Run(steps, u).value.pool, key))
       <==> key !in named
  {
    if key in named {
      var steps := DisconnectAllowsASecondTransport(u, key);
      assert DropsWithin(steps, named);
    } else {
      forall steps | Run(steps, u).Some? && DropsWithin(steps, named) ensures Unique(Run(steps, u).value.pool, key) {
        UnnamedKeysAreUnique(steps, u, key, named);
      }
    }
  }
}
