/** Registry, pipeline, standard hooks and call together: what can reach a client. */
module EndToEnd {
  import opened Prelude
  import opened Sorting
  import opened Json
  import M = MaskingWalkers
  import opened Context
  import opened Identity
  import P = PolicyEngine
  import R = ToolRouting
  import opened HookPipeline
  import opened StandardHooks
  import opened ProxyCall

  // ------------------------------------------------------------------
  // Any registration order gives the standard schedule
  // ------------------------------------------------------------------

  type Registration = (int, Hook)

  function At(priority: int, hooks: seq<Hook>): (r: seq<Registration>)
    ensures |r| == |hooks| && forall i :: 0 <= i < |r| ==> r[i] == (priority, hooks[i])
  {
    seq(|hooks|, i requires 0 <= i < |hooks| => (priority, hooks[i]))
  }

  function HooksIn(rs: seq<Registration>): (r: seq<Hook>)
    ensures |r| == |rs| && forall i :: 0 <= i < |r| ==> r[i] == rs[i].1
  {
    seq(|rs|, i requires 0 <= i < |rs| => rs[i].1)
  }

  /** The configured hooks with their default priorities. */
  function Registrations(std: Standard): seq<Registration> {
    var n := |std.ObserverHooks()| - 1;
    At(10, std.IdentityHooks()) + At(50, std.GovernanceHooks()) + At(55, std.FilterHooks())
    + At(75, std.MaskingHooks()) + At(145, std.ObserverHooks()[..n]) + At(150, std.ObserverHooks()[n..])
  }

  ghost predicate Rising(rs: seq<Registration>) {
    forall i, j :: 0 <= i < j < |rs| ==> rs[i].0 < rs[j].0
  }

  lemma RisingConcat(a: seq<Registration>, b: seq<Registration>, m: int)
    requires Rising(a) && Rising(b)
    requires (forall i :: 0 <= i < |a| ==> a[i].0 < m) && forall i :: 0 <= i < |b| ==> m <= b[i].0
    ensures Rising(a + b)
  {
  }

  lemma HooksInConcat(a: seq<Registration>, b: seq<Registration>)
    ensures HooksIn(a + b) == HooksIn(a) + HooksIn(b)
  {
  }

  lemma HooksInAt(priority: int, hooks: seq<Hook>)
    ensures HooksIn(At(priority, hooks)) == hooks
  {
  }

  /** Appends a group at a priority above everything so far. */
  lemma NextGroup(rs: seq<Registration>, bound: int, priority: int, hooks: seq<Hook>)
    requires Rising(rs) && (forall i :: 0 <= i < |rs| ==> rs[i].0 < bound) && bound <= priority && |hooks| <= 1
    ensures Rising(rs + At(priority, hooks))
    ensures forall i :: 0 <= i < |rs + At(priority, hooks)| ==> (rs + At(priority, hooks))[i].0 < priority + 1
    ensures HooksIn(rs + At(priority, hooks)) == HooksIn(rs) + hooks
  {
    RisingConcat(rs, At(priority, hooks), bound);
    HooksInConcat(rs, At(priority, hooks));
    HooksInAt(priority, hooks);
  }

  lemma GroupsRise(a: seq<Hook>, b: seq<Hook>, c: seq<Hook>, d: seq<Hook>, e: seq<Hook>, f: seq<Hook>)
    requires |a| <= 1 && |b| <= 1 && |c| <= 1 && |d| <= 1 && |e| <= 1 && |f| <= 1
    ensures var rs := At(10, a) + At(50, b) + At(55, c) + At(75, d) + At(145, e) + At(150, f);
            Rising(rs) && HooksIn(rs) == a + b + c + d + e + f
  {
    HooksInAt(10, a);
    NextGroup(At(10, a), 11, 50, b);
    NextGroup(At(10, a) + At(50, b), 51, 55, c);
    NextGroup(At(10, a) + At(50, b) + At(55, c), 56, 75, d);
    NextGroup(At(10, a) + At(50, b) + At(55, c) + At(75, d), 76, 145, e);
    NextGroup(At(10, a) + At(50, b) + At(55, c) + At(75, d) + At(145, e), 146, 150, f);
  }

  lemma RegistrationsRise(std: Standard)
    ensures Rising(Registrations(std))
    ensures HooksIn(Registrations(std)) == std.Hooks()
  {
    var o := std.ObserverHooks();
    var n := |o| - 1;
    var a, b, c, d := std.IdentityHooks(), std.GovernanceHooks(), std.FilterHooks(), std.MaskingHooks();
    GroupsRise(a, b, c, d, o[..n], o[n..]);
    assert o == o[..n] + o[n..];
    assert a + b + c + d + o[..n] + o[n..] == a + b + c + d + o;
  }

  predicate EarlierOrSame(x: Registration, y: Registration) {
    x.0 <= y.0
  }

  function Plain(entries: seq<Entry>): (r: seq<Registration>)
    ensures |r| == |entries| && forall i :: 0 <= i < |r| ==> r[i] == (entries[i].priority, entries[i].hook)
  {
    seq(|entries|, i requires 0 <= i < |entries| => (entries[i].priority, entries[i].hook))
  }

  lemma RisingOrderIsTheOnlyOne(rs: seq<Registration>, entries: seq<Entry>)
    requires Rising(rs) && StableByPriority(entries) && multiset(Plain(entries)) == multiset(rs)
    ensures HooksOf(entries) == HooksIn(rs)
  {
    var got := Plain(entries);
    assert TotalPreorder(EarlierOrSame);
    forall x, y | x in rs && y in rs && EarlierOrSame(x, y) && EarlierOrSame(y, x) ensures x == y {
      var i :| 0 <= i < |rs| && rs[i] == x;
      var j :| 0 <= j < |rs| && rs[j] == y;
    }
    SortedFormIsUnique(EarlierOrSame, rs, got);
    assert HooksOf(entries) == HooksIn(got);
  }

  /** However the standard hooks were registered, a built registry hands them out in the standard order. */
  lemma AnyRegistrationOrder(std: Standard, entries: seq<Entry>)
    requires StableByPriority(entries)
    requires multiset(Plain(entries)) == multiset(Registrations(std))
    ensures HooksOf(entries) == std.Hooks()
  {
    RegistrationsRise(std);
    RisingOrderIsTheOnlyOne(Registrations(std), entries);
  }

  // ------------------------------------------------------------------
  // One point over groups of hooks
  // ------------------------------------------------------------------

  function Pass(point: Point, hooks: seq<Hook>, now: nat, ctx: HookContext): Option<HookContext> {
    Fold(Block(point, hooks), now, ctx)
  }

  lemma PassConcat(point: Point, a: seq<Hook>, b: seq<Hook>, now: nat, ctx: HookContext)
    ensures Pass(point, a + b, now, ctx)
         == match Pass(point, a, now, ctx) case None => None case Some(c) => Pass(point, b, now + |a|, c)
  {
    assert Block(point, a + b) == Block(point, a) + Block(point, b);
    FoldConcat(Block(point, a), Block(point, b), now, ctx);
  }

  lemma PassOne(point: Point, hook: Hook, now: nat, ctx: HookContext)
    ensures Pass(point, [hook], now, ctx)
         == var out := hook.run(now, point, ctx); if out.Proceed? then Some(out.ctx) else None
  {
    var block := Block(point, [hook]);
    assert block == [] + [Step(point, hook)];
    var none: seq<Step> := [];
    assert Fold(none, now, ctx) == Some(ctx);
    FoldOneMore(none, now, ctx, Step(point, hook));
  }

  /** Same names, caller, payloads and decision. */
  predicate SameSubject(a: HookContext, b: HookContext) {
    && a.serverName == b.serverName && a.toolName == b.toolName && a.request == b.request
    && a.requestPayload == b.requestPayload && a.responsePayload == b.responsePayload
    && a.policyDecision == b.policyDecision
  }

  ghost predicate Neutral(point: Point, hooks: seq<Hook>) {
    forall now: nat, ctx :: var c := Pass(point, hooks, now, ctx); c.Some? ==> SameSubject(c.value, ctx)
  }

  lemma NeutralConcat(point: Point, a: seq<Hook>, b: seq<Hook>)
    requires Neutral(point, a) && Neutral(point, b)
    ensures Neutral(point, a + b)
  {
    forall now: nat, ctx | Pass(point, a + b, now, ctx).Some?
      ensures SameSubject(Pass(point, a + b, now, ctx).value, ctx)
    {
      PassConcat(point, a, b, now, ctx);
      var c := Pass(point, a, now, ctx).value;
      assert SameSubject(c, ctx);
      assert SameSubject(Pass(point, b, now + |a|, c).value, c);
    }
  }

  lemma OneIsNeutral(point: Point, hook: Hook)
    requires forall now: nat, ctx :: var out := hook.run(now, point, ctx); out.Proceed? ==> SameSubject(out.ctx, ctx)
    ensures Neutral(point, [hook])
  {
    forall now: nat, ctx | Pass(point, [hook], now, ctx).Some? ensures SameSubject(Pass(point, [hook], now, ctx).value, ctx) {
      PassOne(point, hook, now, ctx);
    }
  }

  lemma NoneIsNeutral(point: Point)
    ensures Neutral(point, [])
  {
    forall now: nat, ctx ensures Pass(point, [], now, ctx) == Some(ctx) {
      assert Block(point, []) == [];
    }
  }

  lemma ObserversAreNeutral(std: Standard, point: Point)
    ensures Neutral(point, std.ObserverHooks())
  {
    var o := std.ObserverHooks();
    OneIsNeutral(point, o[|o| - 1]);
    if |o| == 2 {
      OneIsNeutral(point, o[0]);
      NeutralConcat(point, [o[0]], [o[1]]);
      assert o == [o[0]] + [o[1]];
    } else {
      assert o == [o[0]];
    }
  }

  lemma GroupIsNeutral(point: Point, hooks: seq<Hook>)
    requires |hooks| <= 1
    requires forall h, now: nat, ctx | h in hooks ::
               var out := h.run(now, point, ctx); out.Proceed? ==> SameSubject(out.ctx, ctx)
    ensures Neutral(point, hooks)
  {
    if hooks == [] {
      NoneIsNeutral(point);
    } else {
      OneIsNeutral(point, hooks[0]);
      assert hooks == [hooks[0]];
    }
  }

  lemma GroupsAreNeutral(std: Standard, point: Point)
    ensures point != PreValidation ==> Neutral(point, std.IdentityHooks())
    ensures point != PostValidation ==> Neutral(point, std.GovernanceHooks())
    ensures point != PostMasking ==> Neutral(point, std.FilterHooks())
    ensures point != PreMasking && point != PostMasking ==> Neutral(point, std.MaskingHooks())
  {
    if point != PreValidation {
      GroupIsNeutral(point, std.IdentityHooks());
    }
    if point != PostValidation {
      GroupIsNeutral(point, std.GovernanceHooks());
    }
    if point != PostMasking {
      GroupIsNeutral(point, std.FilterHooks());
      if point != PreMasking {
        GroupIsNeutral(point, std.MaskingHooks());
      }
    }
  }

  /** Five groups of hooks, passed one after another. */
  lemma PassFive(point: Point, a: seq<Hook>, b: seq<Hook>, c: seq<Hook>, d: seq<Hook>, e: seq<Hook>, now: nat, ctx: HookContext)
    returns (c1: HookContext, c2: HookContext, c3: HookContext, c4: HookContext)
    requires Pass(point, a + b + c + d + e, now, ctx).Some?
    ensures Pass(point, a, now, ctx) == Some(c1)
    ensures exists n :: Pass(point, b, n, c1) == Some(c2)
    ensures exists n :: Pass(point, c, n, c2) == Some(c3)
    ensures exists n :: Pass(point, d, n, c3) == Some(c4)
    ensures exists n :: Pass(point, e, n, c4) == Pass(point, a + b + c + d + e, now, ctx)
  {
    PassConcat(point, a + b + c + d, e, now, ctx);
    PassConcat(point, a + b + c, d, now, ctx);
    PassConcat(point, a + b, c, now, ctx);
    PassConcat(point, a, b, now, ctx);
    c1 := Pass(point, a, now, ctx).value;
    c2 := Pass(point, b, now + |a|, c1).value;
    c3 := Pass(point, c, now + |a + b|, c2).value;
    c4 := Pass(point, d, now + |a + b + c|, c3).value;
  }

  /** The five groups of the standard schedule. */
  lemma PassGroups(std: Standard, point: Point, now: nat, ctx: HookContext)
    returns (c1: HookContext, c2: HookContext, c3: HookContext, c4: HookContext)
    requires Pass(point, std.Hooks(), now, ctx).Some?
    ensures Pass(point, std.IdentityHooks(), now, ctx) == Some(c1)
    ensures exists n :: Pass(point, std.GovernanceHooks(), n, c1) == Some(c2)
    ensures exists n :: Pass(point, std.FilterHooks(), n, c2) == Some(c3)
    ensures exists n :: Pass(point, std.MaskingHooks(), n, c3) == Some(c4)
    ensures exists n :: Pass(point, std.ObserverHooks(), n, c4) == Pass(point, std.Hooks(), now, ctx)
  {
    c1, c2, c3, c4 := PassFive(point, std.IdentityHooks(), std.GovernanceHooks(), std.FilterHooks(), std.MaskingHooks(),
                               std.ObserverHooks(), now, ctx);
  }

  // ------------------------------------------------------------------
  // The five points of a run that succeeds
  // ------------------------------------------------------------------

  /** The response after the filter, if there is one. */
  function FilteredBy(std: Standard, server: string, tool: string, payload: Json): Json {
    if std.filter.Some? then FilterResponse(std.filter.value, server, tool, payload) else payload
  }

  /** The response as a client may see it: filtered, then masked. */
  function Present(std: Standard, server: string, tool: string, payload: Json): Json {
    var filtered := FilteredBy(std, server, tool, payload);
    if std.masking.Some? then MaskResponse(std.masking.value, filtered) else filtered
  }

  /** Where masking is on, every string of the response is one the engine answered for, replaced if it was flagged. */
  ghost predicate Shielded(std: Standard, filtered: Json, shown: Json) {
    std.masking.Some? && std.masking.value.enabled && filtered.Truthy() ==>
      M.AllRewritten(std.masking.value.engine, M.Response, filtered, shown)
  }

  /** If identities are validated at all, the caller's was, from the header it sent, whose token the request carries. */
  ghost predicate CallerValidated(std: Standard, authorization: string, request: RequestContext) {
    std.identity.Some? ==>
      && request.identity.Some?
      && std.identity.value.bearer(authorization).Some?
      && request.rawToken == std.identity.value.bearer(authorization)
      && exists now :: std.identity.value.validate(now, std.identity.value.bearer(authorization).value)
                       == Validated(request.identity.value)
  }

  /**
   The policy allows this caller this tool, under its own user id and groups, or as `anonymous` where that is allowed.
   */
  predicate GovernancePassed(std: Standard, identity: Option<UserIdentity>, server: string, tool: string) {
    std.governance.Some? ==>
      var g := std.governance.value;
      match identity
      case Some(id) => P.Effect(g.policy, P.PolicyInput(id.userId, id.groups, server, tool)) == P.Allow
      case None => !g.identityRequired && P.Effect(g.policy, P.PolicyInput("anonymous", [], server, tool)) == P.Allow
  }

  /** Every repository a request in the filter's scope names is permitted. */
  predicate RepositoriesPassed(std: Standard, server: string, payload: Json) {
    std.filter.Some? && (std.filter.value.servers == [] || server in std.filter.value.servers) ==>
      forall repo | repo in std.filter.value.requestRepos(payload) :: Permitted(std.filter.value, repo)
  }

  lemma PreValidationPoint(std: Standard, now: nat, ctx: HookContext, next: HookContext)
    requires Pass(PreValidation, std.Hooks(), now, ctx) == Some(next)
    ensures SameSubject(next, ctx.(request := next.request))
    ensures CallerValidated(std, ctx.authorization, next.request)
  {
    var c1, c2, c3, c4 := PassGroups(std, PreValidation, now, ctx);
    GroupsAreNeutral(std, PreValidation);
    ObserversAreNeutral(std, PreValidation);
    assert SameSubject(c2, c1) && SameSubject(c3, c2) && SameSubject(c4, c3) && SameSubject(next, c4);
    if std.identity.Some? {
      assert std.IdentityHooks() == [std.IdentityHooks()[0]];
      PassOne(PreValidation, std.IdentityHooks()[0], now, ctx);
    } else {
      assert Block(PreValidation, std.IdentityHooks()) == [];
    }
  }

  /** `main.py` requires an identity exactly when it registers the identity hook. */
  predicate Assembled(std: Standard) {
    std.governance.Some? ==> std.governance.value.identityRequired == std.identity.Some?
  }

  /**
   In an assembled gateway, for every caller whose listing passes validation: the routable part of the listing is, in
   order, exactly the fetched tools whose call governance would admit for that caller.
   */
  lemma ListingShowsWhatCanBeCalled(std: Standard, now: nat, ctx: HookContext, next: HookContext, fetched: seq<R.Tool>)
    requires Assembled(std) && std.governance.Some?
    requires Pass(PreValidation, std.Hooks(), now, ctx) == Some(next)
    ensures var g, identity := std.governance.value, next.request.identity;
            R.Where(R.Routable, R.Listed(g.policy, identity, fetched))
            == R.Where(R.Admitted(g.policy, g.identityRequired, identity), fetched)
  {
    var g, identity := std.governance.value, next.request.identity;
    PreValidationPoint(std, now, ctx, next);
    R.ListingAgreesWithCallingIff(g.policy, g.identityRequired, identity, fetched);
  }

  /** What governance decides, in the words of its policy. */
  lemma GovernanceDecides(std: Standard, ctx: HookContext)
    requires std.governance.Some?
    ensures var out := RunGovernance(std.governance.value, PostValidation, ctx);
            if GovernancePassed(std, ctx.request.identity, ctx.serverName, ctx.toolName)
            then out.Proceed? && SameSubject(out.ctx, ctx.(policyDecision := Allowed))
            else out.ShortCircuit? && out.deny
  {
  }

  /** What the filter decides about a request. */
  lemma FilterDecides(std: Standard, ctx: HookContext)
    requires std.filter.Some?
    ensures RunFilter(std.filter.value, PostValidation, ctx)
         == if RepositoriesPassed(std, ctx.serverName, ctx.requestPayload) then Proceed(ctx)
            else ShortCircuit("Repository is not allowed", true)
  {
    var c := std.filter.value;
    assert forall repo :: ShouldKeep(c, repo) <==> Permitted(c, repo);
  }

  lemma GovernanceStep(std: Standard, c: HookContext, next: HookContext)
    requires exists n :: Pass(PostValidation, std.GovernanceHooks(), n, c) == Some(next)
    ensures SameSubject(next, c.(policyDecision := if std.governance.Some? then Allowed else c.policyDecision))
    ensures GovernancePassed(std, c.request.identity, c.serverName, c.toolName)
  {
    var n :| Pass(PostValidation, std.GovernanceHooks(), n, c) == Some(next);
    if std.governance.Some? {
      assert std.GovernanceHooks() == [std.GovernanceHooks()[0]];
      PassOne(PostValidation, std.GovernanceHooks()[0], n, c);
      GovernanceDecides(std, c);
    } else {
      assert Block(PostValidation, std.GovernanceHooks()) == [];
    }
  }

  lemma RequestFilterStep(std: Standard, c: HookContext, next: HookContext)
    requires exists n :: Pass(PostValidation, std.FilterHooks(), n, c) == Some(next)
    ensures next == c && RepositoriesPassed(std, c.serverName, c.requestPayload)
  {
    var n :| Pass(PostValidation, std.FilterHooks(), n, c) == Some(next);
    if std.filter.Some? {
      assert std.FilterHooks() == [std.FilterHooks()[0]];
      PassOne(PostValidation, std.FilterHooks()[0], n, c);
      FilterDecides(std, c);
    } else {
      assert Block(PostValidation, std.FilterHooks()) == [];
    }
  }

  lemma PostValidationPoint(std: Standard, now: nat, ctx: HookContext, next: HookContext)
    requires Pass(PostValidation, std.Hooks(), now, ctx) == Some(next)
    ensures SameSubject(next, ctx.(policyDecision := if std.governance.Some? then Allowed else ctx.policyDecision))
    ensures GovernancePassed(std, ctx.request.identity, ctx.serverName, ctx.toolName)
    ensures RepositoriesPassed(std, ctx.serverName, ctx.requestPayload)
  {
    var c1, c2, c3, c4 := PassGroups(std, PostValidation, now, ctx);
    GroupsAreNeutral(std, PostValidation);
    ObserversAreNeutral(std, PostValidation);
    assert SameSubject(c1, ctx) && SameSubject(c4, c3) && SameSubject(next, c4);
    GovernanceStep(std, c1, c2);
    RequestFilterStep(std, c2, c3);
  }

  lemma PreMaskingPoint(std: Standard, now: nat, ctx: HookContext, next: HookContext)
    requires Pass(PreMasking, std.Hooks(), now, ctx) == Some(next)
    ensures SameSubject(next, ctx.(requestPayload := next.requestPayload))
  {
    var c1, c2, c3, c4 := PassGroups(std, PreMasking, now, ctx);
    GroupsAreNeutral(std, PreMasking);
    ObserversAreNeutral(std, PreMasking);
    assert SameSubject(c1, ctx) && SameSubject(c2, c1) && SameSubject(c3, c2) && SameSubject(next, c4);
    var n :| Pass(PreMasking, std.MaskingHooks(), n, c3) == Some(c4);
    if std.masking.Some? {
      assert std.MaskingHooks() == [std.MaskingHooks()[0]];
      PassOne(PreMasking, std.MaskingHooks()[0], n, c3);
    } else {
      assert Block(PreMasking, std.MaskingHooks()) == [];
    }
  }

  lemma PreAuditPoint(std: Standard, now: nat, ctx: HookContext, next: HookContext)
    requires Pass(PreAudit, std.Hooks(), now, ctx) == Some(next)
    ensures SameSubject(next, ctx)
  {
    var c1, c2, c3, c4 := PassGroups(std, PreAudit, now, ctx);
    GroupsAreNeutral(std, PreAudit);
    ObserversAreNeutral(std, PreAudit);
    assert SameSubject(c1, ctx) && SameSubject(c2, c1) && SameSubject(c3, c2) && SameSubject(c4, c3) && SameSubject(next, c4);
  }

  lemma PostMaskingPoint(std: Standard, now: nat, ctx: HookContext, next: HookContext)
    requires Pass(PostMasking, std.Hooks(), now, ctx) == Some(next)
    ensures SameSubject(next, ctx.(responsePayload := Present(std, ctx.serverName, ctx.toolName, ctx.responsePayload)))
    ensures Shielded(std, FilteredBy(std, ctx.serverName, ctx.toolName, ctx.responsePayload), next.responsePayload)
  {
    var c1, c2, c3, c4 := PassGroups(std, PostMasking, now, ctx);
    GroupsAreNeutral(std, PostMasking);
    ObserversAreNeutral(std, PostMasking);
    assert SameSubject(c1, ctx) && SameSubject(c2, c1) && SameSubject(next, c4);
    FilterStep(std, c2, c3);
    MaskStep(std, c3, c4);
  }

  lemma FilterStep(std: Standard, c: HookContext, next: HookContext)
    requires exists n :: Pass(PostMasking, std.FilterHooks(), n, c) == Some(next)
    ensures SameSubject(next, c.(responsePayload := FilteredBy(std, c.serverName, c.toolName, c.responsePayload)))
  {
    var n :| Pass(PostMasking, std.FilterHooks(), n, c) == Some(next);
    if std.filter.Some? {
      assert std.FilterHooks() == [std.FilterHooks()[0]];
      PassOne(PostMasking, std.FilterHooks()[0], n, c);
    } else {
      assert Block(PostMasking, std.FilterHooks()) == [];
    }
  }

  lemma MaskedSubject(c: MaskingConfig, ctx: HookContext)
    ensures var out := RunMasking(c, PostMasking, ctx);
            out.Proceed? ==>
              && SameSubject(out.ctx, ctx.(responsePayload := MaskResponse(c, ctx.responsePayload)))
              && (c.enabled && ctx.responsePayload.Truthy() ==>
                    M.AllRewritten(c.engine, M.Response, ctx.responsePayload, out.ctx.responsePayload))
  {
    if c.enabled {
      MaskingAlwaysMasks(c, ctx);
    }
  }

  lemma MaskStep(std: Standard, c: HookContext, next: HookContext)
    requires exists n :: Pass(PostMasking, std.MaskingHooks(), n, c) == Some(next)
    ensures SameSubject(next, c.(responsePayload :=
              if std.masking.Some? then MaskResponse(std.masking.value, c.responsePayload) else c.responsePayload))
    ensures Shielded(std, c.responsePayload, next.responsePayload)
  {
    var n :| Pass(PostMasking, std.MaskingHooks(), n, c) == Some(next);
    if std.masking.Some? {
      var hook := std.MaskingHooks()[0];
      assert std.MaskingHooks() == [hook];
      PassOne(PostMasking, hook, n, c);
      assert hook.run(n, PostMasking, c) == RunMasking(std.masking.value, PostMasking, c);
      MaskedSubject(std.masking.value, c);
    } else {
      assert Block(PostMasking, std.MaskingHooks()) == [];
    }
  }

  lemma PointOf(hooks: seq<Hook>, p: nat, now: nat, ctx: HookContext)
    requires p < |SEQUENCE| && Fold(Blocks(p + 1, hooks), now, ctx).Some?
    ensures Fold(Blocks(p, hooks), now, ctx).Some?
    ensures Pass(SEQUENCE[p], hooks, now + |Blocks(p, hooks)|, Fold(Blocks(p, hooks), now, ctx).value)
         == Fold(Blocks(p + 1, hooks), now, ctx)
  {
    FoldConcat(Blocks(p, hooks), Block(SEQUENCE[p], hooks), now, ctx);
  }

  /** A fold of the whole schedule passes its five points one after another. */
  lemma FivePoints(hooks: seq<Hook>, now: nat, ctx: HookContext)
    returns (c1: HookContext, c2: HookContext, c3: HookContext, c4: HookContext)
    requires Fold(Schedule(hooks), now, ctx).Some?
    ensures exists n :: Pass(PreValidation, hooks, n, ctx) == Some(c1)
    ensures exists n :: Pass(PostValidation, hooks, n, c1) == Some(c2)
    ensures exists n :: Pass(PreMasking, hooks, n, c2) == Some(c3)
    ensures exists n :: Pass(PostMasking, hooks, n, c3) == Some(c4)
    ensures exists n :: Pass(PreAudit, hooks, n, c4) == Fold(Schedule(hooks), now, ctx)
  {
    PointOf(hooks, 4, now, ctx);
    PointOf(hooks, 3, now, ctx);
    PointOf(hooks, 2, now, ctx);
    PointOf(hooks, 1, now, ctx);
    PointOf(hooks, 0, now, ctx);
    c1, c2 := Fold(Blocks(1, hooks), now, ctx).value, Fold(Blocks(2, hooks), now, ctx).value;
    c3, c4 := Fold(Blocks(3, hooks), now, ctx).value, Fold(Blocks(4, hooks), now, ctx).value;
  }

  /**
   A successful run of the standard hooks: the caller was validated, governance allowed the call and says so, the
   request's repositories were permitted, and the response is filtered and masked.
   */
  lemma SuccessfulRun(std: Standard, now: nat, ctx: HookContext, r: PipelineResult)
    requires Describes(std.Hooks(), now, ctx, r) && r.success
    ensures r.context.responsePayload == Present(std, ctx.serverName, ctx.toolName, ctx.responsePayload)
    ensures Shielded(std, FilteredBy(std, ctx.serverName, ctx.toolName, ctx.responsePayload), r.context.responsePayload)
    ensures CallerValidated(std, ctx.authorization, r.context.request)
    ensures GovernancePassed(std, r.context.request.identity, ctx.serverName, ctx.toolName)
    ensures RepositoriesPassed(std, ctx.serverName, ctx.requestPayload)
    ensures r.context.policyDecision == if std.governance.Some? then Allowed else ctx.policyDecision
  {
    var hooks := std.Hooks();
    var c1, c2, c3, c4 := FivePoints(hooks, now, ctx);
    var n1 :| Pass(PreValidation, hooks, n1, ctx) == Some(c1);
    var n2 :| Pass(PostValidation, hooks, n2, c1) == Some(c2);
    var n3 :| Pass(PreMasking, hooks, n3, c2) == Some(c3);
    var n4 :| Pass(PostMasking, hooks, n4, c3) == Some(c4);
    var n5 :| Pass(PreAudit, hooks, n5, c4) == Some(r.context);
    PreValidationPoint(std, n1, ctx, c1);
    PostValidationPoint(std, n2, c1, c2);
    PreMaskingPoint(std, n3, c2, c3);
    PostMaskingPoint(std, n4, c3, c4);
    PreAuditPoint(std, n5, c4, r.context);
  }

  /** The last thing a successful run did was to audit the call, and the audit hook did not fail. */
  lemma SuccessIsAudited(std: Standard, now: nat, ctx: HookContext, r: PipelineResult)
    requires Describes(std.Hooks(), now, ctx, r) && r.success
    ensures var n := |r.hooksExecuted|;
            n > 0 && r.hooksExecuted[n - 1] == ("AuditHook", PreAudit) && !std.audit(now + n - 1)
  {
    var o := std.ObserverHooks();
    assert std.Hooks()[|std.Hooks()| - 1] == o[|o| - 1];
    LastStep(std.Hooks());
    FoldPrefixes(Schedule(std.Hooks()), |Schedule(std.Hooks())| - 1, now, ctx);
  }

  /** A schedule ends with its last hook's audit. */
  lemma LastStep(hooks: seq<Hook>)
    requires hooks != []
    ensures var all := Schedule(hooks); all != [] && all[|all| - 1] == Step(PreAudit, hooks[|hooks| - 1])
  {
    var p := |SEQUENCE| - 1;
    NextBlock(hooks, p);
    assert SEQUENCE[p] == PreAudit;
  }

  // ------------------------------------------------------------------
  // Authorization header and names survive the first run
  // ------------------------------------------------------------------

  /** The header and the names the call was routed by. */
  predicate SameCall(a: HookContext, b: HookContext) {
    a.authorization == b.authorization && a.serverName == b.serverName && a.toolName == b.toolName
  }

  /** The same call, and no denial that was not there before. */
  predicate Follows(a: HookContext, b: HookContext) {
    SameCall(a, b) && (b.policyDecision != Denied ==> a.policyDecision != Denied)
  }

  lemma {:induction false} FoldKeepsCall(steps: seq<Step>, now: nat, ctx: HookContext)
    requires forall s: Step, n: nat, c :: s in steps ==>
               var out := Call(s, n, c); out.Proceed? ==> Follows(out.ctx, c)
    ensures Fold(steps, now, ctx).Some? ==> Follows(Fold(steps, now, ctx).value, ctx)
    decreases |steps|
  {
    if steps == [] {
    } else {
      var front := steps[..|steps| - 1];
      FoldKeepsCall(front, now, ctx);
    }
  }

  lemma HooksKeepCall(std: Standard, point: Point, now: nat, ctx: HookContext)
    ensures std.identity.Some? ==> var out := RunIdentity(std.identity.value, now, point, ctx);
                                   out.Proceed? ==> Follows(out.ctx, ctx)
    ensures std.governance.Some? ==> var out := RunGovernance(std.governance.value, point, ctx);
                                     out.Proceed? ==> Follows(out.ctx, ctx)
    ensures std.filter.Some? ==> var out := RunFilter(std.filter.value, point, ctx);
                                 out.Proceed? ==> Follows(out.ctx, ctx)
    ensures std.masking.Some? ==> var out := RunMasking(std.masking.value, point, ctx);
                                  out.Proceed? ==> Follows(out.ctx, ctx)
  {
  }

  lemma StandardStepsKeepCall(std: Standard, step: Step, now: nat, ctx: HookContext)
    requires step.hook in std.Hooks()
    ensures var out := Call(step, now, ctx); out.Proceed? ==> Follows(out.ctx, ctx)
  {
    HooksKeepCall(std, step.point, now, ctx);
    var h, out := step.hook, Call(step, now, ctx);
    if h in std.IdentityHooks() {
      assert out == RunIdentity(std.identity.value, now, step.point, ctx);
    } else if h in std.GovernanceHooks() {
      assert out == RunGovernance(std.governance.value, step.point, ctx);
    } else if h in std.FilterHooks() {
      assert out == RunFilter(std.filter.value, step.point, ctx);
    } else if h in std.MaskingHooks() {
      assert out == RunMasking(std.masking.value, step.point, ctx);
    } else {
      assert h in std.ObserverHooks();
    }
  }

  lemma {:induction false} BlocksHoldHooks(points: nat, hooks: seq<Hook>, s: Step)
    requires points <= |SEQUENCE| && s in Blocks(points, hooks)
    ensures s.hook in hooks
  {
    if s in Block(SEQUENCE[points - 1], hooks) {
    } else {
      BlocksHoldHooks(points - 1, hooks, s);
    }
  }

  /**
   Whether it succeeded or not, a run of the standard hooks leaves the header and the names alone; it ends denied exactly
   if it was stopped by a hook that denied.
   */
  lemma RunKeepsCall(std: Standard, now: nat, ctx: HookContext, r: PipelineResult)
    requires Describes(std.Hooks(), now, ctx, r)
    ensures SameCall(r.context, ctx)
    ensures ctx.policyDecision != Denied ==>
              (r.context.policyDecision == Denied
               <==> exists reason :: r.error == Some(ShortCircuitError(reason, true)))
  {
    var hooks := std.Hooks();
    var p: nat := |SEQUENCE|;
    if !r.success {
      var k: nat :| StoppedAt(hooks, now, ctx, k, r);
      p := Before(Schedule(hooks)[k].point);
    }
    forall s: Step, n: nat, c | s in Blocks(p, hooks)
      ensures var out := Call(s, n, c); out.Proceed? ==> Follows(out.ctx, c)
    {
      BlocksHoldHooks(p, hooks, s);
      StandardStepsKeepCall(std, s, n, c);
    }
    FoldKeepsCall(Blocks(p, hooks), now, ctx);
    if !r.success && r.error.value.ShortCircuitError? {
      assert r.error == Some(ShortCircuitError(r.error.value.reason, r.error.value.deny));
    }
  }

  // ------------------------------------------------------------------
  // What stops a call
  // ------------------------------------------------------------------

  /**
   The call ends with the first run: nothing was asked for and nothing sent, and the client is told that access is
   denied.
   */
  predicate TurnedAway(effects: seq<Effect>, reply: Reply) {
    |effects| == 1 && effects[0].Ran? && reply.Told? && reply.notice == AccessDenied
  }

  /**
   The first run stops the call exactly if a hook denied in it. Any other failure of that run, a crashing hook's too, lets
   the call go on to ask for a token.
   */
  lemma OnlyADenialStopsTheCall(g: Gateway, w: World, std: Standard, name: string, arguments: Option<Json>,
                                effects: seq<Effect>, reply: Reply)
    requires CallSpec(g, w, name, arguments, effects, reply) && g.hooks == Some(std.Hooks()) && effects != []
    ensures effects[0].Ran?
    ensures var denied := exists reason :: effects[0].run.error == Some(ShortCircuitError(reason, true));
            && (denied ==> TurnedAway(effects, reply))
            && (!denied ==> |effects| > 1 && effects[1] == AskedToken)
  {
    var (server, tool) := R.ParseTool(name).value;
    RunKeepsCall(std, w.clock(0), FirstContext(w, server, tool, g.servers[server].transport, arguments), effects[0].run);
  }

  ghost predicate DeniesAt(point: Point, hooks: seq<Hook>, now: nat, c: HookContext) {
    exists at: nat, reason :: FailsAt(Block(point, hooks), now, c, at, ShortCircuitError(reason, true))
  }

  /** The hooks at this point deny this context, whenever they run. */
  ghost predicate PointDenies(point: Point, hooks: seq<Hook>, c: HookContext) {
    forall now: nat :: DeniesAt(point, hooks, now, c)
  }

  /** The run over this context is denied. */
  ghost predicate RunDenies(hooks: seq<Hook>, now: nat, ctx: HookContext) {
    exists k: nat, reason :: FailsAt(Schedule(hooks), now, ctx, k, ShortCircuitError(reason, true))
  }

  /** The first of some hooks to fail denies. */
  lemma HookDenies(point: Point, before: seq<Hook>, h: Hook, rest: seq<Hook>, ctx: HookContext, c: HookContext)
    requires forall now: nat :: Pass(point, before, now, ctx) == Some(c)
    requires forall now: nat :: var out := h.run(now, point, c); out.ShortCircuit? && out.deny
    ensures PointDenies(point, before + [h] + rest, ctx)
  {
    var block := Block(point, before + [h] + rest);
    assert block[..|before|] == Block(point, before);
    forall now: nat ensures DeniesAt(point, before + [h] + rest, now, ctx) {
      assert Pass(point, before, now, ctx) == Some(c);
      var out := h.run(now + |before|, point, c);
      assert FailsAt(block, now, ctx, |before|, ShortCircuitError(out.reason, true));
    }
  }

  /** A point that denies what the points before it made of a context. */
  lemma LaterPointDenies(hooks: seq<Hook>, p: nat, now: nat, ctx: HookContext, c: HookContext)
    requires p < |SEQUENCE| && Fold(Blocks(p, hooks), now, ctx) == Some(c) && PointDenies(SEQUENCE[p], hooks, c)
    ensures RunDenies(hooks, now, ctx)
  {
    var later := now + |Blocks(p, hooks)|;
    assert DeniesAt(SEQUENCE[p], hooks, later, c);
    var at: nat, reason :| FailsAt(Block(SEQUENCE[p], hooks), later, c, at, ShortCircuitError(reason, true));
    PointFails(hooks, p, now, ctx, c, at, ShortCircuitError(reason, true));
  }

  /** Where the second point begins. */
  lemma FirstPoint(hooks: seq<Hook>, now: nat, ctx: HookContext) returns (p: nat)
    ensures p < |SEQUENCE| && SEQUENCE[p] == PostValidation
    ensures Fold(Blocks(p, hooks), now, ctx) == Pass(PreValidation, hooks, now, ctx)
  {
    NextBlock(hooks, 0);
    assert [] + Block(PreValidation, hooks) == Block(PreValidation, hooks);
    p := 1;
  }

  /** A run that denies says so. */
  lemma DenialIsReported(hooks: seq<Hook>, now: nat, ctx: HookContext, r: PipelineResult)
    requires Describes(hooks, now, ctx, r) && RunDenies(hooks, now, ctx)
    ensures exists reason :: r.error == Some(ShortCircuitError(reason, true))
  {
    var k: nat, reason :| FailsAt(Schedule(hooks), now, ctx, k, ShortCircuitError(reason, true));
    FailureIsReported(hooks, now, ctx, k, ShortCircuitError(reason, true), r);
  }

  /** A call without a header, with one that cannot be parsed, or with a token that is rejected. */
  predicate NotValidated(c: IdentityConfig, now: nat, authorization: string) {
    || authorization == "" || c.bearer(authorization).None?
    || c.validate(now, c.bearer(authorization).value).Rejected?
  }

  lemma IdentityDenies(std: Standard, now: nat, ctx: HookContext)
    requires std.identity.Some? && NotValidated(std.identity.value, now, ctx.authorization)
    ensures RunDenies(std.Hooks(), now, ctx)
  {
    var h := std.IdentityHooks()[0];
    var rest := std.GovernanceHooks() + std.FilterHooks() + std.MaskingHooks() + std.ObserverHooks();
    assert std.Hooks() == [h] + rest;
    FirstHookDenies(h, rest, now, ctx);
  }

  lemma FirstHookDenies(h: Hook, rest: seq<Hook>, now: nat, ctx: HookContext)
    requires var out := h.run(now, PreValidation, ctx); out.ShortCircuit? && out.deny
    ensures RunDenies([h] + rest, now, ctx)
  {
    var hooks, reason := [h] + rest, h.run(now, PreValidation, ctx).reason;
    assert Blocks(0, hooks) == [] && Block(PreValidation, hooks)[..0] == [];
    assert FailsAt(Block(PreValidation, hooks), now, ctx, 0, ShortCircuitError(reason, true));
    PointFails(hooks, 0, now, ctx, ctx, 0, ShortCircuitError(reason, true));
  }

  /** After validation the identity hook lets everything pass. */
  lemma IdentityStaysOut(std: Standard, c: HookContext)
    ensures forall now: nat :: Pass(PostValidation, std.IdentityHooks(), now, c) == Some(c)
  {
    forall now: nat ensures Pass(PostValidation, std.IdentityHooks(), now, c) == Some(c) {
      if std.identity.Some? {
        assert std.IdentityHooks() == [std.IdentityHooks()[0]];
        PassOne(PostValidation, std.IdentityHooks()[0], now, c);
      } else {
        assert Block(PostValidation, std.IdentityHooks()) == [];
      }
    }
  }

  lemma AroundGovernance(std: Standard)
    requires std.governance.Some?
    ensures std.Hooks() == std.IdentityHooks() + [std.GovernanceHooks()[0]]
                           + (std.FilterHooks() + std.MaskingHooks() + std.ObserverHooks())
  {
  }

  lemma GovernanceDenies(std: Standard, c: HookContext)
    requires std.governance.Some? && !GovernancePassed(std, c.request.identity, c.serverName, c.toolName)
    ensures PointDenies(PostValidation, std.Hooks(), c)
  {
    IdentityStaysOut(std, c);
    GovernanceDecides(std, c);
    AroundGovernance(std);
    HookDenies(PostValidation, std.IdentityHooks(), std.GovernanceHooks()[0],
               std.FilterHooks() + std.MaskingHooks() + std.ObserverHooks(), c, c);
  }

  /** What governance makes of a context it lets pass. */
  lemma GovernancePasses(std: Standard, c: HookContext) returns (next: HookContext)
    requires GovernancePassed(std, c.request.identity, c.serverName, c.toolName)
    ensures SameSubject(next, c.(policyDecision := next.policyDecision))
    ensures forall now: nat :: Pass(PostValidation, std.IdentityHooks() + std.GovernanceHooks(), now, c) == Some(next)
  {
    var a, b := std.IdentityHooks(), std.GovernanceHooks();
    IdentityStaysOut(std, c);
    next := c;
    if std.governance.Some? {
      GovernanceDecides(std, c);
      next := RunGovernance(std.governance.value, PostValidation, c).ctx;
    }
    forall now: nat ensures Pass(PostValidation, a + b, now, c) == Some(next) {
      PassConcat(PostValidation, a, b, now, c);
      if std.governance.Some? {
        assert b == [b[0]];
        PassOne(PostValidation, b[0], now + |a|, c);
      } else {
        assert Block(PostValidation, b) == [];
      }
    }
  }

  lemma AroundTheFilter(std: Standard)
    requires std.filter.Some?
    ensures std.Hooks() == std.IdentityHooks() + std.GovernanceHooks() + [std.FilterHooks()[0]]
                           + (std.MaskingHooks() + std.ObserverHooks())
  {
  }

  lemma FilterDenies(std: Standard, c: HookContext)
    requires GovernancePassed(std, c.request.identity, c.serverName, c.toolName)
    requires std.filter.Some? && !RepositoriesPassed(std, c.serverName, c.requestPayload)
    ensures PointDenies(PostValidation, std.Hooks(), c)
  {
    var next := GovernancePasses(std, c);
    FilterDecides(std, next);
    AroundTheFilter(std);
    HookDenies(PostValidation, std.IdentityHooks() + std.GovernanceHooks(), std.FilterHooks()[0],
               std.MaskingHooks() + std.ObserverHooks(), c, next);
  }

  /** Governance refuses a validated caller the tool, or its request names a repository that is not permitted. */
  lemma RefusalDenies(std: Standard, now: nat, ctx: HookContext, caller: HookContext)
    requires Pass(PreValidation, std.Hooks(), now, ctx) == Some(caller)
    requires !GovernancePassed(std, caller.request.identity, ctx.serverName, ctx.toolName)
             || !RepositoriesPassed(std, ctx.serverName, ctx.requestPayload)
    ensures RunDenies(std.Hooks(), now, ctx)
  {
    PreValidationPoint(std, now, ctx, caller);
    if GovernancePassed(std, caller.request.identity, caller.serverName, caller.toolName) {
      FilterDenies(std, caller);
    } else {
      GovernanceDenies(std, caller);
    }
    var p := FirstPoint(std.Hooks(), now, ctx);
    LaterPointDenies(std.Hooks(), p, now, ctx, caller);
  }

  /** The engine fails on a string of this request. */
  predicate Unmaskable(std: Standard, payload: Json) {
    && std.masking.Some? && std.masking.value.enabled && payload.Truthy()
    && exists leaf | leaf in M.Leaves(payload, []) :: std.masking.value.engine(leaf.text, M.Request).EngineError?
  }

  /** Before masking, the three hooks in front of it let everything pass. */
  lemma OthersStayOut(std: Standard, c: HookContext)
    ensures var before := std.IdentityHooks() + std.GovernanceHooks() + std.FilterHooks();
            forall now: nat :: Pass(PreMasking, before, now, c) == Some(c)
  {
    ThreeStayOut(PreMasking, std.IdentityHooks(), std.GovernanceHooks(), std.FilterHooks(), c);
  }

  lemma ThreeStayOut(point: Point, a: seq<Hook>, b: seq<Hook>, d: seq<Hook>, c: HookContext)
    requires |a| <= 1 && |b| <= 1 && |d| <= 1
    requires forall h, now: nat | h in a || h in b || h in d :: h.run(now, point, c) == Proceed(c)
    ensures forall now: nat :: Pass(point, a + b + d, now, c) == Some(c)
  {
    forall now: nat ensures Pass(point, a + b + d, now, c) == Some(c) {
      PassConcat(point, a + b, d, now, c);
      PassConcat(point, a, b, now, c);
      LetsPass(point, a, now, c);
      LetsPass(point, b, now + |a|, c);
      LetsPass(point, d, now + |a + b|, c);
    }
  }

  lemma LetsPass(point: Point, hooks: seq<Hook>, now: nat, c: HookContext)
    requires |hooks| <= 1 && forall h | h in hooks :: h.run(now, point, c) == Proceed(c)
    ensures Pass(point, hooks, now, c) == Some(c)
  {
    if hooks == [] {
      assert Block(point, hooks) == [];
    } else {
      assert hooks == [hooks[0]];
      PassOne(point, hooks[0], now, c);
    }
  }

  lemma MaskingDenies(std: Standard, c: HookContext)
    requires Unmaskable(std, c.requestPayload)
    ensures PointDenies(PreMasking, std.Hooks(), c)
  {
    var before, h := std.IdentityHooks() + std.GovernanceHooks() + std.FilterHooks(), std.MaskingHooks()[0];
    assert std.Hooks() == before + [h] + std.ObserverHooks();
    OthersStayOut(std, c);
    MaskingAlwaysMasks(std.masking.value, c);
    HookDenies(PreMasking, before, h, std.ObserverHooks(), c, c);
  }

  lemma TwoPoints(std: Standard, p: nat, now: nat, ctx: HookContext, c: HookContext)
    requires p == 2 && Fold(Blocks(p, std.Hooks()), now, ctx) == Some(c)
    ensures c.requestPayload == ctx.requestPayload
  {
    var hooks := std.Hooks();
    var c1 := PassedTwo(hooks, p, now, ctx, c);
    var n1 :| Pass(PreValidation, hooks, n1, ctx) == Some(c1);
    var n2 :| Pass(PostValidation, hooks, n2, c1) == Some(c);
    PreValidationPoint(std, n1, ctx, c1);
    PostValidationPoint(std, n2, c1, c);
  }

  lemma PassedTwo(hooks: seq<Hook>, p: nat, now: nat, ctx: HookContext, c: HookContext) returns (c1: HookContext)
    requires p == 2 && Fold(Blocks(p, hooks), now, ctx) == Some(c)
    ensures exists n :: Pass(PreValidation, hooks, n, ctx) == Some(c1)
    ensures exists n :: Pass(PostValidation, hooks, n, c1) == Some(c)
  {
    PointOf(hooks, 1, now, ctx);
    PointOf(hooks, 0, now, ctx);
    c1 := Fold(Blocks(1, hooks), now, ctx).value;
  }

  /** The masking engine fails on a request that passed the first two points. */
  lemma MaskingFailureDenies(std: Standard, now: nat, ctx: HookContext, p: nat, admitted: HookContext)
    requires p == 2 && Fold(Blocks(p, std.Hooks()), now, ctx) == Some(admitted) && Unmaskable(std, ctx.requestPayload)
    ensures RunDenies(std.Hooks(), now, ctx)
  {
    TwoPoints(std, p, now, ctx, admitted);
    MaskingDenies(std, admitted);
    LaterPointDenies(std.Hooks(), p, now, ctx, admitted);
  }

  /** A first run over this context meets a hook that refuses it, at the first point, the second or the third. */
  ghost predicate Refused(std: Standard, now: nat, ctx: HookContext) {
    || (std.identity.Some? && NotValidated(std.identity.value, now, ctx.authorization))
    || (exists caller :: Pass(PreValidation, std.Hooks(), now, ctx) == Some(caller)
          && !(GovernancePassed(std, caller.request.identity, ctx.serverName, ctx.toolName)
               && RepositoriesPassed(std, ctx.serverName, ctx.requestPayload)))
    || (exists admitted :: Fold(Blocks(2, std.Hooks()), now, ctx) == Some(admitted) && Unmaskable(std, ctx.requestPayload))
  }

  lemma RefusedRunsDeny(std: Standard, now: nat, ctx: HookContext)
    requires Refused(std, now, ctx)
    ensures RunDenies(std.Hooks(), now, ctx)
  {
    if std.identity.Some? && NotValidated(std.identity.value, now, ctx.authorization) {
      IdentityDenies(std, now, ctx);
    } else if caller :| Pass(PreValidation, std.Hooks(), now, ctx) == Some(caller)
                        && !(GovernancePassed(std, caller.request.identity, ctx.serverName, ctx.toolName)
                             && RepositoriesPassed(std, ctx.serverName, ctx.requestPayload)) {
      RefusalDenies(std, now, ctx, caller);
    } else {
      var admitted :| Fold(Blocks(2, std.Hooks()), now, ctx) == Some(admitted);
      MaskingFailureDenies(std, now, ctx, 2, admitted);
    }
  }

  /**
   A call whose caller is not validated, that governance or the repository filter refuses, or whose request cannot be
   masked is turned away.
   */
  lemma RefusedCallsAreTurnedAway(g: Gateway, w: World, std: Standard, name: string, arguments: Option<Json>,
                                  effects: seq<Effect>, reply: Reply, start: HookContext)
    requires CallSpec(g, w, name, arguments, effects, reply) && g.hooks == Some(std.Hooks()) && effects != []
    requires var (server, tool) := R.ParseTool(name).value;
             start == FirstContext(w, server, tool, g.servers[server].transport, arguments)
    requires Refused(std, w.clock(0), start)
    ensures TurnedAway(effects, reply)
  {
    RefusedRunsDeny(std, w.clock(0), start);
    DenialIsReported(std.Hooks(), w.clock(0), start, effects[0].run);
    OnlyADenialStopsTheCall(g, w, std, name, arguments, effects, reply);
  }

  // ------------------------------------------------------------------
  // What a client can receive
  // ------------------------------------------------------------------

  lemma {:induction false} GetOfMasked(engine: M.Engine, dir: M.Direction, fields: seq<Field>, key: string)
    ensures Get(M.MaskedFields(engine, dir, fields), key)
         == match Get(fields, key) case Some(j) => Some(M.Masked(engine, dir, j)) case None => None
  {
    if fields == [] {
    } else {
      var first, rest := Field(fields[0].key, M.Masked(engine, dir, fields[0].value)), M.MaskedFields(engine, dir, fields[1..]);
      GetOfMasked(engine, dir, fields[1..], key);
      assert ([first] + rest)[1..] == rest;
    }
  }

  /** What upstream answered, as the second run's hooks get it. */
  function Answer(content: seq<Json>, isError: bool): Json {
    JObject([Field("content", JArray(content)), Field("is_error", JBool(isError))])
  }

  /** `items` are what the hooks leave of an upstream answer: the whole of it where nothing filters or masks. */
  ghost predicate LeftOf(std: Standard, server: string, tool: string, content: seq<Json>, isError: bool, items: seq<Json>) {
    var filtered := FilteredBy(std, server, tool, Answer(content, isError));
    var shown := Present(std, server, tool, Answer(content, isError));
    && shown.JObject? && Get(shown.fields, "content") == Some(JArray(items))
    && (std.filter.None? ==> ContentOf(filtered) == content)
    && (std.masking.None? || !std.masking.value.enabled ==> items == ContentOf(filtered))
    && (std.masking.Some? && std.masking.value.enabled ==>
          && items == M.MaskedItems(std.masking.value.engine, M.Response, ContentOf(filtered))
          && M.AllRewritten(std.masking.value.engine, M.Response, filtered, shown))
  }

  lemma PresentedContent(std: Standard, server: string, tool: string, content: seq<Json>, isError: bool)
    requires var payload := Answer(content, isError);
             Shielded(std, FilteredBy(std, server, tool, payload), Present(std, server, tool, payload))
    ensures exists items :: LeftOf(std, server, tool, content, isError, items)
  {
    var payload := Answer(content, isError);
    var filtered, shown := FilteredBy(std, server, tool, payload), Present(std, server, tool, payload);
    assert Get(payload.fields, "content") == Some(JArray(content));
    if std.filter.Some? {
      var rest := FilterContent(std.filter.value, tool, ContentOf(payload));
      GetAfterPut(payload.fields, "content", JArray(rest), "content");
      assert |Put(payload.fields, "content", JArray(rest))| > 0;
    }
    assert filtered.JObject? && filtered.fields != [] && Get(filtered.fields, "content") == Some(JArray(ContentOf(filtered)));
    var items := ContentOf(filtered);
    if std.masking.Some? && std.masking.value.enabled {
      GetOfMasked(std.masking.value.engine, M.Response, filtered.fields, "content");
      items := M.MaskedItems(std.masking.value.engine, M.Response, items);
    }
    assert LeftOf(std, server, tool, content, isError, items);
  }

  /**
   Upstream content reaches the client only as the items that the filter and then masking left of one upstream answer,
   one entry per item, after a second run in which the caller was validated again and governance allowed this tool.
   */
  lemma ClientReceivesOnlyPresentedContent(g: Gateway, w: World, std: Standard, name: string, arguments: Option<Json>,
                                           effects: seq<Effect>, reply: Reply)
    requires CallSpec(g, w, name, arguments, effects, reply)
    requires g.hooks == Some(std.Hooks())
    requires reply.Rebuilt? || reply.Raw?
    ensures R.ParseTool(name).Some? && reply.Rebuilt?
    ensures var (server, tool) := R.ParseTool(name).value;
            exists k: nat, items, request: RequestContext ::
              && w.upstream(k).Returned?
              && LeftOf(std, server, tool, w.upstream(k).content, w.upstream(k).isError, items)
              && ShowsAll(w, items, reply.content)
              && CallerValidated(std, w.authorization, request)
              && GovernancePassed(std, request.identity, server, tool)
  {
    var server, tool := R.ParseTool(name).value.0, R.ParseTool(name).value.1;
    var cfg := g.servers[server];
    var start := FirstContext(w, server, tool, cfg.transport, arguments);
    var first := effects[0].run.context;
    RunKeepsCall(std, w.clock(0), start, effects[0].run);
    var k, tail := AnswerOf(g, w, cfg, first, server, tool, arguments, effects[1..], reply);
    var items := AnsweredPresents(g, w, std, first, k, tail, reply);
    assert LeftOf(std, server, tool, w.upstream(k).content, w.upstream(k).isError, items);
  }

  /** The attempt whose answer a client's content comes from, and the effects after it. */
  lemma AnswerOf(g: Gateway, w: World, cfg: ServerConfig, first: HookContext, server: string, tool: string,
                 arguments: Option<Json>, effects: seq<Effect>, reply: Reply) returns (k: nat, tail: seq<Effect>)
    requires Forwarded(g, w, cfg, first, server, tool, arguments, effects, reply) && (reply.Rebuilt? || reply.Raw?)
    ensures w.upstream(k).Returned? && Answered(g, w, first, k, tail, reply)
  {
    var bearer := w.token(server, first.request).bearer;
    var rest := effects[1..];
    k :| Settled(g, w, cfg, first, bearer, tool, arguments, k, rest, reply);
    var before, tried := Retries(w, cfg, k, bearer, tool, arguments), Tried(w, k, bearer, tool, arguments);
    tail := rest[|before|..][|tried|..];
  }

  lemma AnsweredPresents(g: Gateway, w: World, std: Standard, first: HookContext, k: nat, tail: seq<Effect>, reply: Reply)
    returns (items: seq<Json>)
    requires g.hooks == Some(std.Hooks()) && w.upstream(k).Returned?
    requires Answered(g, w, first, k, tail, reply)
    requires reply.Rebuilt? || reply.Raw?
    ensures reply.Rebuilt? && |tail| == 1 && tail[0].Ran?
    ensures LeftOf(std, first.serverName, first.toolName, w.upstream(k).content, w.upstream(k).isError, items)
    ensures ShowsAll(w, items, reply.content)
    ensures CallerValidated(std, first.authorization, tail[0].run.context.request)
    ensures GovernancePassed(std, tail[0].run.context.request.identity, first.serverName, first.toolName)
  {
    var up := w.upstream(k);
    var ctx := first.(responsePayload := ResponsePayload(up.content, up.isError));
    SuccessfulRun(std, w.clock(1), ctx, tail[0].run);
    PresentedContent(std, first.serverName, first.toolName, up.content, up.isError);
    items :| LeftOf(std, first.serverName, first.toolName, up.content, up.isError, items);
    AnswersShowEveryItem(g, w, first, k, tail, reply, items);
  }

  // ------------------------------------------------------------------
  // A call that delivers content
  // ------------------------------------------------------------------

  /** A gateway with the audit hook alone. */
  function AuditOnly(): Standard {
    Standard(None, None, None, None, None, (n: nat) => false, (n: nat) => false)
  }

  function Hello(): Json {
    JObject([Field("type", JString("text")), Field("text", JString("hello"))])
  }

  /** A world in which every answer is the obvious one; upstream returns one text. */
  function Obliging(): World {
    World("", "", (n: nat) => n, (s: string, r: RequestContext) => Token(None), (a: nat) => Ready,
          (a: nat) => Returned([Hello()], false), (a: nat) => false, (k: string, j: Json) => true, (j: Json) => "")
  }

  predicate Idle(h: Hook, now: nat, point: Point, ctx: HookContext) {
    h.run(now, point, ctx) == Proceed(ctx)
  }

  lemma {:induction false} IdleStepsChangeNothing(steps: seq<Step>, now: nat, ctx: HookContext)
    requires forall s, n: nat, p, x :: s in steps ==> Idle(s.hook, n, p, x)
    ensures Fold(steps, now, ctx) == Some(ctx)
  {
    if steps == [] {
    } else {
      var n := |steps| - 1;
      IdleStepsChangeNothing(steps[..n], now, ctx);
      assert steps[n] in steps && Idle(steps[n].hook, now + n, steps[n].point, ctx);
    }
  }

  lemma {:induction false} StepsAreHooks(hooks: seq<Hook>, points: nat)
    requires points <= |SEQUENCE|
    ensures forall s | s in Blocks(points, hooks) :: s.hook in hooks
  {
    if points == 0 {
    } else {
      StepsAreHooks(hooks, points - 1);
    }
  }

  lemma AuditRunPasses(hooks: seq<Hook>, now: nat, ctx: HookContext)
    requires hooks == AuditOnly().Hooks()
    ensures Describes(hooks, now, ctx, PipelineResult(ctx, true, None, Names(Schedule(hooks)), []))
  {
    StepsAreHooks(hooks, |SEQUENCE|);
    forall s, n: nat, p, x | s in Schedule(hooks) ensures Idle(s.hook, n, p, x) {
      assert hooks == [hooks[0]] && s.hook == hooks[0];
    }
    IdleStepsChangeNothing(Schedule(hooks), now, ctx);
    assert RanThrough(hooks, now, ctx, PipelineResult(ctx, true, None, Names(Schedule(hooks)), []));
  }

  lemma ObligingAnswer(g: Gateway, w: World, hooks: seq<Hook>, first: HookContext, run: PipelineResult)
    requires g.hooks == Some(hooks) && w == Obliging()
    requires var up := w.upstream(0);
             Describes(hooks, w.clock(1), first.(responsePayload := ResponsePayload(up.content, up.isError)), run)
             && run.success && run.context.responsePayload == ResponsePayload(up.content, up.isError)
    ensures Answered(g, w, first, 0, [Ran(run)], Rebuilt([Item("text", Hello())]))
  {
    var item, payload := Hello(), run.context.responsePayload;
    assert payload.fields[0] == Field("content", JArray([item])) && Get(payload.fields, "content") == Some(JArray([item]));
    assert item.fields[0] == Field("type", JString("text")) && Get(item.fields, "type") == Some(JString("text"));
    var none: seq<Json> := [];
    assert [item][1..] == none && RebuildItems(w, none) == Some([]) && RebuildItem(w, item) == Some(Item("text", item));
    assert RebuildItems(w, [item]) == Some([Item("text", item)] + []);
    assert [Item("text", item)] + [] == [Item("text", item)];
  }

  lemma ObligingLoop(g: Gateway, w: World, cfg: ServerConfig, first: HookContext, tail: seq<Effect>, reply: Reply)
    requires w == Obliging() && cfg.maxRetries == 0 && Answered(g, w, first, 0, tail, reply)
    ensures Settled(g, w, cfg, first, None, "t", None, 0, [AskedSession(0, None), CalledUpstream("t", None)] + tail, reply)
  {
    var tried := Tried(w, 0, None, "t", None);
    assert tried == [AskedSession(0, None), CalledUpstream("t", None)];
    assert (tried + tail)[2..] == tail && (tried + tail)[0..] == tried + tail;
    assert Decided(g, w, first, None, "t", None, 0, tried + tail, reply);
  }

  /** The premises of the theorem above can be met: a call that delivers what upstream returned. */
  lemma SomeCallDeliversContent() returns (g: Gateway, w: World, effects: seq<Effect>, reply: Reply)
    ensures CallSpec(g, w, "s__t", None, effects, reply)
    ensures g.hooks == Some(AuditOnly().Hooks()) && reply == Rebuilt([Item("text", Hello())])
  {
    var hooks, cfg := AuditOnly().Hooks(), ServerConfig("http", 0, 1.0);
    g, w, reply := Gateway(map["s" := cfg], Some(hooks)), Obliging(), Rebuilt([Item("text", Hello())]);
    assert "s__t" == "s" + R.SEPARATOR + "t";
    R.ParseInvertsNamespaceIff("s", "t");
    var first := FirstContext(w, "s", "t", "http", None);
    AuditRunPasses(hooks, w.clock(0), first);
    var payload := ResponsePayload(w.upstream(0).content, false);
    AuditRunPasses(hooks, w.clock(1), first.(responsePayload := payload));
    var one := PipelineResult(first, true, None, Names(Schedule(hooks)), []);
    var two := PipelineResult(first.(responsePayload := payload), true, None, Names(Schedule(hooks)), []);
    ObligingAnswer(g, w, hooks, first, two);
    ObligingLoop(g, w, cfg, first, [Ran(two)], reply);
    var loop := [AskedSession(0, None), CalledUpstream("t", None)] + [Ran(two)];
    effects := [Ran(one)] + ([AskedToken] + loop);
    assert effects[1..] == [AskedToken] + loop && effects[1..][1..] == loop;
    assert Forwarded(g, w, cfg, first, "s", "t", None, effects[1..], reply);
  }
}
