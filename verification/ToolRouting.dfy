/** Namespaced tool names, and the agreement between the listed tools and the callable ones. */
module ToolRouting {
  import opened Prelude
  import opened Identity
  import opened PolicyEngine

  // ------------------------------------------------------------------
  // Names
  // ------------------------------------------------------------------

  const SEPARATOR := "__"

  function NamespaceTool(server: string, tool: string): string {
    server + SEPARATOR + tool
  }

  predicate SeparatorAt(name: string, i: nat) {
    i + 1 < |name| && name[i] == '_' && name[i + 1] == '_'
  }

  /** `name.split("__", 1)`: cut at the first separator, or not at all. */
  function SplitOnce(name: string, from: nat := 0): (r: Option<(string, string)>)
    requires from <= |name|
    requires forall i: nat :: i < from ==> !SeparatorAt(name, i)
    ensures r.None? ==> forall i: nat :: !SeparatorAt(name, i)
    ensures r.Some? ==> var k := |r.value.0|;
                        SeparatorAt(name, k) && r.value == (name[..k], name[k + 2..])
                        && forall i: nat :: i < k ==> !SeparatorAt(name, i)
    decreases |name| - from
  {
    if from == |name| then None
    else if SeparatorAt(name, from) then Some((name[..from], name[from + 2..]))
    else SplitOnce(name, from + 1)
  }

  /** Routing of a call; None is RoutingError. */
  function ParseTool(name: string): Option<(string, string)> {
    match SplitOnce(name)
    case Some((server, tool)) => if server == "" || tool == "" then None else Some((server, tool))
    case None => None
  }

  /** Calls route back to the server and tool a name was built from exactly for these pairs. */
  lemma ParseInvertsNamespaceIff(server: string, tool: string)
    ensures ParseTool(NamespaceTool(server, tool)) == Some((server, tool))
       <==> server != "" && tool != "" && server[|server| - 1] != '_'
            && forall i: nat :: !SeparatorAt(server, i)
  {
    var name := NamespaceTool(server, tool);
    assert name[..|server|] == server && name[|server| + 2..] == tool;
    assert SeparatorAt(name, |server|);
    var k := |SplitOnce(name).value.0|;
    assert k <= |server|;
    if server != "" && server[|server| - 1] == '_' {
      assert SeparatorAt(name, |server| - 1);
    }
    forall i: nat | SeparatorAt(server, i) ensures SeparatorAt(name, i) {
    }
    if k < |server| && k + 1 < |server| {
      assert SeparatorAt(server, k);
    }
  }

  /** Names that parse to the same route are the same name. */
  lemma RouteDeterminesName(a: string, b: string)
    requires ParseTool(a).Some? && ParseTool(a) == ParseTool(b)
    ensures a == b
  {
    var r := SplitOnce(a).value;
    assert a == r.0 + SEPARATOR + r.1;
    assert b == r.0 + SEPARATOR + r.1;
  }

  // ------------------------------------------------------------------
  // The call-time decision
  // ------------------------------------------------------------------

  function CallerInput(identity: Option<UserIdentity>, server: string, tool: string): PolicyInput {
    match identity
    case Some(id) => PolicyInput(id.userId, id.groups, server, tool)
    case None => PolicyInput("anonymous", [], server, tool)
  }

  /** The governance hook: no identity where one is required is a denial before any rule is read. */
  predicate GovernanceAllows(policy: Policy, identityRequired: bool, identity: Option<UserIdentity>,
                             server: string, tool: string) {
    !(identity.None? && identityRequired) && Effect(policy, CallerInput(identity, server, tool)) == Allow
  }

  predicate CallAdmitted(policy: Policy, identityRequired: bool, identity: Option<UserIdentity>, name: string) {
    match ParseTool(name)
    case Some((server, tool)) => GovernanceAllows(policy, identityRequired, identity, server, tool)
    case None => false
  }

  // ------------------------------------------------------------------
  // Listing
  // ------------------------------------------------------------------

  datatype Tool = Tool(name: string, description: string)

  /** One upstream server's answer to a listing; None is a timeout or any error. */
  datatype Listing = Listing(server: string, tools: Option<seq<Tool>>)

  function Namespaced(server: string, tools: seq<Tool>): (r: seq<Tool>)
    ensures |r| == |tools|
    ensures forall i :: 0 <= i < |r| ==> r[i] == tools[i].(name := NamespaceTool(server, tools[i].name))
  {
    seq(|tools|, i requires 0 <= i < |tools| => tools[i].(name := NamespaceTool(server, tools[i].name)))
  }

  function Gathered(answers: seq<Listing>): seq<Tool> {
    if answers == [] then []
    else
      var last := answers[|answers| - 1];
      Gathered(answers[..|answers| - 1])
      + (if last.tools.Some? then Namespaced(last.server, last.tools.value) else [])
  }

  method FetchAllTools(answers: seq<Listing>) returns (allTools: seq<Tool>)
    ensures allTools == Gathered(answers)
  {
    allTools := [];
    for i := 0 to |answers|
      invariant allTools == Gathered(answers[..i])
    {
      assert answers[..i + 1][..i] == answers[..i];
      var tools := if answers[i].tools.Some? then Namespaced(answers[i].server, answers[i].tools.value) else [];
      allTools := allTools + tools;
    }
    assert answers[..|answers|] == answers;
  }

  /** An answering server, one of its tools, and what the tool is listed as. */
  predicate Offers(a: Listing, u: Tool, t: Tool) {
    a.tools.Some? && u in a.tools.value && t == u.(name := a.server + "__" + u.name)
  }

  lemma NamespacedAreOffered(a: Listing, t: Tool)
    requires a.tools.Some?
    ensures t in Namespaced(a.server, a.tools.value) <==> exists u: Tool :: Offers(a, u, t)
  {
    var named := Namespaced(a.server, a.tools.value);
    if t in named {
      var i :| 0 <= i < |named| && named[i] == t;
      assert Offers(a, a.tools.value[i], t);
    }
    if u: Tool :| Offers(a, u, t) {
      var i :| 0 <= i < |a.tools.value| && a.tools.value[i] == u;
      assert named[i] == t;
    }
  }

  /** What is gathered is exactly every tool of every server that answered, under its server's name. */
  lemma {:induction false} GatheredToolsHaveOrigin(answers: seq<Listing>, t: Tool)
    ensures t in Gathered(answers) <==> exists a: Listing, u: Tool :: a in answers && Offers(a, u, t)
  {
    if answers == [] {
    } else {
      var front, last := answers[..|answers| - 1], answers[|answers| - 1];
      assert answers == front + [last];
      GatheredToolsHaveOrigin(front, t);
      if last.tools.Some? {
        NamespacedAreOffered(last, t);
      }
      if t in Gathered(answers) {
        var a: Listing, u: Tool :| (a in front || a == last) && Offers(a, u, t);
        assert a in answers;
      }
      if a: Listing, u: Tool :| a in answers && Offers(a, u, t) {
        assert a in front || a == last;
      }
    }
  }

  function Where(keep: Tool -> bool, tools: seq<Tool>): seq<Tool> {
    if tools == [] then []
    else (if keep(tools[0]) then [tools[0]] else []) + Where(keep, tools[1..])
  }

  lemma {:induction false} WhereAppend(keep: Tool -> bool, tools: seq<Tool>, t: Tool)
    ensures Where(keep, tools + [t]) == Where(keep, tools) + (if keep(t) then [t] else [])
  {
    if tools == [] {
      assert ([] + [t])[1..] == [];
    } else {
      assert (tools + [t])[1..] == tools[1..] + [t];
      WhereAppend(keep, tools[1..], t);
    }
  }

  /** The listing's own reading of a name: any split counts, empty parts included. */
  predicate ListingAllows(policy: Policy, userId: string, groups: seq<string>, t: Tool) {
    match SplitOnce(t.name)
    case Some((server, tool)) => Effect(policy, PolicyInput(userId, groups, server, tool)) == Allow
    case None => false
  }

  method FilterToolsByPolicy(policy: Policy, tools: seq<Tool>, userId: string, groups: seq<string>)
    returns (allowed: seq<Tool>)
    ensures allowed == Where(t => ListingAllows(policy, userId, groups, t), tools)
  {
    ghost var keep := t => ListingAllows(policy, userId, groups, t);
    allowed := [];
    for i := 0 to |tools|
      invariant allowed == Where(keep, tools[..i])
    {
      assert tools[..i + 1] == tools[..i] + [tools[i]];
      WhereAppend(keep, tools[..i], tools[i]);
      match SplitOnce(tools[i].name) {
        case None =>
        case Some((server, tool)) =>
          var result := EvaluateRules(policy, PolicyInput(userId, groups, server, tool));
          if result.effect == Allow {
            allowed := allowed + [tools[i]];
          }
      }
    }
    assert tools[..|tools|] == tools;
  }

  /** PRE_VALIDATION of a listing request; None is a short circuit or a hook error. */
  method ListTools(policy: Option<Policy>, validated: Option<Option<UserIdentity>>, answers: seq<Listing>)
    returns (listed: seq<Tool>)
    ensures validated.None? ==> listed == []
    ensures validated.Some? && policy.None? ==> listed == Gathered(answers)
    ensures validated.Some? && policy.Some? ==> listed == Listed(policy.value, validated.value, Gathered(answers))
  {
    if validated.None? {
      return [];
    }
    var identity := validated.value;
    listed := FetchAllTools(answers);
    if policy.Some? {
      var userId := if identity.Some? then identity.value.userId else "anonymous";
      var groups := if identity.Some? then identity.value.groups else [];
      listed := FilterToolsByPolicy(policy.value, listed, userId, groups);
      WhereAgree(t => ListingAllows(policy.value, userId, groups, t), Shows(policy.value, identity), Gathered(answers));
    }
  }

  function Shows(policy: Policy, identity: Option<UserIdentity>): Tool -> bool {
    (t: Tool) => match SplitOnce(t.name)
         case Some((server, tool)) => Effect(policy, CallerInput(identity, server, tool)) == Allow
         case None => false
  }

  function Listed(policy: Policy, identity: Option<UserIdentity>, fetched: seq<Tool>): seq<Tool> {
    Where(Shows(policy, identity), fetched)
  }

  lemma {:induction false} WhereAgree(p: Tool -> bool, q: Tool -> bool, tools: seq<Tool>)
    requires forall t | t in tools :: p(t) == q(t)
    ensures Where(p, tools) == Where(q, tools)
  {
    if tools == [] {
    } else {
      WhereAgree(p, q, tools[1..]);
    }
  }

  function Both(p: Tool -> bool, q: Tool -> bool): Tool -> bool {
    (t: Tool) => p(t) && q(t)
  }

  lemma {:induction false} WhereTwice(p: Tool -> bool, q: Tool -> bool, tools: seq<Tool>)
    ensures Where(p, Where(q, tools)) == Where(Both(q, p), tools)
  {
    if tools == [] {
    } else {
      WhereTwice(p, q, tools[1..]);
      var rest := Where(q, tools[1..]);
      if q(tools[0]) {
        assert Where(q, tools) == [tools[0]] + rest;
        assert ([tools[0]] + rest)[1..] == rest;
      } else {
        assert Where(q, tools) == rest;
      }
    }
  }

  lemma {:induction false} WhereHolds(p: Tool -> bool, tools: seq<Tool>, t: Tool)
    ensures t in Where(p, tools) <==> t in tools && p(t)
  {
    if tools == [] {
    } else {
      WhereHolds(p, tools[1..], t);
      assert tools == [tools[0]] + tools[1..];
    }
  }

  function Admitted(policy: Policy, identityRequired: bool, identity: Option<UserIdentity>): Tool -> bool {
    (t: Tool) => CallAdmitted(policy, identityRequired, identity, t.name)
  }

  predicate Routable(t: Tool) {
    ParseTool(t.name).Some?
  }

  /** A fetched tool that the policy would let an anonymous caller use. */
  predicate OpenToAll(policy: Policy, t: Tool) {
    match ParseTool(t.name)
    case Some((server, tool)) => Effect(policy, CallerInput(None, server, tool)) == Allow
    case None => false
  }

  /**
   The routable part of a listing is, in order, exactly the fetched tools whose call governance would admit for the
   same caller: unless the caller is anonymous, the hook requires an identity, and some fetched tool is open to all.
   */
  lemma ListingAgreesWithCallingIff(policy: Policy, identityRequired: bool, identity: Option<UserIdentity>,
                                    fetched: seq<Tool>)
    ensures Where(Routable, Listed(policy, identity, fetched))
              == Where(Admitted(policy, identityRequired, identity), fetched)
       <==> identity.Some? || !identityRequired || !exists t :: t in fetched && OpenToAll(policy, t)
  {
    var shows, admitted := Shows(policy, identity), Admitted(policy, identityRequired, identity);
    WhereTwice(Routable, shows, fetched);
    if identity.Some? || !identityRequired {
      WhereAgree(Both(shows, Routable), admitted, fetched);
    } else {
      WhereNothing(admitted, fetched);
      if t :| t in fetched && OpenToAll(policy, t) {
        WhereHolds(Both(shows, Routable), fetched, t);
      } else {
        WhereNothing(Both(shows, Routable), fetched);
      }
    }
  }

  /**
   A governance hook that requires an identity nobody validates: a policy without rules lists a tool and refuses its
   call.
   */
  lemma UnvalidatedCallerListsButNeverCalls(policy: Policy, t: Tool)
    requires policy.policies == [] && policy.default == Allow && t.name == "s__t"
    ensures Where(Routable, Listed(policy, None, [t])) == [t] && Where(Admitted(policy, true, None), [t]) == []
  {
    assert "s__t" == "s" + SEPARATOR + "t";
    ParseInvertsNamespaceIff("s", "t");
    assert Where(Shows(policy, None), [t][1..]) == [] && Where(Routable, [t][1..]) == [];
  }

  lemma {:induction false} WhereNothing(p: Tool -> bool, tools: seq<Tool>)
    requires forall t | t in tools :: !p(t)
    ensures Where(p, tools) == []
  {
    if tools == [] {
    } else {
      WhereNothing(p, tools[1..]);
    }
  }
}
