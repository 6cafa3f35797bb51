/**
 Policy evaluation: the one-pass rule loop against a deny-overrides specification, and the pattern
 matcher against glob semantics.
 */
module PolicyEngine {
  import opened Prelude

  datatype PolicyEffect = Allow | Deny

  datatype Subjects = Subjects(users: seq<string>, groups: seq<string>)

  datatype ServerAccess = ServerAccess(name: string, tools: seq<string>)

  datatype Rule = Rule(id: string, description: string, effect: PolicyEffect,
                       subjects: Subjects, mcpServers: seq<ServerAccess>)

  datatype Policy = Policy(default: PolicyEffect, policies: seq<Rule>)

  datatype PolicyInput = PolicyInput(userId: string, groups: seq<string>, mcpServer: string, tool: string)

  datatype EvaluationResult = EvaluationResult(effect: PolicyEffect, policyId: Option<string>, reason: Option<string>)

  // ------------------------------------------------------------------
  // Matching
  // ------------------------------------------------------------------

  predicate StartsWith(s: string, prefix: string) {
    |prefix| <= |s| && s[..|prefix|] == prefix
  }

  predicate EndsWith(s: string, suffix: string) {
    |suffix| <= |s| && s[|s| - |suffix|..] == suffix
  }

  predicate MatchesPattern(pattern: string, value: string) {
    if pattern == "*" then true
    else if EndsWith(pattern, "*") then StartsWith(value, pattern[..|pattern| - 1])
    else if StartsWith(pattern, "*") then EndsWith(value, pattern[1..])
    else pattern == value
  }

  predicate SubjectsMatch(subjects: Subjects, input: PolicyInput) {
    || (subjects.users == [] && subjects.groups == [])
    || input.userId in subjects.users
    || "*" in subjects.groups
    || exists g | g in input.groups :: g in subjects.groups
  }

  predicate ToolsMatch(patterns: seq<string>, tool: string) {
    patterns == [] || exists p | p in patterns :: MatchesPattern(p, tool)
  }

  predicate ServersMatch(servers: seq<ServerAccess>, input: PolicyInput) {
    exists a: ServerAccess | a in servers :: MatchesPattern(a.name, input.mcpServer) && ToolsMatch(a.tools, input.tool)
  }

  predicate RuleMatches(rule: Rule, input: PolicyInput) {
    SubjectsMatch(rule.subjects, input) && ServersMatch(rule.mcpServers, input)
  }

  // ------------------------------------------------------------------
  // Evaluation
  // ------------------------------------------------------------------

  /** `i` is the position of the first rule with this effect that matches. */
  ghost predicate IsFirstMatch(rules: seq<Rule>, input: PolicyInput, effect: PolicyEffect, i: nat) {
    && i < |rules| && rules[i].effect == effect && RuleMatches(rules[i], input)
    && forall j :: 0 <= j < i ==> rules[j].effect == effect ==> !RuleMatches(rules[j], input)
  }

  ghost predicate SomeMatch(rules: seq<Rule>, input: PolicyInput, effect: PolicyEffect) {
    exists r: Rule | r in rules :: r.effect == effect && RuleMatches(r, input)
  }

  /** Deny overrides allow; otherwise the first allow decides; otherwise the default. */
  ghost predicate DenyOverrides(policy: Policy, input: PolicyInput, r: EvaluationResult) {
    var rules := policy.policies;
    if SomeMatch(rules, input, Deny) then
      exists i: nat :: IsFirstMatch(rules, input, Deny, i)
                  && r == EvaluationResult(Deny, Some(rules[i].id), Some(rules[i].description))
    else if SomeMatch(rules, input, Allow) then
      exists i: nat :: IsFirstMatch(rules, input, Allow, i)
                  && r == EvaluationResult(Allow, Some(rules[i].id), None)
    else
      r == EvaluationResult(policy.default, None,
                            if policy.default == Deny then Some("No matching policy; default is deny") else None)
  }

  method EvaluateRules(policy: Policy, input: PolicyInput) returns (r: EvaluationResult)
    ensures DenyOverrides(policy, input, r)
    ensures r.effect == Effect(policy, input)
  {
    var rules := policy.policies;
    var firstAllow: Option<Rule> := None;
    var firstDeny: Option<Rule> := None;
    ghost var a, d: nat := 0, 0;
    var i := 0;
    while i < |rules|
      invariant 0 <= i <= |rules|
      invariant firstDeny.None? ==> !SomeMatch(rules[..i], input, Deny)
      invariant firstDeny.Some? ==> IsFirstMatch(rules, input, Deny, d) && firstDeny.value == rules[d]
      invariant firstAllow.None? ==> !SomeMatch(rules[..i], input, Allow)
      invariant firstAllow.Some? ==> IsFirstMatch(rules, input, Allow, a) && firstAllow.value == rules[a]
    {
      var rule := rules[i];
      assert rules[..i + 1] == rules[..i] + [rule];
      assert forall j :: 0 <= j < i ==> rules[j] in rules[..i];
      if RuleMatches(rule, input) {
        if rule.effect == Deny && firstDeny.None? {
          firstDeny, d := Some(rule), i;
        } else if rule.effect == Allow && firstAllow.None? {
          firstAllow, a := Some(rule), i;
        }
      }
      i := i + 1;
    }
    assert rules[..i] == rules;
    if firstDeny.Some? {
      assert rules[d] in rules;
      return EvaluationResult(Deny, Some(firstDeny.value.id), Some(firstDeny.value.description));
    }
    if firstAllow.Some? {
      assert rules[a] in rules;
      return EvaluationResult(Allow, Some(firstAllow.value.id), None);
    }
    var reason := if policy.default == Deny then Some("No matching policy; default is deny") else None;
    return EvaluationResult(policy.default, None, reason);
  }

  function FirstMatch(rules: seq<Rule>, input: PolicyInput, effect: PolicyEffect): (r: Option<nat>)
    ensures r.None? ==> !SomeMatch(rules, input, effect)
    ensures r.Some? ==> IsFirstMatch(rules, input, effect, r.value)
  {
    if rules == [] then None
    else if rules[0].effect == effect && RuleMatches(rules[0], input) then Some(0)
    else
      var rest := FirstMatch(rules[1..], input, effect);
      assert rules == [rules[0]] + rules[1..];
      if rest.None? then None
      else
        assert forall j :: 1 <= j < |rules| ==> rules[j] == rules[1..][j - 1];
        Some(rest.value + 1)
  }

  /** The loop's result as a function of its inputs, for the components that use it. */
  function Evaluate(policy: Policy, input: PolicyInput): (r: EvaluationResult)
    ensures DenyOverrides(policy, input, r)
    ensures r.effect == Effect(policy, input)
  {
    var rules := policy.policies;
    match FirstMatch(rules, input, Deny)
    case Some(d) =>
      assert rules[d] in rules;
      EvaluationResult(Deny, Some(rules[d].id), Some(rules[d].description))
    case None =>
      match FirstMatch(rules, input, Allow)
      case Some(a) =>
        assert rules[a] in rules;
        EvaluationResult(Allow, Some(rules[a].id), None)
      case None =>
        EvaluationResult(policy.default, None,
                         if policy.default == Deny then Some("No matching policy; default is deny") else None)
  }

  /** The decision alone. */
  function Effect(policy: Policy, input: PolicyInput): PolicyEffect {
    if exists r: Rule | r in policy.policies :: r.effect == Deny && RuleMatches(r, input) then Deny
    else if exists r: Rule | r in policy.policies :: r.effect == Allow && RuleMatches(r, input) then Allow
    else policy.default
  }

  /** The specification admits one result per input. */
  lemma DenyOverridesIsFunctional(policy: Policy, input: PolicyInput, r: EvaluationResult, s: EvaluationResult)
    requires DenyOverrides(policy, input, r) && DenyOverrides(policy, input, s)
    ensures r == s
  {
    var rules := policy.policies;
    if SomeMatch(rules, input, Deny) || SomeMatch(rules, input, Allow) {
      var effect := if SomeMatch(rules, input, Deny) then Deny else Allow;
      var i: nat :| IsFirstMatch(rules, input, effect, i) && r.policyId == Some(rules[i].id)
                    && r.reason == if effect == Deny then Some(rules[i].description) else None;
      var j: nat :| IsFirstMatch(rules, input, effect, j) && s.policyId == Some(rules[j].id)
                    && s.reason == if effect == Deny then Some(rules[j].description) else None;
      assert i == j;
    }
  }

  /** Reordering the rules never changes the decision. */
  lemma OrderOfRulesIsIrrelevant(policy: Policy, reordered: Policy, input: PolicyInput)
    requires multiset(policy.policies) == multiset(reordered.policies) && policy.default == reordered.default
    ensures Effect(policy, input) == Effect(reordered, input)
  {
    assert forall r: Rule :: r in policy.policies <==> r in multiset(policy.policies);
    assert forall r: Rule :: r in reordered.policies <==> r in multiset(reordered.policies);
  }

  /** A deny rule added anywhere denies everything it matches and allows nothing new. */
  lemma AddingDenyOnlyDenies(policy: Policy, before: seq<Rule>, after: seq<Rule>, rule: Rule, input: PolicyInput)
    requires policy.policies == before + after && rule.effect == Deny
    ensures var wider := policy.(policies := before + [rule] + after);
            Effect(wider, input) == if RuleMatches(rule, input) then Deny else Effect(policy, input)
  {
    var wider := policy.(policies := before + [rule] + after);
    assert forall r: Rule :: r in wider.policies <==> r in policy.policies || r == rule;
    assert rule in wider.policies;
  }

  // ------------------------------------------------------------------
  // The matcher is a glob matcher, exactly on patterns with one star at an end
  // ------------------------------------------------------------------

  /** Glob semantics: `*` stands for any string. */
  predicate Glob(pattern: string, value: string)
    decreases |pattern| + |value|
  {
    if pattern == "" then value == ""
    else if pattern[0] == '*' then Glob(pattern[1..], value) || (value != "" && Glob(pattern, value[1..]))
    else value != "" && value[0] == pattern[0] && Glob(pattern[1..], value[1..])
  }

  predicate Starless(s: string) {
    '*' !in s
  }

  /** No star, or one star that is first or last. */
  predicate StarAtAnEnd(pattern: string) {
    || Starless(pattern)
    || Starless(pattern[..|pattern| - 1])
    || (pattern[0] == '*' && Starless(pattern[1..]))
  }

  lemma {:induction false} GlobOfStarless(pattern: string, value: string)
    requires Starless(pattern)
    ensures Glob(pattern, value) <==> pattern == value
    decreases |pattern|
  {
    if pattern != "" && value != "" {
      GlobOfStarless(pattern[1..], value[1..]);
      assert pattern == [pattern[0]] + pattern[1..] && value == [value[0]] + value[1..];
    }
  }

  lemma {:induction false} StarMatchesAll(value: string)
    ensures Glob("*", value)
  {
    assert "*"[1..] == "";
    if value == "" {
    } else {
      StarMatchesAll(value[1..]);
    }
  }

  lemma {:induction false} GlobOfPrefix(prefix: string, value: string)
    requires Starless(prefix)
    ensures Glob(prefix + "*", value) <==> StartsWith(value, prefix)
    decreases |prefix|
  {
    var pattern := prefix + "*";
    if prefix == "" {
      assert pattern == "*";
      StarMatchesAll(value);
    } else {
      assert pattern[0] == prefix[0] && pattern[1..] == prefix[1..] + "*";
      if value != "" && value[0] == prefix[0] {
        GlobOfPrefix(prefix[1..], value[1..]);
        assert prefix == [prefix[0]] + prefix[1..];
        if |prefix| <= |value| {
          assert value[..|prefix|] == [value[0]] + value[1..][..|prefix| - 1];
        }
      }
    }
  }

  lemma {:induction false} GlobOfSuffix(suffix: string, value: string)
    requires Starless(suffix)
    ensures Glob("*" + suffix, value) <==> EndsWith(value, suffix)
    decreases |value|
  {
    var pattern := "*" + suffix;
    assert pattern[1..] == suffix;
    GlobOfStarless(suffix, value);
    if value == "" {
    } else {
      GlobOfSuffix(suffix, value[1..]);
      if |suffix| < |value| {
        assert value[|value| - |suffix|..] == value[1..][|value| - 1 - |suffix|..];
      }
    }
  }

  function DropStars(s: string): (r: string)
    ensures |r| <= |s| && (!Starless(s) ==> |r| < |s|)
  {
    if s == "" then ""
    else if s[0] == '*' then DropStars(s[1..])
    else [s[0]] + DropStars(s[1..])
  }

  lemma {:induction false} GlobMatchesDroppedStars(pattern: string)
    ensures Glob(pattern, DropStars(pattern))
  {
    if pattern == "" {
    } else {
      GlobMatchesDroppedStars(pattern[1..]);
      if pattern[0] != '*' {
        assert DropStars(pattern)[1..] == DropStars(pattern[1..]);
      }
    }
  }

  lemma MatcherIsGlob(pattern: string, value: string)
    requires StarAtAnEnd(pattern)
    ensures MatchesPattern(pattern, value) <==> Glob(pattern, value)
  {
    if Starless(pattern) {
      GlobOfStarless(pattern, value);
      NoStarAtTheEnds(pattern);
    } else if Starless(pattern[..|pattern| - 1]) {
      assert pattern == pattern[..|pattern| - 1] + [pattern[|pattern| - 1]];
      assert pattern[|pattern| - 1] == '*';
      GlobOfPrefix(pattern[..|pattern| - 1], value);
      StarMatchesAll(value);
      assert EndsWith(pattern, "*");
    } else {
      assert pattern == "*" + pattern[1..];
      GlobOfSuffix(pattern[1..], value);
      assert |pattern| > 1 ==> pattern[|pattern| - 1] == pattern[1..][|pattern| - 2];
    }
  }

  lemma NoStarAtTheEnds(pattern: string)
    requires Starless(pattern)
    ensures pattern != "*" && !EndsWith(pattern, "*") && !StartsWith(pattern, "*")
  {
    assert "*"[0] == '*' && '*' in "*";
  }

  /**
   With a star anywhere else the matcher is not a glob matcher: dropping the stars gives a value only the glob accepts.
   */
  lemma MatcherMissesGlob(pattern: string)
    requires !StarAtAnEnd(pattern)
    ensures Glob(pattern, DropStars(pattern)) && !MatchesPattern(pattern, DropStars(pattern))
  {
    GlobMatchesDroppedStars(pattern);
    var value := DropStars(pattern);
    assert |value| < |pattern|;
    assert pattern != "*" by { assert "*"[..0] == ""; }
    if EndsWith(pattern, "*") {
      var front := pattern[..|pattern| - 1];
      DropStarsConcat(front, "*");
      assert pattern == front + "*";
      assert DropStars("*") == "" by { assert "*"[1..] == ""; }
      assert |value| < |front|;
    } else if StartsWith(pattern, "*") {
      assert pattern[..1][0] == '*';
      assert value == DropStars(pattern[1..]);
    }
  }

  lemma {:induction false} DropStarsConcat(a: string, b: string)
    ensures DropStars(a + b) == DropStars(a) + DropStars(b)
  {
    if a == "" {
      assert a + b == b;
    } else {
      assert (a + b)[0] == a[0] && (a + b)[1..] == a[1..] + b;
      DropStarsConcat(a[1..], b);
    }
  }

  /** Exactly the patterns on which the matcher means what a glob means. */
  lemma MatcherIsGlobIff(pattern: string)
    ensures (forall value :: MatchesPattern(pattern, value) <==> Glob(pattern, value)) <==> StarAtAnEnd(pattern)
  {
    if StarAtAnEnd(pattern) {
      forall value ensures MatchesPattern(pattern, value) <==> Glob(pattern, value) {
        MatcherIsGlob(pattern, value);
      }
    } else {
      MatcherMissesGlob(pattern);
    }
  }

  // ------------------------------------------------------------------
  // Whom and what a rule is about
  // ------------------------------------------------------------------

  /** No subjects at all means everyone; otherwise the user by id, or by a group, of which `*` is everyone's. */
  ghost predicate Concerns(rule: Rule, input: PolicyInput) {
    || (rule.subjects.users == [] && rule.subjects.groups == [])
    || (exists u :: u in rule.subjects.users && u == input.userId)
    || (exists g :: g in rule.subjects.groups && (g == "*" || g in input.groups))
  }

  /** Some entry names the server, and either no tools, which means all of them, or this one. */
  ghost predicate Covers(rule: Rule, input: PolicyInput) {
    exists a: ServerAccess :: a in rule.mcpServers && Glob(a.name, input.mcpServer)
                              && (a.tools == [] || exists p :: p in a.tools && Glob(p, input.tool))
  }

  /** Every pattern of the rule is one the matcher reads as a glob. */
  predicate GlobPatterns(rule: Rule) {
    forall a: ServerAccess | a in rule.mcpServers :: StarAtAnEnd(a.name) && forall p | p in a.tools :: StarAtAnEnd(p)
  }

  /** A rule matches exactly the requests that it concerns and covers. */
  lemma RuleAppliesTo(rule: Rule, input: PolicyInput)
    requires GlobPatterns(rule)
    ensures RuleMatches(rule, input) <==> Concerns(rule, input) && Covers(rule, input)
  {
    forall a: ServerAccess, value | a in rule.mcpServers ensures MatchesPattern(a.name, value) <==> Glob(a.name, value) {
      MatcherIsGlob(a.name, value);
    }
    forall a: ServerAccess, p, value | a in rule.mcpServers && p in a.tools ensures MatchesPattern(p, value) <==> Glob(p, value) {
      MatcherIsGlob(p, value);
    }
    SubjectsAreConcerned(rule, input);
    if ServersMatch(rule.mcpServers, input) {
      var a: ServerAccess :| a in rule.mcpServers && MatchesPattern(a.name, input.mcpServer) && ToolsMatch(a.tools, input.tool);
      assert Glob(a.name, input.mcpServer);
    }
    if Covers(rule, input) {
      var a: ServerAccess :| a in rule.mcpServers && Glob(a.name, input.mcpServer)
                             && (a.tools == [] || exists p :: p in a.tools && Glob(p, input.tool));
      assert MatchesPattern(a.name, input.mcpServer);
    }
  }

  lemma SubjectsAreConcerned(rule: Rule, input: PolicyInput)
    ensures SubjectsMatch(rule.subjects, input) <==> Concerns(rule, input)
  {
  }

  /**
   A rule without subjects for a server without tools settles every caller's every tool there, unless it allows and
   another denies.
   */
  lemma BroadRulesSettle(policy: Policy, rule: Rule, server: string, input: PolicyInput)
    requires rule in policy.policies && rule.subjects == Subjects([], [])
    requires ServerAccess(server, []) in rule.mcpServers && input.mcpServer == server && Starless(server)
    ensures rule.effect == Deny ==> Effect(policy, input) == Deny
    ensures rule.effect == Allow && !SomeMatch(policy.policies, input, Deny) ==> Effect(policy, input) == Allow
  {
    GlobOfStarless(server, server);
    MatcherIsGlob(server, server);
    assert ServerAccess(server, []).name == server;
  }

  // ------------------------------------------------------------------
  // What the loader accepts
  // ------------------------------------------------------------------

  predicate IsWord(s: string) {
    s != "" && forall c | c in s :: 'a' <= c <= 'z' || 'A' <= c <= 'Z' || '0' <= c <= '9' || c == '_'
  }

  /** One alternative of the loader's expression without its closing `$`. */
  predicate WildcardForm(s: string) {
    || s == "*"
    || (|s| > 1 && s[0] == '*' && IsWord(s[1..]))
    || (|s| > 1 && s[|s| - 1] == '*' && IsWord(s[..|s| - 1]))
  }

  /** `re.match` with `$`, which also stands before one final newline. */
  predicate ValidWildcard(s: string) {
    WildcardForm(s) || (s != "" && s[|s| - 1] == '\n' && WildcardForm(s[..|s| - 1]))
  }

  predicate LoaderAccepts(tool: string) {
    '*' in tool ==> ValidWildcard(tool)
  }

  /**
   Accepted patterns of the form "word*" followed by a newline: the one family where the matcher reads the star
   literally.
   */
  predicate StarBeforeFinalNewline(s: string) {
    |s| > 2 && s[|s| - 1] == '\n' && s[|s| - 2] == '*'
  }

  /**
   For every pattern the loader accepts, matcher and glob agree on all values unless a newline follows the closing
   star.
   */
  lemma AcceptedPatternsAreGlobs(tool: string)
    requires LoaderAccepts(tool)
    ensures (forall value :: MatchesPattern(tool, value) <==> Glob(tool, value)) <==> !StarBeforeFinalNewline(tool) || Starless(tool)
  {
    MatcherIsGlobIff(tool);
    if '*' in tool {
      if WildcardForm(tool) {
        WildcardFormStars(tool);
        if |tool| > 1 && tool[0] == '*' {
          assert forall i :: 1 <= i < |tool| ==> tool[i] == tool[1..][i - 1] && tool[i] in tool[1..];
        } else if |tool| > 1 {
          assert tool[|tool| - 1] == '*';
        }
      } else {
        var core := tool[..|tool| - 1];
        assert tool == core + "\n";
        WildcardFormStars(core);
        if core == "*" {
          assert tool[1..] == "\n";
        } else if core[0] == '*' && IsWord(core[1..]) {
          assert tool[1..] == core[1..] + "\n";
          assert core[|core| - 1] == core[1..][|core| - 2] && core[|core| - 1] in core[1..];
        } else {
          assert core[0] == core[..|core| - 1][0] && core[0] in core[..|core| - 1];
          assert tool[0] == core[0];
          assert tool[|tool| - 2] == core[|core| - 1] == '*';
          assert '*' in core;
        }
      }
    }
  }

  lemma WildcardFormStars(s: string)
    requires WildcardForm(s)
    ensures s != "" && StarAtAnEnd(s) && '*' in s
  {
    assert s == "*" ==> s[..0] == "" && s[0] == '*';
  }

  lemma {:induction false} GlobAfterWord(word: string, pattern: string, value: string)
    requires IsWord(word) || word == ""
    requires Glob(pattern, value)
    ensures Glob(word + pattern, word + value)
  {
    if word == "" {
      assert word + pattern == pattern && word + value == value;
    } else {
      assert word[0] in word && forall c | c in word[1..] :: c in word;
      GlobAfterWord(word[1..], pattern, value);
      assert (word + pattern)[1..] == word[1..] + pattern && (word + value)[1..] == word[1..] + value;
    }
  }

  /** Every pattern of that family is accepted and misses a value: "word*" before a newline, and "word" before one. */
  lemma NewlineAfterStarIsMissed(word: string)
    requires IsWord(word)
    ensures var tool := word + ['*', '\n'];
            LoaderAccepts(tool) && StarBeforeFinalNewline(tool)
            && Glob(tool, word + ['\n']) && !MatchesPattern(tool, word + ['\n'])
  {
    var tool, core := word + ['*', '\n'], word + ['*'];
    assert tool[..|tool| - 1] == core && core[..|core| - 1] == word;
    var stars, end := ['*', '\n'], ['\n'];
    assert stars[1..] == end && end[1..] == "";
    assert Glob(end, end);
    GlobAfterWord(word, stars, end);
    assert tool[|tool| - 1] == '\n' && tool[0] == word[0] && word[0] in word;
  }
}
