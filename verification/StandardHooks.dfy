/**
 The hooks the gateway registers: identity, governance, the repository filter, masking, analytics and audit.
 Each is given as the function the pipeline runs; the two that work by loops and accumulators are also written
 as methods and proved to compute that function.
 */
module StandardHooks {
  import opened Prelude
  import opened Json
  import opened MaskingWalkers
  import opened Context
  import opened Identity
  import P = PolicyEngine
  import R = ToolRouting
  import opened HookPipeline

  // ------------------------------------------------------------------
  // Identity
  // ------------------------------------------------------------------

  datatype Verdict = Validated(identity: UserIdentity) | Rejected(why: string) | Broke(message: string)

  /** `bearer` parses the header; `validate` is the token check at a moment. */
  datatype IdentityConfig = IdentityConfig(bearer: string -> Option<string>, validate: (nat, string) -> Verdict)

  function RunIdentity(c: IdentityConfig, now: nat, point: Point, ctx: HookContext): Outcome {
    if point != PreValidation then Proceed(ctx)
    else if ctx.authorization == "" then ShortCircuit("Missing Authorization header", true)
    else
      match c.bearer(ctx.authorization)
      case None => ShortCircuit("Malformed Authorization header", true)
      case Some(token) =>
        match c.validate(now, token)
        case Rejected(why) => ShortCircuit("Authentication failed: " + why, true)
        case Broke(message) => Crash(message)
        case Validated(id) =>
          Proceed(ctx.(request := ctx.request.(identity := Some(id), rawToken := Some(token))))
  }

  // ------------------------------------------------------------------
  // Governance
  // ------------------------------------------------------------------

  datatype GovernanceConfig = GovernanceConfig(policy: P.Policy, identityRequired: bool)

  function RunGovernance(c: GovernanceConfig, point: Point, ctx: HookContext): Outcome {
    if point != PostValidation then Proceed(ctx)
    else if ctx.request.identity.None? && c.identityRequired then ShortCircuit("No authenticated identity", true)
    else
      var r := P.Evaluate(c.policy, R.CallerInput(ctx.request.identity, ctx.serverName, ctx.toolName));
      if r.effect == P.Allow
      then Proceed(ctx.(policyDecision := Allowed, policyRuleId := if r.policyId.Some? then r.policyId.value else ""))
      else ShortCircuit(if r.reason.Some? && r.reason.value != "" then r.reason.value else "Denied by policy", true)
  }

  // ------------------------------------------------------------------
  // Repository filter
  // ------------------------------------------------------------------

  /**
   The filter's settings and the parts taken as given: repository matching, extraction from requests and
   response items, JSON reading (None is a parse or type error) and printing, and the two tool tables.
   */
  datatype FilterConfig = FilterConfig(
    allowlist: bool,
    matches: string -> bool,
    servers: seq<string>,
    listTools: set<string>,
    singleTools: set<string>,
    requestRepos: Json -> seq<string>,
    extract: Json -> Option<string>,
    loads: Json -> Option<Json>,
    dumps: Json -> string)

  predicate ShouldKeep(c: FilterConfig, repo: string) {
    if c.allowlist then c.matches(repo) else !c.matches(repo)
  }

  function PolicyMessage(text: string): Json {
    JObject([Field("type", JString("text")), Field("text", JString(text))])
  }

  const UNPARSED := "Response filtered: unable to parse response for repository filtering."
  const BLOCKED := "Response blocked by repository policy."
  const EMPTIED := "All results were filtered by repository policy."

  predicate InScope(c: FilterConfig, server: string) {
    c.servers == [] || server in c.servers
  }

  /** Entries without a repository stay: there is nothing to judge them by. */
  predicate EntryAllowed(c: FilterConfig, entry: Json) {
    !entry.JObject? || c.extract(entry).None? || ShouldKeep(c, c.extract(entry).value)
  }

  function AllowedEntries(c: FilterConfig, entries: seq<Json>): (r: seq<Json>)
    ensures forall e | e in r :: EntryAllowed(c, e)
  {
    if entries == [] then []
    else (if EntryAllowed(c, entries[0]) then [entries[0]] else []) + AllowedEntries(c, entries[1..])
  }

  function EntriesOf(parsed: Json): seq<Json>
    requires parsed.JArray? || parsed.JObject?
  {
    if parsed.JArray? then parsed.items else [parsed]
  }

  /** A list tool's text item with the disallowed entries removed; None when nothing is left. */
  function FilterListItem(c: FilterConfig, parsed: Json, item: Json): Option<Json> {
    if !parsed.JArray? && !parsed.JObject? then Some(item)
    else
      var kept := AllowedEntries(c, EntriesOf(parsed));
      if kept == [] then None
      else Some(PolicyMessage(c.dumps(if parsed.JArray? then JArray(kept) else kept[0])))
  }

  /** `kept` is what the first `i` entries leave. */
  ghost predicate KeptOf(c: FilterConfig, entries: seq<Json>, i: nat, kept: seq<Json>) {
    i <= |entries| && kept + AllowedEntries(c, entries[i..]) == AllowedEntries(c, entries)
  }

  lemma KeptOfAll(c: FilterConfig, entries: seq<Json>, kept: seq<Json>)
    ensures KeptOf(c, entries, 0, [])
    ensures KeptOf(c, entries, |entries|, kept) ==> kept == AllowedEntries(c, entries)
  {
    assert entries[0..] == entries && entries[|entries|..] == [];
    assert [] + AllowedEntries(c, entries) == AllowedEntries(c, entries) && kept + [] == kept;
  }

  lemma KeptOfNext(c: FilterConfig, entries: seq<Json>, i: nat, kept: seq<Json>)
    requires i < |entries| && KeptOf(c, entries, i, kept)
    ensures KeptOf(c, entries, i + 1, if EntryAllowed(c, entries[i]) then kept + [entries[i]] else kept)
  {
    var rest := AllowedEntries(c, entries[i + 1..]);
    assert entries[i..][1..] == entries[i + 1..];
    assert kept + ([entries[i]] + rest) == (kept + [entries[i]]) + rest && [] + rest == rest;
  }

  method FilterListResponse(c: FilterConfig, parsed: Json, item: Json) returns (r: Option<Json>)
    ensures r == FilterListItem(c, parsed, item)
  {
    var entries: seq<Json>;
    match parsed
    {
      case JArray(items) => entries := items;
      case JObject(_) => entries := [parsed];
      case _ => return Some(item);
    }
    var kept: seq<Json> := [];
    KeptOfAll(c, entries, kept);
    var i := 0;
    while i < |entries|
      invariant KeptOf(c, entries, i, kept)
    {
      var entry := entries[i];
      KeptOfNext(c, entries, i, kept);
      if !entry.JObject? {
        kept := kept + [entry];
      } else {
        var repo := c.extract(entry);
        if repo.None? || ShouldKeep(c, repo.value) {
          kept := kept + [entry];
        }
      }
      i := i + 1;
    }
    KeptOfAll(c, entries, kept);
    if kept == [] {
      return None;
    }
    var rebuilt := if parsed.JArray? then JArray(kept) else kept[0];
    return Some(PolicyMessage(c.dumps(rebuilt)));
  }

  datatype Filtered = Kept(items: seq<Json>) | Unparsed | Blocked

  predicate IsText(item: Json) {
    item.JObject? && Get(item.fields, "type") == Some(JString("text"))
  }

  function TextOf(item: Json): Json
    requires item.JObject?
  {
    match Get(item.fields, "text") case Some(t) => t case None => JString("")
  }

  function FilterItem(c: FilterConfig, tool: string, item: Json): Filtered {
    if !IsText(item) then Kept([item])
    else
      match c.loads(TextOf(item))
      case None => Unparsed
      case Some(parsed) =>
        if tool in c.listTools then
          match FilterListItem(c, parsed, item) case None => Kept([]) case Some(x) => Kept([x])
        else if tool in c.singleTools then
          if EntryAllowed(c, parsed) then Kept([item]) else Blocked
        else Kept([item])
  }

  /** Items in order; the first unreadable or blocked one decides for the whole response. */
  function FilterItems(c: FilterConfig, tool: string, items: seq<Json>): Filtered {
    if items == [] then Kept([])
    else
      match FilterItem(c, tool, items[0])
      case Unparsed => Unparsed
      case Blocked => Blocked
      case Kept(first) => After(first, FilterItems(c, tool, items[1..]))
  }

  function After(first: seq<Json>, rest: Filtered): Filtered {
    match rest
    case Kept(items) => Kept(first + items)
    case _ => rest
  }

  lemma NextContentItem(c: FilterConfig, tool: string, items: seq<Json>, i: nat, done: seq<Json>)
    requires i < |items|
    requires FilterItems(c, tool, items) == After(done, FilterItems(c, tool, items[i..]))
    ensures match FilterItem(c, tool, items[i])
            case Kept(first) => FilterItems(c, tool, items) == After(done + first, FilterItems(c, tool, items[i + 1..]))
            case stop => FilterItems(c, tool, items) == stop
  {
    assert items[i..][1..] == items[i + 1..];
    match FilterItem(c, tool, items[i])
    case Kept(first) =>
      var rest := FilterItems(c, tool, items[i + 1..]);
      if rest.Kept? {
        assert done + (first + rest.items) == (done + first) + rest.items;
      }
    case _ =>
  }

  function FilterContent(c: FilterConfig, tool: string, items: seq<Json>): seq<Json> {
    match FilterItems(c, tool, items)
    case Unparsed => [PolicyMessage(UNPARSED)]
    case Blocked => [PolicyMessage(BLOCKED)]
    case Kept(kept) => if kept == [] then [PolicyMessage(EMPTIED)] else kept
  }

  predicate FilterApplies(c: FilterConfig, server: string, tool: string, payload: Json) {
    && InScope(c, server)
    && (tool in c.listTools || tool in c.singleTools)
    && payload.JObject?
    && (match Get(payload.fields, "content") case Some(j) => j.JArray? case None => true)
  }

  function ContentOf(payload: Json): seq<Json> {
    if !payload.JObject? then []
    else match Get(payload.fields, "content") case Some(JArray(items)) => items case _ => []
  }

  function FilterResponse(c: FilterConfig, server: string, tool: string, payload: Json): Json {
    if !FilterApplies(c, server, tool, payload) then payload
    else JObject(Put(payload.fields, "content", JArray(FilterContent(c, tool, ContentOf(payload)))))
  }

  /** The loop over content items, stopping at the first unreadable or blocked one. */
  method FilterEach(c: FilterConfig, tool: string, items: seq<Json>) returns (r: Filtered)
    requires tool in c.listTools || tool in c.singleTools
    ensures r == FilterItems(c, tool, items)
  {
    var filtered: seq<Json> := [];
    var i := 0;
    while i < |items|
      invariant 0 <= i <= |items|
      invariant FilterItems(c, tool, items) == After(filtered, FilterItems(c, tool, items[i..]))
    {
      var item := items[i];
      NextContentItem(c, tool, items, i, filtered);
      i := i + 1;
      if !item.JObject? || Get(item.fields, "type") != Some(JString("text")) {
        filtered := filtered + [item];
        continue;
      }
      var parsed := c.loads(TextOf(item));
      if parsed.None? {
        return Unparsed;
      }
      if tool in c.listTools {
        var result := FilterListResponse(c, parsed.value, item);
        filtered := filtered + (if result.Some? then [result.value] else []);
      } else if EntryAllowed(c, parsed.value) {
        filtered := filtered + [item];
      } else {
        return Blocked;
      }
    }
    assert items[i..] == [] && filtered + [] == filtered;
    return Kept(filtered);
  }

  /** The hook's output side. */
  method FilterOnPostMasking(c: FilterConfig, ctx: HookContext) returns (r: HookContext)
    requires ctx.responsePayload.JObject?
    ensures r == ctx.(responsePayload := FilterResponse(c, ctx.serverName, ctx.toolName, ctx.responsePayload))
  {
    if c.servers != [] && ctx.serverName !in c.servers {
      return ctx;
    }
    if ctx.toolName !in c.listTools && ctx.toolName !in c.singleTools {
      return ctx;
    }
    var fields := ctx.responsePayload.fields;
    var content := match Get(fields, "content") case Some(j) => j case None => JArray([]);
    if !content.JArray? {
      return ctx;
    }
    var outcome := FilterEach(c, ctx.toolName, content.items);
    var filtered := match outcome
                    case Unparsed => [PolicyMessage(UNPARSED)]
                    case Blocked => [PolicyMessage(BLOCKED)]
                    case Kept(kept) => if kept == [] then [PolicyMessage(EMPTIED)] else kept;
    return ctx.(responsePayload := JObject(Put(fields, "content", JArray(filtered))));
  }

  function RunFilter(c: FilterConfig, point: Point, ctx: HookContext): Outcome {
    match point
    case PostValidation =>
      if InScope(c, ctx.serverName) && exists repo | repo in c.requestRepos(ctx.requestPayload) :: !ShouldKeep(c, repo)
      then ShortCircuit("Repository is not allowed", true)
      else Proceed(ctx)
    case PostMasking =>
      Proceed(ctx.(responsePayload := FilterResponse(c, ctx.serverName, ctx.toolName, ctx.responsePayload)))
    case _ => Proceed(ctx)
  }

  /** A repository the settings permit: on the allowlist, or not on the blocklist. */
  predicate Permitted(c: FilterConfig, repo: string) {
    c.matches(repo) <==> c.allowlist
  }

  /** What an entry is about, if that can be told, is permitted. */
  predicate PermittedEntry(c: FilterConfig, entry: Json) {
    entry.JObject? && c.extract(entry).Some? ==> Permitted(c, c.extract(entry).value)
  }

  /** `kept` holds each permitted entry as often as it occurs, and no other. */
  ghost predicate ArePermittedOf(c: FilterConfig, entries: seq<Json>, kept: seq<Json>) {
    forall e :: multiset(kept)[e] == if PermittedEntry(c, e) then multiset(entries)[e] else 0
  }

  lemma {:induction false} AllowedEntriesAreThePermitted(c: FilterConfig, entries: seq<Json>)
    ensures ArePermittedOf(c, entries, AllowedEntries(c, entries))
  {
    if entries == [] {
    } else {
      AllowedEntriesAreThePermitted(c, entries[1..]);
      assert entries == [entries[0]] + entries[1..];
    }
  }

  /**
   A content item the filter lets through for this tool: a notice, no text, or text about permitted repositories only.
   */
  ghost predicate Presentable(c: FilterConfig, tool: string, item: Json) {
    || item in {PolicyMessage(UNPARSED), PolicyMessage(BLOCKED), PolicyMessage(EMPTIED)}
    || !IsText(item)
    || (c.loads(TextOf(item)).Some?
        && var parsed := c.loads(TextOf(item)).value;
           if tool in c.listTools && parsed.JArray? then forall e | e in parsed.items :: PermittedEntry(c, e)
           else PermittedEntry(c, parsed))
  }

  /** `j` is what some text reads as. */
  ghost predicate Reads(c: FilterConfig, j: Json) {
    exists t :: c.loads(t) == Some(j)
  }

  predicate ReadsBack(c: FilterConfig, j: Json) {
    c.loads(JString(c.dumps(j))) == Some(j)
  }

  predicate Among(kept: seq<Json>, items: seq<Json>) {
    forall x | x in kept :: x in items
  }

  /** A value that was read, and any list of entries of a list that was read, is read back from its printed text. */
  ghost predicate JsonReadsBack(c: FilterConfig) {
    && (forall j :: Reads(c, j) ==> ReadsBack(c, j))
    && (forall items, kept :: Reads(c, JArray(items)) && Among(kept, items) ==> ReadsBack(c, JArray(kept)))
  }

  /** Reading never yields a dict that holds one key twice. */
  ghost predicate LoadsWellFormed(c: FilterConfig) {
    forall t :: c.loads(t).Some? ==> c.loads(t).value.WellFormed()
  }

  lemma {:induction false} AllowedEntriesAreAmong(c: FilterConfig, entries: seq<Json>)
    ensures Among(AllowedEntries(c, entries), entries)
  {
    if entries == [] {
    } else {
      AllowedEntriesAreAmong(c, entries[1..]);
      assert entries == [entries[0]] + entries[1..];
    }
  }

  /** What a list tool's filter prints is read back. */
  lemma RebuiltReadsBack(c: FilterConfig, parsed: Json)
    requires JsonReadsBack(c) && Reads(c, parsed) && (parsed.JArray? || parsed.JObject?)
    ensures var kept := AllowedEntries(c, EntriesOf(parsed));
            kept != [] ==> ReadsBack(c, if parsed.JArray? then JArray(kept) else kept[0])
  {
    AllowedEntriesAreAmong(c, EntriesOf(parsed));
    if parsed.JObject? {
      SingleEntry(c, parsed);
    }
  }

  lemma TextOfMessage(text: string)
    ensures IsText(PolicyMessage(text)) && TextOf(PolicyMessage(text)) == JString(text)
  {
    var fields := [Field("type", JString("text")), Field("text", JString(text))];
    assert fields[1..] == [Field("text", JString(text))];
    assert fields[0].key != "text" by { assert "type"[1] != "text"[1]; }
    assert Get(fields[1..], "text") == Some(JString(text));
    assert Get(fields, "text") == Get(fields[1..], "text");
  }

  lemma {:induction false} FilteredItemsArePresentable(c: FilterConfig, tool: string, items: seq<Json>)
    requires JsonReadsBack(c) && (tool in c.listTools || tool in c.singleTools)
    ensures match FilterItems(c, tool, items)
            case Kept(kept) => forall x | x in kept :: Presentable(c, tool, x)
            case _ => true
  {
    if items == [] {
    } else {
      FilteredItemsArePresentable(c, tool, items[1..]);
      FilteredItemIsPresentable(c, tool, items[0]);
    }
  }

  lemma SingleEntry(c: FilterConfig, entry: Json)
    ensures AllowedEntries(c, [entry]) == if EntryAllowed(c, entry) then [entry] else []
  {
    assert [entry][1..] == [];
  }

  lemma FilteredItemIsPresentable(c: FilterConfig, tool: string, item: Json)
    requires JsonReadsBack(c) && (tool in c.listTools || tool in c.singleTools)
    ensures match FilterItem(c, tool, item)
            case Kept(kept) => forall x | x in kept :: Presentable(c, tool, x)
            case _ => true
  {
    if IsText(item) && c.loads(TextOf(item)).Some? && tool in c.listTools {
      var parsed := c.loads(TextOf(item)).value;
      if parsed.JArray? || parsed.JObject? {
        var kept := AllowedEntries(c, EntriesOf(parsed));
        if kept != [] {
          var rebuilt := if parsed.JArray? then JArray(kept) else kept[0];
          TextOfMessage(c.dumps(rebuilt));
          RebuiltReadsBack(c, parsed);
          assert kept[0] in kept;
          if parsed.JObject? {
            SingleEntry(c, parsed);
          }
        }
      }
    }
  }

  /**
   Of a list or single-result tool of a server in scope, something is shown, and all of it is presentable. Other servers,
   other tools and content that is no list are left alone.
   */
  lemma FilterShowsAllowedOnly(c: FilterConfig, server: string, tool: string, payload: Json)
    requires JsonReadsBack(c) && payload.JObject?
    ensures var out, content := FilterResponse(c, server, tool, payload), Get(payload.fields, "content");
            if (c.servers == [] || server in c.servers) && (tool in c.listTools || tool in c.singleTools)
               && (content.Some? ==> content.value.JArray?)
            then ContentOf(out) != [] && forall x | x in ContentOf(out) :: Presentable(c, tool, x)
            else out == payload
  {
    if !FilterApplies(c, server, tool, payload) {
      return;
    }
    var items := ContentOf(payload);
    FilteredItemsArePresentable(c, tool, items);
    GetAfterPut(payload.fields, "content", JArray(FilterContent(c, tool, items)), "content");
  }

  /**
   Of a readable text item nothing is withheld but what is not permitted: a list loses exactly its other entries, and the
   item with them when none is left; a single result blocks the response exactly if it is not permitted.
   */
  lemma FilterWithholdsOnlyTheForbidden(c: FilterConfig, tool: string, item: Json, parsed: Json)
    requires IsText(item) && c.loads(TextOf(item)) == Some(parsed)
    ensures tool in c.listTools && parsed.JArray? ==>
              exists kept ::
                && ArePermittedOf(c, parsed.items, kept)
                && FilterItem(c, tool, item) == Kept(if kept == [] then [] else [PolicyMessage(c.dumps(JArray(kept)))])
    ensures tool !in c.listTools && tool in c.singleTools ==>
              FilterItem(c, tool, item) == if PermittedEntry(c, parsed) then Kept([item]) else Blocked
  {
    if tool in c.listTools && parsed.JArray? {
      AllowedEntriesAreThePermitted(c, parsed.items);
    }
  }

  lemma {:induction false} AllowedEntriesAreFixed(c: FilterConfig, entries: seq<Json>)
    requires forall e | e in entries :: EntryAllowed(c, e)
    ensures AllowedEntries(c, entries) == entries
  {
    if entries == [] {
    } else {
      AllowedEntriesAreFixed(c, entries[1..]);
      assert entries == [entries[0]] + entries[1..];
    }
  }

  /** Filtering a list item again changes nothing. */
  lemma FilteringTwiceIsFilteringOnce(c: FilterConfig, parsed: Json, item: Json)
    requires JsonReadsBack(c) && Reads(c, parsed) && (parsed.JArray? || parsed.JObject?)
    ensures match FilterListItem(c, parsed, item)
            case None => true
            case Some(x) => IsText(x) && c.loads(TextOf(x)).Some?
                            && FilterListItem(c, c.loads(TextOf(x)).value, x) == Some(x)
  {
    var kept := AllowedEntries(c, EntriesOf(parsed));
    if kept != [] {
      var rebuilt := if parsed.JArray? then JArray(kept) else kept[0];
      TextOfMessage(c.dumps(rebuilt));
      RebuiltReadsBack(c, parsed);
      if parsed.JObject? {
        SingleEntry(c, parsed);
      }
      AllowedEntriesAreFixed(c, kept);
    }
  }

  // ------------------------------------------------------------------
  // Masking
  // ------------------------------------------------------------------

  datatype MaskingConfig = MaskingConfig(engine: Engine, enabled: bool)

  function MaskResponse(c: MaskingConfig, payload: Json): Json {
    if c.enabled && payload.Truthy() then Masked(c.engine, Response, payload) else payload
  }

  function RunMasking(c: MaskingConfig, point: Point, ctx: HookContext): Outcome {
    if !c.enabled then Proceed(ctx)
    else
      match point
      case PreMasking =>
        if !ctx.requestPayload.Truthy() then Proceed(ctx.(maskingStageCompleted := true))
        else
          var t := Scan(c.engine, Request, Leaves(ctx.requestPayload, []));
          if t.failed then ShortCircuit("Masking failure", true)
          else if t.fields == [] then Proceed(ctx.(maskingStageCompleted := true))
          else Proceed(ctx.(requestPayload := Masked(c.engine, Request, ctx.requestPayload),
                            maskingApplied := true, maskedFields := t.fields, maskingEvents := t.events,
                            maskingStageCompleted := true))
      case PostMasking =>
        if !ctx.responsePayload.Truthy() then Proceed(ctx.(maskingStageCompleted := true))
        else
          var t := Scan(c.engine, Response, Leaves(ctx.responsePayload, []));
          if t.failed then ShortCircuit("Output masking failed", true)
          else if t.fields == [] then Proceed(ctx.(maskingStageCompleted := true))
          else Proceed(ctx.(responsePayload := Masked(c.engine, Response, ctx.responsePayload),
                            outputMaskingApplied := true, outputMaskedFields := t.fields,
                            maskingStageCompleted := true))
      case _ => Proceed(ctx)
  }

  /** Input masking: the hook's code computes the hook's function. */
  method OnPreMasking(c: MaskingConfig, ctx: HookContext) returns (out: Outcome)
    requires ctx.requestPayload.WellFormed()
    ensures out == RunMasking(c, PreMasking, ctx)
  {
    if !c.enabled {
      return Proceed(ctx);
    }
    if !ctx.requestPayload.Truthy() {
      return Proceed(ctx.(maskingStageCompleted := true));
    }
    var rec := new Recorder();
    ThenUntouched(Scan(c.engine, Request, Leaves(ctx.requestPayload, [])));
    var walked := WalkAndMask(c.engine, ctx.requestPayload, "", [], rec);
    if walked.Err? {
      return ShortCircuit("Masking failure", true);
    }
    if rec.fields != [] {
      return Proceed(ctx.(requestPayload := walked.value, maskingApplied := true, maskedFields := rec.fields,
                          maskingEvents := rec.events, maskingStageCompleted := true));
    }
    return Proceed(ctx.(maskingStageCompleted := true));
  }

  /** Output masking: the hook's code computes the hook's function. */
  method OnPostMasking(c: MaskingConfig, ctx: HookContext) returns (out: Outcome)
    requires ctx.responsePayload.WellFormed()
    ensures out == RunMasking(c, PostMasking, ctx)
  {
    if !c.enabled {
      return Proceed(ctx);
    }
    if !ctx.responsePayload.Truthy() {
      return Proceed(ctx.(maskingStageCompleted := true));
    }
    var rec := new Recorder();
    ThenUntouched(Scan(c.engine, Response, Leaves(ctx.responsePayload, [])));
    var walked := MaskRecursive(c.engine, ctx.responsePayload, "", [], rec);
    if walked.Err? {
      return ShortCircuit("Output masking failed", true);
    }
    if rec.fields != [] {
      return Proceed(ctx.(responsePayload := walked.value, outputMaskingApplied := true,
                          outputMaskedFields := rec.fields, maskingStageCompleted := true));
    }
    return Proceed(ctx.(maskingStageCompleted := true));
  }

  lemma ScanFailsIff(engine: Engine, dir: Direction, leaves: seq<Leaf>)
    ensures Scan(engine, dir, leaves).failed <==> exists leaf :: leaf in leaves && engine(leaf.text, dir).EngineError?
  {
    var n := ScanVisits(engine, dir, leaves);
    if Scan(engine, dir, leaves).failed {
      assert leaves[n] in leaves;
    }
  }

  /** One stage of masking, over its payload before and after: it goes on exactly if the engine fails on no leaf. */
  ghost predicate Masks(c: MaskingConfig, dir: Direction, out: Outcome, before: Json, after: Json) {
    && (out.Proceed? <==> !exists leaf :: leaf in Leaves(before, []) && c.engine(leaf.text, dir).EngineError?)
    && (out.Proceed? ==> after == Masked(c.engine, dir, before) && AllRewritten(c.engine, dir, before, after))
    && (!out.Proceed? ==> out.ShortCircuit? && out.deny)
  }

  lemma MaskingStage(c: MaskingConfig, dir: Direction, before: Json)
    ensures var t := Scan(c.engine, dir, Leaves(before, []));
            && (t.failed <==> exists leaf :: leaf in Leaves(before, []) && c.engine(leaf.text, dir).EngineError?)
            && (!t.failed ==> AllRewritten(c.engine, dir, before, Masked(c.engine, dir, before)))
            && (!t.failed && t.fields == [] ==> Masked(c.engine, dir, before) == before)
  {
    var t := Scan(c.engine, dir, Leaves(before, []));
    ScanFailsIff(c.engine, dir, Leaves(before, []));
    if !t.failed {
      MaskedLeavesAreTheEnginesAnswers(c.engine, dir, before);
      if t.fields == [] {
        NothingRecordedNothingChanged(c.engine, dir, before);
      }
    }
  }

  /**
   A context that passes masking carries the masked payload, leaf by leaf as the engine answered, whether or not anything
   was recorded; an engine failure on any leaf denies.
   */
  lemma MaskingAlwaysMasks(c: MaskingConfig, ctx: HookContext)
    requires c.enabled
    ensures var out := RunMasking(c, PostMasking, ctx);
            && (out.Proceed? ==> out.ctx.responsePayload == MaskResponse(c, ctx.responsePayload))
            && (ctx.responsePayload.Truthy() ==>
                  Masks(c, Response, out, ctx.responsePayload,
                        if out.Proceed? then out.ctx.responsePayload else ctx.responsePayload))
    ensures var out := RunMasking(c, PreMasking, ctx);
            ctx.requestPayload.Truthy() ==>
              Masks(c, Request, out, ctx.requestPayload, if out.Proceed? then out.ctx.requestPayload else ctx.requestPayload)
  {
    MaskingStage(c, Response, ctx.responsePayload);
    MaskingStage(c, Request, ctx.requestPayload);
  }

  /** What masking records in a context it passes on: the flagged leaves of the payload, if there are any. */
  lemma MaskingRecordsTheFlagged(c: MaskingConfig, ctx: HookContext)
    requires c.enabled
    ensures var out, flagged := RunMasking(c, PreMasking, ctx), Flagged(c.engine, Request, Leaves(ctx.requestPayload, []));
            out.Proceed? && ctx.requestPayload.Truthy() && flagged != [] ==>
              && out.ctx.maskingApplied && AreLabelsOf(out.ctx.maskedFields, Request, flagged)
              && (forall leaf | leaf in flagged :: c.engine(leaf.text, Request).Answer?)
              && out.ctx.maskingEvents == EventsOf(c.engine, flagged)
    ensures var out, flagged := RunMasking(c, PostMasking, ctx), Flagged(c.engine, Response, Leaves(ctx.responsePayload, []));
            out.Proceed? && ctx.responsePayload.Truthy() && flagged != [] ==>
              out.ctx.outputMaskingApplied && AreLabelsOf(out.ctx.outputMaskedFields, Response, flagged)
  {
    var requested, answered := Leaves(ctx.requestPayload, []), Leaves(ctx.responsePayload, []);
    CompletedScanRecords(c.engine, Request, requested);
    CompletedScanRecords(c.engine, Response, answered);
  }

  lemma CompletedScanRecords(engine: Engine, dir: Direction, leaves: seq<Leaf>)
    ensures !Scan(engine, dir, leaves).failed ==> Records(engine, dir, leaves, Scan(engine, dir, leaves))
  {
    ScanVisitsEachLeafOnce(engine, dir, leaves);
    assert leaves[..|leaves|] == leaves;
  }

  // ------------------------------------------------------------------
  // Observers, and the standard registration
  // ------------------------------------------------------------------

  /** Analytics and audit read the context at PRE_AUDIT and return it unchanged, unless they crash. */
  function RunObserver(breaks: nat -> bool, now: nat, point: Point, ctx: HookContext): Outcome {
    if point == PreAudit && breaks(now) then Crash("observer failure") else Proceed(ctx)
  }

  /** Which hooks are configured; audit always is. */
  datatype Standard = Standard(
    identity: Option<IdentityConfig>,
    governance: Option<GovernanceConfig>,
    filter: Option<FilterConfig>,
    masking: Option<MaskingConfig>,
    analytics: Option<nat -> bool>,
    audit: nat -> bool,
    errorRaises: nat -> bool)
  {
    function IdentityHooks(): seq<Hook> {
      match identity
      case None => []
      case Some(c) => [Hook("IdentityHook", (n: nat, p, x) => RunIdentity(c, n, p, x), errorRaises)]
    }

    function GovernanceHooks(): seq<Hook> {
      match governance
      case None => []
      case Some(c) => [Hook("GovernanceHook", (n: nat, p, x) => RunGovernance(c, p, x), errorRaises)]
    }

    function FilterHooks(): seq<Hook> {
      match filter
      case None => []
      case Some(c) => [Hook("GitHubRepoFilterHook", (n: nat, p, x) => RunFilter(c, p, x), errorRaises)]
    }

    function MaskingHooks(): seq<Hook> {
      match masking
      case None => []
      case Some(c) => [Hook("MaskingHook", (n: nat, p, x) => RunMasking(c, p, x), errorRaises)]
    }

    function ObserverHooks(): seq<Hook> {
      (match analytics
       case None => []
       case Some(breaks) => [Hook("AnalyticsHook", (n: nat, p, x) => RunObserver(breaks, n, p, x), errorRaises)])
      + [Hook("AuditHook", (n: nat, p, x) => RunObserver(audit, n, p, x), errorRaises)]
    }

    /** The hooks in priority order: 10, 50, 55, 75, 145, 150. */
    function Hooks(): seq<Hook> {
      IdentityHooks() + GovernanceHooks() + FilterHooks() + MaskingHooks() + ObserverHooks()
    }
  }
}
