# mcp-zero, modelled and proved

mcp-zero is a gateway between AI clients and MCP servers. This project models its logic in Dafny and proves what its
parts keep, from one call of the policy engine to every interleaving of the tasks that share a cache.

Layout, from the bottom up:

- `Prelude`, `Text`, `Sorting`, `Json`, `Identity`, `Context`: shared values, decimal printing, canonical sorting, payloads,
  callers, contexts.
- `MaskingWalkers`, `LeafPaths`: the two masking walkers over JSON trees, and the paths they record.
- `PolicyEngine`, `ToolRouting`: rule evaluation, the pattern matcher, tool names, listing and calling.
- `HookPipeline`, `StandardHooks`, `JsonText`, `ProxyCall`, `EndToEnd`: registry, pipeline, the gateway's own hooks, a JSON
  printer and reader that meet what the repository filter relies on, one tool call with its retries, and what a client can
  receive from it.
- `Analytics`, `AnalyticsBatch`, `AnalyticsStore`, `AnalyticsCollector`: event queue, batches of Redis commands, counters.
- `OboExchange`, `OboClient`, `SessionPool`, `SessionCollision`, `SessionClosing`, `ServerManager`: the token-exchange cache
  (RFC 8693, section 2), the transport pool it feeds, exactly when a key has one transport, and what a disconnect takes.
- `TransportOwner`, `HttpTransport`: the caller/owner protocol of a connection.
- `JwksCache`, `JwtValidation`: signing keys (RFC 7517, section 5) and token validation (RFC 7519, section 7.2).
- `ProcessRestart`: restarts of managed processes.

Concurrent code is a state machine: one atomic step is what a task does between two awaits, a lock is a field naming its
holder, and a run is any list of steps each of which is enabled where it is taken, so every theorem about runs holds for
any number of tasks and any interleaving. Beside each machine stands a class with the source's fields whose methods are
the segments of the source's coroutines; each is proved to take the machine's step and to keep its invariant.

Where the code and what is said about it differ, the code is modelled:

- The loader's wildcard pattern uses `$`, which lets a final newline through; `PolicyEngine.AcceptedPatternsAreGlobs`
  says exactly which accepted patterns then differ from a glob.
- Everything may have been executed in a run that fails: `HookPipeline.AllExecutedIffDoneOrLastFails`.
- A first pipeline run that fails does not stop the call unless a hook denied in it: after a crash of a hook the call goes on
  to ask for a token, with the context of the completed points: `EndToEnd.OnlyADenialStopsTheCall`.
- The project's own README says data is masked before requests reach upstream; the call forwards the client's original
  arguments: `ProxyCall.UpstreamSeesTheOriginalArguments`.
- A transport that reports itself connected may have lost its session:
  `TransportOwner.ConnectedHasSessionIffOwnerWaits` and `TransportOwner.DeadOwnerStaysConnected`.
- A connect announces that it clears a task left over from a failed attempt; with one caller at a time there never is one
  (part of the invariant in `TransportOwner.StepKeeps`).
- A key of the transport pool has one transport exactly while no disconnect names it, because a disconnect drops the key's
  lock while another task may hold it: `SessionCollision.UniqueIffNotNamed`.
- A governance hook built to require an identity, in a gateway without the identity hook, lists tools it never lets anyone
  call: `ToolRouting.UnvalidatedCallerListsButNeverCalls`. The gateway as `main.py` assembles it is not of that kind, and
  there listing and calling agree for every caller: `EndToEnd.ListingShowsWhatCanBeCalled`.

## Model

| member | source | states |
|---|---|---|
| MaskingWalkers.WalkAndMask | src/mcp_zero/masking/hook.py:150-208 | the request walker returns the masked tree, and its accumulators grow by exactly the scan of the leaves in depth-first order, up to the first engine error |
| MaskingWalkers.MaskRecursive | src/mcp_zero/masking/hook.py:210-264 | the response walker refines the same tree and scan, recording bare paths and no events |
| MaskingWalkers.ScanVisitsEachLeafOnce | src/mcp_zero/masking/hook.py:166-185 | each string leaf goes to the engine once, in order; fields are the ordered labels of the flagged leaves and events their ordered events; nothing follows an engine error |
| MaskingWalkers.MaskingKeepsShape | src/mcp_zero/masking/hook.py:187-208 | keys, lengths and non-string leaves are kept, string leaves are replaced in place |
| MaskingWalkers.MaskedLeavesAreTheEnginesAnswers | src/mcp_zero/masking/hook.py:166-185 | after a completed walk every leaf stands on its old route with the engine's text if the engine flagged it, and its old text if not |
| MaskingWalkers.TreeIsSkeletonAndLeaves | src/mcp_zero/masking/hook.py:246-264 | skeleton and leaf texts determine a tree, so the shape lemma describes the result completely |
| MaskingWalkers.NothingRecordedNothingChanged | src/mcp_zero/masking/hook.py:81-90 | an empty field list means output equals input, which justifies the conditional evolve |
| MaskingWalkers.WalkersAgree | src/mcp_zero/masking/hook.py:227-264 | under a direction-insensitive engine both walkers give one tree from the same engine calls |
| LeafPaths.DecodeRecoversRoute | src/mcp_zero/masking/hook.py:187-205 | a decoder recovers the route of any leaf reached through keys that are non-empty, without a dot, and without a trailing printed index |
| LeafPaths.LeavesHaveDistinctRoutes | src/mcp_zero/masking/hook.py:187-205 | distinct leaves of a tree are reached by distinct routes |
| LeafPaths.PathsNameLeaves | src/mcp_zero/masking/hook.py:246-262 | in a tree over such keys distinct leaves print distinct paths, each decoding to its own route |
| LeafPaths.RecordedFieldsAreDistinct | src/mcp_zero/masking/hook.py:172-174 | the recorded masked fields then hold no duplicate |
| LeafPaths.UnsafeKeysCollide | src/mcp_zero/masking/hook.py:187-200 | exactness: every other key occurs in some tree two of whose leaves print one path |
| Text.DecimalIsReadBack | src/mcp_zero/masking/hook.py:199 | decimal index printing is injective |
| PolicyEngine.EvaluateRules | src/mcp_zero/governance/engine.py:128-163 | the one-pass loop returns the first matching deny, else the first matching allow, else the default |
| PolicyEngine.Evaluate | src/mcp_zero/governance/engine.py:128-163 | the result as a function satisfies the same specification |
| PolicyEngine.DenyOverridesIsFunctional | src/mcp_zero/governance/engine.py:128-163 | that specification admits one result per input |
| PolicyEngine.OrderOfRulesIsIrrelevant | src/mcp_zero/governance/engine.py:128-163 | permuting the rules never changes the effect |
| PolicyEngine.AddingDenyOnlyDenies | src/mcp_zero/governance/engine.py:128-163 | a deny rule added anywhere denies what it matches and changes nothing else |
| PolicyEngine.RuleAppliesTo | src/mcp_zero/governance/engine.py:164-211 | a rule matches exactly the callers it concerns (everyone, if it names nobody) and the servers and tools its globs cover (all tools, if it names none) |
| PolicyEngine.BroadRulesSettle | src/mcp_zero/governance/engine.py:172-211 | a rule without subjects for a server without tools settles every caller's every tool there, unless it allows and another rule denies |
| PolicyEngine.MatcherIsGlobIff | src/mcp_zero/governance/engine.py:66-81 | the matcher equals the recursive glob on all values exactly for patterns without a star, the lone star, and one star at one end |
| PolicyEngine.MatcherMissesGlob | src/mcp_zero/governance/engine.py:66-81 | for any other pattern, a value only the glob accepts |
| PolicyEngine.AcceptedPatternsAreGlobs | src/mcp_zero/governance/loader.py:512-534 | for every pattern the loader accepts, matcher and glob agree on all values exactly unless a newline follows the closing star |
| PolicyEngine.NewlineAfterStarIsMissed | src/mcp_zero/governance/loader.py:38 | every word, star and newline is accepted, and the word with the newline is a value only the glob accepts |
| ToolRouting.ParseInvertsNamespaceIff | src/mcp_zero/proxy/tool_router.py:12-27 | parsing recovers server and tool exactly when both are non-empty and the server neither contains the separator nor ends in an underscore |
| ToolRouting.RouteDeterminesName | src/mcp_zero/proxy/tool_router.py:17-27 | two names with one route are one name |
| ToolRouting.FetchAllTools | src/mcp_zero/proxy/proxy_server.py:113-144 | the gathered list is every answering server's tools, namespaced, in server order |
| ToolRouting.GatheredToolsHaveOrigin | src/mcp_zero/proxy/proxy_server.py:113-144 | what is gathered is exactly every tool of every server that answered, under `server__tool` |
| ToolRouting.FilterToolsByPolicy | src/mcp_zero/proxy/proxy_server.py:146-184 | the loop keeps, in order, exactly the tools the policy allows the caller |
| ToolRouting.ListTools | src/mcp_zero/proxy/proxy_server.py:77-111 | a failed validation lists nothing, no policy lists everything, a policy lists what it allows |
| ToolRouting.ListingAgreesWithCallingIff | src/mcp_zero/governance/hook.py:31-87 | for any governance hook and identity: the routable part of the listing is the ordered subsequence of fetched tools whose call is admitted, unless the caller is anonymous, the hook requires an identity and some fetched tool is open to all |
| ToolRouting.UnvalidatedCallerListsButNeverCalls | src/mcp_zero/governance/hook.py:31-46 | a hook that requires an identity, without an identity hook: a tool that is listed and whose call is refused |
| HookPipeline.HookRegistry.Register | src/mcp_zero/pipeline/registry.py:26-34 | appends with a fresh insertion number, or raises and changes nothing once frozen |
| HookPipeline.HookRegistry.Build | src/mcp_zero/pipeline/registry.py:36-43 | a permutation of the registrations, by priority and then insertion, frozen |
| HookPipeline.HookRegistry.GetHooks | src/mcp_zero/pipeline/registry.py:45-52 | the hooks in order once built, an exception before |
| HookPipeline.ScheduleOrderIsUnique | src/mcp_zero/pipeline/registry.py:36-43 | registrations have one priority-stable order |
| HookPipeline.ExecuteHookPoint | src/mcp_zero/pipeline/pipeline.py:89-110 | one point folds its hooks; on failure the log ends at the failing hook and the error says how it failed |
| HookPipeline.FireErrorHooks | src/mcp_zero/pipeline/pipeline.py:112-118 | every hook's error callback is called once, in order, and the record says which raised: a raising one stops none after it |
| HookPipeline.Execute | src/mcp_zero/pipeline/pipeline.py:42-79 | a run either folds the whole schedule, or stops at a step with the context of the completed points, marked, and all error hooks told |
| HookPipeline.FailedRunsSayHow | src/mcp_zero/pipeline/pipeline.py:49-70 | a short circuit is reported as raised, marks the context of the completed points and denies exactly if it says so; any other exception is reported with hook and point and leaves that context alone |
| HookPipeline.FailureIsReported | src/mcp_zero/pipeline/pipeline.py:49-70 | the step of the schedule that is reached and fails is what the run reports, and a denial there denies |
| HookPipeline.RunIsDetermined | src/mcp_zero/pipeline/pipeline.py:42-79 | that description leaves one result |
| HookPipeline.EveryRunIsDescribed | src/mcp_zero/pipeline/pipeline.py:42-79 | every run has such a result, for every behaviour of the hooks |
| HookPipeline.ExecutedIsPrefix | src/mcp_zero/pipeline/pipeline.py:89-110 | the executed hooks are a prefix of the point-major schedule, the whole of it on success, ending at the failing hook otherwise |
| HookPipeline.AllExecutedIffDoneOrLastFails | src/mcp_zero/pipeline/pipeline.py:42-79 | the whole schedule was executed exactly if the run succeeded or the failing hook is the very last |
| HookPipeline.LastHookFailsAfterAllExecuted | src/mcp_zero/pipeline/pipeline.py:98-109 | a concrete run where everything is executed and the run fails |
| StandardHooks.FilterListResponse | src/mcp_zero/plugins/github_repo_filter.py:253-278 | keeps exactly the entries of allowed repositories, in order, or drops the item |
| StandardHooks.FilterEach | src/mcp_zero/plugins/github_repo_filter.py:307-340 | the loop over content items, stopping at the first unreadable or blocked one |
| StandardHooks.FilterOnPostMasking | src/mcp_zero/plugins/github_repo_filter.py:290-348 | rewrites the content item by item, failing closed on an unreadable item or a disallowed single result; nothing else of the context changes |
| StandardHooks.FilterShowsAllowedOnly | src/mcp_zero/plugins/github_repo_filter.py:253-348 | for a list or single-result tool of a server in scope, every item let out is non-text, a notice, or text about repositories on the allowlist, or off the blocklist, provided what was read is read back from its printed text; everything else is left alone |
| StandardHooks.FilterWithholdsOnlyTheForbidden | src/mcp_zero/plugins/github_repo_filter.py:253-288 | a list loses exactly the entries that are not permitted, and a single result blocks the response exactly if it is not |
| StandardHooks.FilteringTwiceIsFilteringOnce | src/mcp_zero/plugins/github_repo_filter.py:253-278 | under the same proviso, an item filtered from a value that was read passes the filter unchanged |
| JsonText.SomeReaderReadsBack | src/mcp_zero/plugins/github_repo_filter.py:313-320 | the proviso can be met: a printer and a reader of every well-formed value, the reader never yielding a dict with one key twice |
| StandardHooks.OnPreMasking | src/mcp_zero/masking/hook.py:45-90 | input masking with its accumulators computes the hook's outcome, denying on an engine error |
| StandardHooks.OnPostMasking | src/mcp_zero/masking/hook.py:96-144 | the same for output masking |
| StandardHooks.MaskingAlwaysMasks | src/mcp_zero/masking/hook.py:81-144 | masking goes on exactly if the engine fails on no string, and then the context carries the payload with every string as the engine answered, recorded or not; otherwise it denies |
| StandardHooks.MaskingRecordsTheFlagged | src/mcp_zero/masking/hook.py:81-90 | the context names the flagged strings by their paths, in order, and for a request holds their events |
| ProxyCall.Attempt | src/mcp_zero/proxy/proxy_server.py:246-303 | one attempt either ends in an error the loop retries, after a disconnect on transport trouble, or settles the call |
| ProxyCall.CallWithRetries | src/mcp_zero/proxy/proxy_server.py:243-324 | some number of retried attempts within the budget, then one that settles the call or the upstream error |
| ProxyCall.Forward | src/mcp_zero/proxy/proxy_server.py:223-324 | the token first; a failed exchange is access denied and nothing else |
| ProxyCall.CallTool | src/mcp_zero/proxy/proxy_server.py:186-324 | the whole call as an ordered list of effects and a reply: routing, first run, denial, token, retried attempts, second run, rebuild |
| ProxyCall.FirstRunSeesTheCall | src/mcp_zero/proxy/proxy_server.py:190-202 | the first run starts with the call's server, tool, arguments and header, nobody identified and nothing decided |
| ProxyCall.AnswersShowEveryItem | src/mcp_zero/proxy/proxy_server.py:327-343 | after a second run that left a list, the client gets one entry per item in order, a text, image or resource as itself and any other dict printed, or an exception exactly if an item is no dict or invalid for its kind |
| ProxyCall.FirstAnswerIsDelivered | src/mcp_zero/proxy/proxy_server.py:243-324 | without hooks, the first attempt that is neither timed out nor in transport trouble settles the call, if the budget reaches it |
| ProxyCall.SettledCounts | src/mcp_zero/proxy/proxy_server.py:245-310 | sessions asked for are the attempts made, at most max_retries + 1; one disconnect per transport trouble; total sleep is the backoff of the attempts retried |
| ProxyCall.RetriesSleep | src/mcp_zero/proxy/proxy_server.py:301-310 | after k pauses the total sleep is retry_delay * (2^k - 1) |
| ProxyCall.CallIsBounded | src/mcp_zero/proxy/proxy_server.py:186-324 | at most two pipeline runs per call, whatever the retries; attempts and disconnects bounded |
| ProxyCall.DenialStopsTheCall | src/mcp_zero/proxy/proxy_server.py:204-221 | a first run ending in DENY asks for no token and opens no session |
| ProxyCall.UpstreamSeesTheOriginalArguments | src/mcp_zero/proxy/proxy_server.py:250-254 | every upstream call carries the client's own arguments, whatever the hooks did to the payload |
| EndToEnd.AnyRegistrationOrder | src/mcp_zero/pipeline/registry.py:36-52 | however the standard hooks are registered, their default priorities give one order |
| EndToEnd.SuccessfulRun | src/mcp_zero/pipeline/pipeline.py:42-79 | a successful run of the standard hooks validated the caller from its header, whose token the context carries; governance allowed user, groups, server and tool and says so; the request's repositories were permitted; the payload is mask(filter(payload)), every string as the engine answered |
| EndToEnd.RunKeepsCall | src/mcp_zero/pipeline/pipeline.py:42-79 | a run, successful or not, keeps the authorization header and the server and tool names, and ends denied exactly if a hook denied |
| EndToEnd.SuccessIsAudited | src/mcp_zero/pipeline/pipeline.py:72-79 | the last thing a successful run did was the audit, which did not fail |
| EndToEnd.OnlyADenialStopsTheCall | src/mcp_zero/proxy/proxy_server.py:204-230 | the first run stops the call exactly if a hook denied in it; after any other failure a token is asked for |
| EndToEnd.IdentityDenies | src/mcp_zero/identity/hook.py:29-63 | a missing or malformed header or a rejected token: the run is denied |
| EndToEnd.RefusalDenies | src/mcp_zero/governance/hook.py:31-87 | a validated caller that governance refuses, or whose request names a repository that is not permitted: the run is denied |
| EndToEnd.MaskingFailureDenies | src/mcp_zero/masking/hook.py:66-80 | an admitted request that the masking engine fails on: the run is denied |
| EndToEnd.RefusedCallsAreTurnedAway | src/mcp_zero/proxy/proxy_server.py:204-221 | in each of these cases the call is that one run and a notice that access is denied: nothing is asked for or sent |
| EndToEnd.ListingShowsWhatCanBeCalled | src/mcp_zero/proxy/proxy_server.py:77-111 | in the gateway as assembled, for every caller whose listing passes validation, the routable part of the listing is exactly the fetched tools whose call governance admits |
| EndToEnd.ClientReceivesOnlyPresentedContent | src/mcp_zero/proxy/proxy_server.py:256-286 | upstream content reaches a client only as one entry per item of what the filter and then masking left of one answer, every string as the engine answered, and all of it where neither is configured, after a second run that validated the caller and passed governance |
| EndToEnd.SomeCallDeliversContent | src/mcp_zero/proxy/proxy_server.py:186-286 | a concrete call in which the client receives what upstream returned, so the theorem above is about something |
| Analytics.BucketKeyIsInjective | src/mcp_zero/analytics/keys.py:56-66 | two bucket keys coincide only for one category, dimension and bucket |
| Analytics.BucketHoldsItsEvents | src/mcp_zero/analytics/keys.py:56-59 | an event lies in bucket b exactly if b * bucket_seconds <= int(timestamp) < (b + 1) * bucket_seconds |
| Analytics.ToolFieldNamesTheTool | src/mcp_zero/analytics/collector.py:274 | for servers without a colon, a tool field names one server and tool |
| Analytics.IncrementsContribute | src/mcp_zero/analytics/collector.py:276-435 | the increments of an event add up, counter by counter, to its contribution |
| AnalyticsBatch.Batch.HIncrBy | src/mcp_zero/analytics/collector.py:448-464 | appends one increment, and one expiry exactly if the key is new to the batch |
| AnalyticsBatch.TrackMax | src/mcp_zero/analytics/collector.py:314-318 | the latency table stays the table of maxima of the events seen |
| AnalyticsBatch.AddEvent | src/mcp_zero/analytics/collector.py:276-435 | one event appends exactly its increments, in order, to its bucket |
| AnalyticsBatch.BuildOperations | src/mcp_zero/analytics/collector.py:264-446 | a batch is the increments of its events in order, then one HSET per maximum, with expiries after first writes |
| AnalyticsStore.EverySplitHasBatches | src/mcp_zero/analytics/collector.py:264-446 | however events are split, every part has a batch |
| AnalyticsStore.BatchShape | src/mcp_zero/analytics/collector.py:440-464 | one expiry per written key, right after its first write; exactly one HSET per bucket and tool with a positive maximum, equal to it |
| AnalyticsStore.LatencyBounds | src/mcp_zero/analytics/collector.py:292-318 | per bucket and tool, max <= sum <= count * max, an absent maximum being 0 |
| AnalyticsStore.MaximumIsReached | src/mcp_zero/analytics/collector.py:314-318 | the maximum is one of the latencies of the batch, and none is larger |
| AnalyticsStore.MaximaAreStored | src/mcp_zero/analytics/collector.py:437-446 | one batch applied in any order leaves each bucket and tool at the batch's maximum, or at its old value if the batch has none |
| AnalyticsStore.TotalIgnoresOrder | src/mcp_zero/analytics/collector.py:249-262 | what increments add to a counter depends only on which are applied |
| AnalyticsStore.CountersAreConserved | src/mcp_zero/analytics/collector.py:249-446 | applied in any order, the operations of all batches leave each counter at its old value plus the sum of the events' contributions |
| AnalyticsCollector.Collector.Enqueue | src/mcp_zero/analytics/collector.py:226-236 | queues the event, or counts it as dropped exactly when a positive bound is reached |
| AnalyticsCollector.Collector.Flush | src/mcp_zero/analytics/collector.py:249-262 | hands over the whole queue in order as one batch, and sends nothing for an empty queue |
| AnalyticsCollector.DroppedExactlyWhenFull | src/mcp_zero/analytics/collector.py:226-236 | in every run an event is dropped exactly when a bounded queue is full, and queued last otherwise |
| AnalyticsCollector.RunConserves | src/mcp_zero/analytics/collector.py:226-262 | over every run: recorded = queued + handed over + dropped, order kept, bound kept, no empty batch |
| AnalyticsCollector.NothingDroppedNothingLost | src/mcp_zero/analytics/collector.py:226-262 | with nothing dropped and the queue flushed, every counter is exact over all recorded events |
| OboExchange.KeysAgreeUpToScopeOrder | src/mcp_zero/identity/obo.py:71-79 | two requests share a key exactly if subject and audience are equal and the scopes are permutations |
| OboExchange.StepKeeps | src/mcp_zero/identity/obo.py:103-125 | the cache invariant holds after every step of any task |
| OboExchange.SingleFlight | src/mcp_zero/identity/obo.py:111-125 | in every run at most one exchange per key is in flight |
| OboExchange.ExchangesAreAccountedFor | src/mcp_zero/identity/obo.py:117-125 | between two consecutive exchanges for a key, the first failed, or its stored token had at most the TTL left to live when the second began |
| OboExchange.ReturnedTokensAreForTheirRequest | src/mcp_zero/identity/obo.py:106-125 | a returned token is from an exchange for the same subject, audience and scopes, its own or one with more than the TTL left to live when checked |
| OboExchange.LooksUseFreshTokens | src/mcp_zero/identity/obo.py:106-123 | a look that finds a token with more than the TTL left to live returns it at once, without lock or request; otherwise the first look goes for the locks and the second sends the task's own request |
| OboExchange.AnswersAreStampedOnArrival | src/mcp_zero/identity/obo.py:50-125 | an answer is stored under the task's key and returned, stamped with the moment it arrived |
| OboExchange.ExchangesSendTheirTasksRequest | src/mcp_zero/identity/obo.py:123-141 | in every run what the endpoint is sent is the request of the task that sends it |
| OboExchange.LocksNeverChange | src/mcp_zero/identity/obo.py:111-115 | the lock of a key, once created, is the same for the rest of the run |
| OboExchange.SomeTaskCanMove | src/mcp_zero/identity/obo.py:91-125 | while a task is live some task can take a step: no deadlock |
| OboExchange.StepsUseUpWork | src/mcp_zero/identity/obo.py:91-125 | every task step uses up a finite amount of work, so no run spins |
| OboClient.Client.IsExpired | src/mcp_zero/identity/obo.py:52-55 | the age has reached expires_in - ttl |
| OboClient.Client.Look | src/mcp_zero/identity/obo.py:106-123 | the look before any lock and the one inside the key's lock: a fresh token is returned, a second miss begins an exchange; one step of the machine, which keeps its invariant |
| OboClient.Client.Enter | src/mcp_zero/identity/obo.py:111-117 | into the global lock, out of it with the key's lock found or made, into that lock |
| OboClient.Client.StoreToken | src/mcp_zero/identity/obo.py:123-125 | stores the token under the key, releases the lock, returns it |
| OboClient.Client.Unwind | src/mcp_zero/identity/obo.py:143-169 | an exception releases what was held and leaves the cache alone |
| SessionPool.AnswerIsVouched | src/mcp_zero/proxy/obo_auth.py:37-71 | a token the provider returns is from an exchange for the caller's subject with the server's audience and scopes |
| SessionPool.ProviderAsksOnlyWithCredentials | src/mcp_zero/proxy/obo_auth.py:37-71 | no exchange to make: no token; one to make without raw token or identity: a refusal; otherwise the caller's raw token and user id arrive at the client with the server's audience and scopes |
| SessionPool.ExchangesCarryTheCallersToken | src/mcp_zero/proxy/obo_auth.py:66-71 | in every run a caller that waits for an exchange waits for one with its own raw token and user id and its server's audience and scopes, and that is what is sent |
| SessionPool.EveryExchangeIsACallersOwn | src/mcp_zero/proxy/obo_auth.py:37-71 | in every run whatever the endpoint was sent is the raw token of a call, under that call's user id and its server's audience and scopes |
| SessionPool.StepKeepsIsolation | src/mcp_zero/proxy/server_manager.py:68-120 | every step of calls, listings, disconnects and exchanges keeps isolation |
| SessionPool.SessionsAreIsolated | src/mcp_zero/proxy/server_manager.py:81-99 | every connect on a transport is for the subject it was created for; it has a bearer exactly if a call made it and the server exchanges tokens, and then one from an exchange for that subject, audience and scopes |
| SessionPool.CallersGetTheirOwnTransport | src/mcp_zero/proxy/server_manager.py:90-99 | a caller's session is of a configured server, on a transport of that server and the caller's subject that was connected |
| SessionPool.TransportsKeepTheirKeys | src/mcp_zero/proxy/server_manager.py:91-94 | a transport keeps its server and subject for life |
| SessionPool.UnnamedKeysAreUnique | src/mcp_zero/proxy/server_manager.py:85-97 | in every run, one transport of a key no disconnect names is ever created and its connects never overlap, whatever other keys disconnects name |
| SessionCollision.DisconnectAllowsASecondTransport | src/mcp_zero/proxy/server_manager.py:101-108 | for any server and subject, a run whose one disconnect names the key and which creates a second transport of it |
| SessionCollision.UniqueIffNotNamed | src/mcp_zero/proxy/server_manager.py:85-108 | a key of a configured server is unique in all runs exactly when it is not among the keys disconnects may name |
| SessionClosing.ConnectedTransportsAreReused | src/mcp_zero/proxy/server_manager.py:90-97 | inside its lock a caller gets the pooled transport as it is if that is connected, and otherwise connects it, or a new one, with its own context and token |
| SessionClosing.DisconnectTurn | src/mcp_zero/proxy/server_manager.py:101-120 | a turn of a disconnect takes the next key's transport and lock out of the pool and nothing else, or leaves the transport it waited for disconnected |
| SessionClosing.DisconnectsTakeWhatTheyWereAskedFor | src/mcp_zero/proxy/server_manager.py:101-120 | in every run what a disconnect took and has yet to take is, in order, what it was asked for: all of it for disconnect_all whatever raises, a beginning of it for disconnect, which an error ends |
| SessionPool.SomeTaskCanMove | src/mcp_zero/proxy/server_manager.py:85-99 | in every run, disconnects included: while a caller has neither session nor error, some task can go on |
| SessionPool.StepKeepsMutex | src/mcp_zero/proxy/server_manager.py:85-99 | in every run the holders of the locks are exactly the callers inside of them |
| ServerManager.Manager.Resume | src/mcp_zero/proxy/server_manager.py:81-97 | the segments of `get_session`: an unknown server raises; the key's lock is found or made and entered; a transport is pooled if there is none and connected unless it is; isolation is kept |
| ServerManager.Manager.ConnectReturned | src/mcp_zero/proxy/server_manager.py:96-99 | the transport is connected, the lock released, its session handed out |
| ServerManager.Manager.PopNext | src/mcp_zero/proxy/server_manager.py:101-120 | one turn of a disconnect pops a transport and its lock, or finishes closing one |
| TransportOwner.StepKeeps | src/mcp_zero/transport/http.py:36-162 | the protocol invariant holds after every step of caller and owner |
| TransportOwner.OneOwnerLives | src/mcp_zero/transport/http.py:43-118 | at most one owner is live, it is the one the transport knows, and it waits on the event a clean-up sets |
| TransportOwner.SessionsAreOwned | src/mcp_zero/transport/http.py:95-108 | a session implies a live, waiting owner and a connected or disconnecting state |
| TransportOwner.NothingIsLeftBehind | src/mcp_zero/transport/http.py:119-162 | after a connect that raised or a disconnect, no owner and no session are left |
| TransportOwner.ConnectedHasSessionIffOwnerWaits | src/mcp_zero/transport/http.py:95-108 | between calls, a connected transport has a session exactly while its owner waits |
| TransportOwner.DeadOwnerStaysConnected | src/mcp_zero/transport/http.py:102-108 | a concrete run: connected, owner dead, no session |
| TransportOwner.NoDeadlock | src/mcp_zero/transport/http.py:115-162 | in the middle of any call some task can go on |
| TransportOwner.CallsEnd | src/mcp_zero/transport/http.py:36-162 | every step brings the current call nearer its end |
| HttpTransport.Transport.Connect | src/mcp_zero/transport/http.py:36-51 | returns at once if connected, else cleans up and launches an owner |
| HttpTransport.Transport.Wake | src/mcp_zero/transport/http.py:117-162 | an awaited connect returns, or cleans up and raises; an awaited clean-up goes on to launch, raise or be disconnected |
| HttpTransport.Transport.Attempted | src/mcp_zero/transport/http.py:92-108 | the owner publishes a session, or an error and no session |
| HttpTransport.Transport.OwnerMoves | src/mcp_zero/transport/http.py:99-113 | told to stop or dead, the owner clears the session and closes; it finishes whether or not its resources close cleanly |
| HttpTransport.Transport.Disconnect | src/mcp_zero/transport/http.py:139-150 | does nothing unless connected or in error, else cleans up |
| JwksCache.StepKeeps | src/mcp_zero/identity/jwks.py:32-81 | the cache invariant holds after every step of any task |
| JwksCache.ReturnedKeysAreFresh | src/mcp_zero/identity/jwks.py:32-52 | returned lists are non-empty and fetched whole; a forced caller gets its own fetch, others that or a list younger than the TTL when checked |
| JwksCache.YoungListsAreHandedOut | src/mcp_zero/identity/jwks.py:38-52 | in every run an unforced look returns the last fetched list at once exactly if it was fetched less than the TTL ago (and not at time zero) |
| JwksCache.FetchesAreStampedOnArrival | src/mcp_zero/identity/jwks.py:72-81 | a fetched list is kept and returned, stamped with the moment it arrived |
| JwksCache.LaterStepsKeep | src/mcp_zero/identity/jwks.py:58-80 | the discovered URI is write-once, and no list object, handed out or not, ever changes what it holds |
| JwksCache.StepKeepsHistory | src/mcp_zero/identity/jwks.py:54-81 | only a successful fetch changes keys or time stamp |
| JwksCache.FailuresLeaveTheCache | src/mcp_zero/identity/jwks.py:61-77 | a failed fetch or discovery leaves keys, time stamp and URI untouched and releases the lock |
| JwksCache.OneFetchAtATime | src/mcp_zero/identity/jwks.py:41-47 | at most one task discovers or fetches |
| JwksCache.SomeTaskCanMove | src/mcp_zero/identity/jwks.py:41-47 | no deadlock |
| JwksCache.Client.IsCacheValid | src/mcp_zero/identity/jwks.py:49-52 | keys present, fetched at a non-zero time, younger than the TTL |
| JwksCache.Client.Continue | src/mcp_zero/identity/jwks.py:32-47 | the look before the lock, taking it, and the look inside it |
| JwksCache.Client.StoreUri | src/mcp_zero/identity/jwks.py:58-59 | stores the discovered URI and goes on to fetch |
| JwksCache.Client.StoreKeys | src/mcp_zero/identity/jwks.py:72-81 | replaces keys and time stamp together |
| JwtValidation.DecodeWithKeys | src/mcp_zero/identity/jwt.py:57-101 | the verdict of the first key that does not fail on the signature, else the signature failure |
| JwtValidation.VerdictIsUnique | src/mcp_zero/identity/jwt.py:57-101 | a list of keys has one verdict |
| JwtValidation.SignatureFailureMeansNoKey | src/mcp_zero/identity/jwt.py:48-50 | the retry is taken exactly when no cached key decides |
| JwtValidation.RetryIsOneLongerList | src/mcp_zero/identity/jwt.py:46-55 | cached keys and then refreshed keys decide as one longer list |
| JwtValidation.ValidateToken | src/mcp_zero/identity/jwt.py:38-55 | one refresh at most, asked for exactly when needed; the result is the verdict of both lists in a row |
| JwtValidation.RetryTriesItsOwnFetch | src/mcp_zero/identity/jwt.py:44-55 | over any run of the key cache: the first list is fresh, the retry's list is the retry's own forced fetch, and the outcome is the verdict of the two in a row |
| JwtValidation.AcceptedTokensAreSigned | src/mcp_zero/identity/jwt.py:103-123 | an accepted token was decoded by a listed key; its user id is the mapped claim and not empty, email and groups are the mapped claims |
| JwtValidation.RejectionsSayWhy | src/mcp_zero/identity/jwt.py:57-101 | the reason of a rejection is what the first deciding key found |
| ProcessRestart.Process.Check | src/mcp_zero/transport/process_manager.py:105-109 | one health check takes the machine's step and keeps its bounds |
| ProcessRestart.Process.TryRestart | src/mcp_zero/transport/process_manager.py:111-151 | gives up at the limit, else sleeps the capped backoff and counts the outcome |
| ProcessRestart.FailuresAndBackoffAreBounded | src/mcp_zero/transport/process_manager.py:81-151 | failures stay within the limit, permanent failure means it was reached, and a streak, whether it goes on or ended in a reconnect, sleeps at most base * (2^max - 1) and 60 * max |
| ProcessRestart.CheckDoes | src/mcp_zero/transport/process_manager.py:105-151 | one check after any run: given up at the limit; below it one sleep, then a reconnect clears failures and backoff and counts a restart, or one more failure is counted |
| ProcessRestart.StreakSleepsExactly | src/mcp_zero/transport/process_manager.py:126-143 | in every run the backoff of the streak is the sum of min(base * 2^i, 60) over its attempts |
| ProcessRestart.ShortStreaksAreGeometric | src/mcp_zero/transport/process_manager.py:126-135 | until a sleep is cut at a minute, that sum is base * 2^to - base * 2^from |
| ProcessRestart.PermanentFailureIsAbsorbing | src/mcp_zero/transport/process_manager.py:105-107 | nothing changes after permanent failure |
| ProcessRestart.UnhealthyChecksRunOut | src/mcp_zero/transport/process_manager.py:111-151 | each unhealthy check without a reconnect uses up one unit of the measure |
| ProcessRestart.DownForGoodIsPermanent | src/mcp_zero/transport/process_manager.py:111-151 | a process that stays down is given up after exactly its measure of checks |

## Left out

- HTTP, SSE, subprocess, Redis, ASGI and MCP SDK calls: each is a step that may succeed, fail or return any value.
- Entity detection, JWT cryptography, JSON text and repository matching: an engine function, an oracle per key, `loads` and
  `dumps` functions with a stated round trip, and a predicate.
- The extraction of repository names from responses and arguments, the repository filter's tool tables, and bearer header
  parsing: taken as functions.
- StandardHooks.FilterShowsAllowedOnly: assumes that a value that was read, or a list of entries of a list that was read, is
  read back from its printed text, because the text of `json` is not modelled; NaN, for which that fails, and infinities are no
  values here.
- StandardHooks.FilteringTwiceIsFilteringOnce: assumes the same.
- StandardHooks.OnPreMasking: reason texts are shortened; that the call is denied is kept.
- The fallback of the policy engine for an exception inside rule evaluation: rule evaluation is total here.
- Start time and extras of a hook context other than the authorization header; log lines; durations in results.
- The text of exceptions, and which of the connect errors is raised: only that the connect raised.
- Claims that upstream sees masked arguments: the code forwards the original ones.
- A running latency maximum across batches: HSET overwrites, and the code says the figure is approximate.
- AnalyticsStore.CountersAreConserved: does not model the expiry of keys in Redis, nor a pipeline that fails half way.
- Heartbeats and the reconnect of the analytics client; shutdown and signal handling of the process manager.
- Cancellation of a caller inside a transport's connect or disconnect; in the two caches and the pool a task may be
  cancelled at any await.
- The SSE and stdio transports: they repeat the HTTP transport's owner protocol.
- Why a pooled transport changes its own state: it may turn connected or not between any two steps, once a connect was made
  on it.
- Fairness of locks: any waiting task may take a free lock, which covers the order asyncio uses.
- Floating-point rounding: times and delays are real numbers.
- Startup checks, configuration dataclasses, CORS and plugin discovery: finite tables and plumbing.
