/**
 The hook registry and the pipeline.

 A hook is a function of the moment it is called, so a hook may answer differently every time; all results
 below hold for every such behaviour.
 */
module HookPipeline {
  import opened Prelude
  import opened Sorting
  import opened Context

  datatype Point = PreValidation | PostValidation | PreMasking | PostMasking | PreAudit

  const SEQUENCE: seq<Point> := [PreValidation, PostValidation, PreMasking, PostMasking, PreAudit]

  /** What one hook call does: return a context, raise ShortCircuitError, or raise anything else. */
  datatype Outcome =
    | Proceed(ctx: HookContext)
    | ShortCircuit(reason: string, deny: bool)
    | Crash(message: string)

  /** The failure a pipeline run reports. */
  datatype Failure =
    | ShortCircuitError(reason: string, deny: bool)
    | HookError(message: string, hookName: string, point: Point)

  /** `run(now, point, ctx)`; `onErrorRaises(now)` says whether the error callback itself raises. */
  datatype Hook = Hook(name: string, run: (nat, Point, HookContext) -> Outcome, onErrorRaises: nat -> bool)

  // ------------------------------------------------------------------
  // Registry
  // ------------------------------------------------------------------

  datatype Entry = Entry(priority: int, order: nat, hook: Hook)

  predicate EntryLe(a: Entry, b: Entry) {
    a.priority < b.priority || (a.priority == b.priority && a.order <= b.order)
  }

  class HookRegistry {
    var entries: seq<Entry>
    var frozen: bool
    var insertCounter: nat

    /** Insertion numbers are handed out once. */
    ghost predicate Valid()
      reads this
    {
      && (forall i :: 0 <= i < |entries| ==> entries[i].order < insertCounter)
      && (forall i, j :: 0 <= i < j < |entries| ==> entries[i].order != entries[j].order)
      && (frozen ==> Sorted(EntryLe, entries))
    }

    constructor ()
      ensures Valid() && entries == [] && !frozen && insertCounter == 0
    {
      entries, frozen, insertCounter := [], false, 0;
    }

    /** Registering after build() raises and changes nothing. */
    method Register(hook: Hook, priority: int) returns (raised: bool)
      requires Valid()
      modifies this
      ensures Valid() && frozen == old(frozen) && raised == old(frozen)
      ensures raised ==> entries == old(entries) && insertCounter == old(insertCounter)
      ensures !raised ==> entries == old(entries) + [Entry(priority, old(insertCounter), hook)]
                          && insertCounter == old(insertCounter) + 1
    {
      if frozen {
        return true;
      }
      entries := entries + [Entry(priority, insertCounter, hook)];
      insertCounter := insertCounter + 1;
      return false;
    }

    /** Sorts by (priority, insertion number) and freezes. */
    method Build()
      requires Valid()
      modifies this
      ensures Valid() && frozen && insertCounter == old(insertCounter)
      ensures multiset(entries) == multiset(old(entries))
      ensures StableByPriority(entries)
      ensures old(frozen) ==> entries == old(entries)
    {
      ghost var before := entries;
      SortSortsEntries(entries);
      entries := Sort(EntryLe, entries);
      OrdersStayDistinct(before, entries, insertCounter);
      if frozen {
        OrdersStayDistinct(before, before, insertCounter);
        ScheduleOrderIsUnique(before, entries);
      }
      frozen := true;
    }

    method GetHooks() returns (r: Result<seq<Hook>, ()>)
      ensures r.Ok? == frozen
      ensures r.Ok? ==> r.value == HooksOf(entries)
    {
      if !frozen {
        return Err(());
      }
      return Ok(HooksOf(entries));
    }
  }

  function HooksOf(entries: seq<Entry>): (r: seq<Hook>)
    ensures |r| == |entries| && forall i :: 0 <= i < |r| ==> r[i] == entries[i].hook
  {
    seq(|entries|, i requires 0 <= i < |entries| => entries[i].hook)
  }

  /** Lower priority first; equal priorities in insertion order. */
  ghost predicate StableByPriority(entries: seq<Entry>) {
    forall i, j :: 0 <= i < j < |entries| ==>
      entries[i].priority < entries[j].priority
      || (entries[i].priority == entries[j].priority && entries[i].order < entries[j].order)
  }

  lemma SortSortsEntries(entries: seq<Entry>)
    ensures TotalPreorder(EntryLe)
    ensures Sorted(EntryLe, Sort(EntryLe, entries)) && multiset(Sort(EntryLe, entries)) == multiset(entries)
  {
    assert TotalPreorder(EntryLe);
    SortSorts(EntryLe, entries);
  }

  /** Distinct insertion numbers survive a permutation, so sorted entries are strictly ordered. */
  lemma OrdersStayDistinct(a: seq<Entry>, b: seq<Entry>, bound: nat)
    requires multiset(a) == multiset(b) && Sorted(EntryLe, b)
    requires forall i :: 0 <= i < |a| ==> a[i].order < bound
    requires forall i, j :: 0 <= i < j < |a| ==> a[i].order != a[j].order
    ensures forall i :: 0 <= i < |b| ==> b[i].order < bound
    ensures forall i, j :: 0 <= i < j < |b| ==> b[i].order != b[j].order
    ensures StableByPriority(b)
  {
    forall i | 0 <= i < |b| ensures b[i] in a && b[i].order < bound {
      assert b[i] in multiset(b);
    }
    forall i, j | 0 <= i < j < |b| ensures b[i].order != b[j].order {
      if b[i].order == b[j].order {
        assert b[i] in a && b[j] in a;
        assert b[i] == b[j];
        TwiceInOneTwiceInOther(a, b, i, j);
      }
    }
  }

  lemma TwiceInOneTwiceInOther(a: seq<Entry>, b: seq<Entry>, i: nat, j: nat)
    requires multiset(a) == multiset(b) && i < j < |b| && b[i] == b[j]
    ensures exists p, q :: 0 <= p < q < |a| && a[p] == a[q] == b[i]
  {
    var x := b[i];
    assert b == b[..j] + [b[j]] + b[j + 1..];
    assert b[i] in b[..j];
    assert multiset(b)[x] >= multiset(b[..j])[x] + 1 >= 2;
    var p :| 0 <= p < |a| && a[p] == x;
    assert a == a[..p] + [a[p]] + a[p + 1..];
    if x in a[..p] {
      var q :| 0 <= q < p && a[q] == x;
    } else {
      assert multiset(a)[x] == multiset(a[..p])[x] + 1 + multiset(a[p + 1..])[x];
      var q :| 0 <= q < |a[p + 1..]| && a[p + 1..][q] == x;
      assert a[p + 1 + q] == x;
    }
  }

  /** One multiset of registrations has one priority-stable order. */
  lemma ScheduleOrderIsUnique(a: seq<Entry>, b: seq<Entry>)
    requires multiset(a) == multiset(b) && StableByPriority(a) && StableByPriority(b)
    ensures a == b
  {
    assert TotalPreorder(EntryLe);
    forall x, y | x in a && y in a && EntryLe(x, y) && EntryLe(y, x) ensures x == y {
      var i :| 0 <= i < |a| && a[i] == x;
      var j :| 0 <= j < |a| && a[j] == y;
    }
    SortedFormIsUnique(EntryLe, a, b);
  }

  // ------------------------------------------------------------------
  // The schedule and its fold
  // ------------------------------------------------------------------

  datatype Step = Step(point: Point, hook: Hook)

  /** All hooks at one point, in registry order. */
  function Block(point: Point, hooks: seq<Hook>): (r: seq<Step>)
    ensures |r| == |hooks| && forall i :: 0 <= i < |r| ==> r[i] == Step(point, hooks[i])
  {
    seq(|hooks|, i requires 0 <= i < |hooks| => Step(point, hooks[i]))
  }

  /** The first `points` blocks of the schedule, point by point. */
  function Blocks(points: nat, hooks: seq<Hook>): seq<Step>
    requires points <= |SEQUENCE|
  {
    if points == 0 then [] else Blocks(points - 1, hooks) + Block(SEQUENCE[points - 1], hooks)
  }

  function Schedule(hooks: seq<Hook>): seq<Step> {
    Blocks(|SEQUENCE|, hooks)
  }

  /** How many points come before this one. */
  function Before(point: Point): (n: nat)
    ensures n < |SEQUENCE| && SEQUENCE[n] == point
  {
    match point
    case PreValidation => 0
    case PostValidation => 1
    case PreMasking => 2
    case PostMasking => 3
    case PreAudit => 4
  }

  function Call(step: Step, now: nat, ctx: HookContext): Outcome {
    step.hook.run(now, step.point, ctx)
  }

  /** Runs steps in order from `now`; None if one of them does not return a context. */
  function Fold(steps: seq<Step>, now: nat, ctx: HookContext): Option<HookContext> {
    if steps == [] then Some(ctx)
    else
      var front := steps[..|steps| - 1];
      match Fold(front, now, ctx)
      case None => None
      case Some(c) =>
        var out := Call(steps[|steps| - 1], now + |front|, c);
        if out.Proceed? then Some(out.ctx) else None
  }

  function Names(steps: seq<Step>): (r: seq<(string, Point)>)
    ensures |r| == |steps| && forall i :: 0 <= i < |r| ==> r[i] == (steps[i].hook.name, steps[i].point)
  {
    seq(|steps|, i requires 0 <= i < |steps| => (steps[i].hook.name, steps[i].point))
  }

  function FailureOf(out: Outcome, step: Step): Failure
    requires !out.Proceed?
  {
    match out
    case ShortCircuit(reason, deny) => ShortCircuitError(reason, deny)
    case Crash(message) => HookError(message, step.hook.name, step.point)
  }

  /** Step k is reached and fails this way. */
  ghost predicate FailsAt(steps: seq<Step>, now: nat, ctx: HookContext, k: nat, failure: Failure) {
    && k < |steps|
    && Fold(steps[..k], now, ctx).Some?
    && var out := Call(steps[k], now + k, Fold(steps[..k], now, ctx).value);
       !out.Proceed? && failure == FailureOf(out, steps[k])
  }

  /** A short circuit marks the context, and denies if it says so; a hook error leaves it alone. */
  function Mark(ctx: HookContext, failure: Failure): HookContext {
    match failure
    case ShortCircuitError(reason, deny) =>
      var marked := ctx.(shortCircuited := true, shortCircuitReason := reason);
      if deny then marked.(policyDecision := Denied) else marked
    case HookError(_, _, _) => ctx
  }

  /** One call of an error callback, and whether the callback itself raised. */
  datatype ErrorCall = ErrorCall(hook: Hook, ctx: HookContext, failure: Failure, raised: bool)

  datatype PipelineResult = PipelineResult(
    context: HookContext,
    success: bool,
    error: Option<Failure>,
    hooksExecuted: seq<(string, Point)>,
    errorCalls: seq<ErrorCall>)

  /** Every hook's error callback, once, in order, whichever of them raise. */
  ghost predicate AllTold(calls: seq<ErrorCall>, hooks: seq<Hook>, now: nat, ctx: HookContext, failure: Failure) {
    |calls| == |hooks|
    && forall i :: 0 <= i < |hooks| ==> calls[i] == ErrorCall(hooks[i], ctx, failure, hooks[i].onErrorRaises(now + i))
  }

  /** A run that went through: the whole schedule, folded. */
  ghost predicate RanThrough(hooks: seq<Hook>, now: nat, ctx: HookContext, r: PipelineResult) {
    && r.success && r.error.None? && r.errorCalls == []
    && r.hooksExecuted == Names(Schedule(hooks))
    && Fold(Schedule(hooks), now, ctx) == Some(r.context)
  }

  /**
   A run that stopped at step k: the schedule up to and including k was executed; the context is the fold of
   the points completed before, marked; the partial work of k's own point is discarded.
   */
  ghost predicate StoppedAt(hooks: seq<Hook>, now: nat, ctx: HookContext, k: nat, r: PipelineResult) {
    && !r.success && r.error.Some?
    && FailsAt(Schedule(hooks), now, ctx, k, r.error.value)
    && r.hooksExecuted == Names(Schedule(hooks)[..k + 1])
    && (var completed := Fold(Blocks(Before(Schedule(hooks)[k].point), hooks), now, ctx);
        completed.Some? && r.context == Mark(completed.value, r.error.value))
    && AllTold(r.errorCalls, hooks, now, r.context, r.error.value)
  }

  ghost predicate Describes(hooks: seq<Hook>, now: nat, ctx: HookContext, r: PipelineResult) {
    RanThrough(hooks, now, ctx, r) || exists k: nat :: StoppedAt(hooks, now, ctx, k, r)
  }

  // ------------------------------------------------------------------
  // Folds over concatenated schedules
  // ------------------------------------------------------------------

  lemma FoldOneMore(steps: seq<Step>, now: nat, ctx: HookContext, step: Step)
    requires Fold(steps, now, ctx).Some?
    ensures var out := Call(step, now + |steps|, Fold(steps, now, ctx).value);
            Fold(steps + [step], now, ctx) == if out.Proceed? then Some(out.ctx) else None
  {
    assert (steps + [step])[..|steps|] == steps;
  }

  lemma {:induction false} FoldConcat(a: seq<Step>, b: seq<Step>, now: nat, ctx: HookContext)
    ensures Fold(a + b, now, ctx)
         == match Fold(a, now, ctx) case None => None case Some(c) => Fold(b, now + |a|, c)
    decreases |b|
  {
    if b == [] {
      assert a + b == a;
    } else {
      var front := b[..|b| - 1];
      FoldConcat(a, front, now, ctx);
      assert (a + b)[..|a + b| - 1] == a + front;
    }
  }

  /** A fold that goes through goes through each of its steps. */
  lemma {:induction false} FoldPrefixes(steps: seq<Step>, k: nat, now: nat, ctx: HookContext)
    requires k < |steps| && Fold(steps, now, ctx).Some?
    ensures Fold(steps[..k], now, ctx).Some?
    ensures Call(steps[k], now + k, Fold(steps[..k], now, ctx).value).Proceed?
    decreases |steps|
  {
    var front := steps[..|steps| - 1];
    if k < |front| {
      FoldPrefixes(front, k, now, ctx);
      assert front[..k] == steps[..k];
    }
  }

  lemma Around<T>(base: seq<T>, block: seq<T>, rest: seq<T>, at: nat)
    requires at < |block|
    ensures var all := base + block + rest;
            && all[..|base| + at] == base + block[..at] && all[..|base| + at + 1] == base + block[..at + 1]
            && all[|base| + at] == block[at]
  {
  }

  /** A failure inside a block is a failure of the schedule around it. */
  lemma FailureShifts(base: seq<Step>, block: seq<Step>, rest: seq<Step>, now: nat, ctx: HookContext,
                      c: HookContext, at: nat, failure: Failure)
    requires Fold(base, now, ctx) == Some(c)
    requires FailsAt(block, now + |base|, c, at, failure)
    ensures FailsAt(base + block + rest, now, ctx, |base| + at, failure)
    ensures Names((base + block + rest)[..|base| + at + 1]) == Names(base) + Names(block[..at + 1])
    ensures (base + block + rest)[|base| + at] == block[at]
  {
    Around(base, block, rest, at);
    FoldConcat(base, block[..at], now, ctx);
    NamesConcat(base, block[..at + 1]);
  }

  lemma {:induction false} BlocksArePrefixes(points: nat, more: nat, hooks: seq<Hook>)
    requires points <= more <= |SEQUENCE|
    ensures Blocks(points, hooks) <= Blocks(more, hooks)
    decreases more
  {
    if points < more {
      BlocksArePrefixes(points, more - 1, hooks);
    }
  }

  lemma BeforePoint(p: nat)
    requires p < |SEQUENCE|
    ensures Before(SEQUENCE[p]) == p
  {
    assert SEQUENCE[0] == PreValidation && SEQUENCE[1] == PostValidation && SEQUENCE[2] == PreMasking
           && SEQUENCE[3] == PostMasking && SEQUENCE[4] == PreAudit;
  }

  // ------------------------------------------------------------------
  // The pipeline
  // ------------------------------------------------------------------

  method FireErrorHooks(hooks: seq<Hook>, now: nat, ctx: HookContext, failure: Failure) returns (calls: seq<ErrorCall>)
    ensures AllTold(calls, hooks, now, ctx, failure)
  {
    calls := [];
    for i := 0 to |hooks|
      invariant |calls| == i
      invariant forall j :: 0 <= j < i ==> calls[j] == ErrorCall(hooks[j], ctx, failure, hooks[j].onErrorRaises(now + j))
    {
      var raised := hooks[i].onErrorRaises(now + i);
      calls := calls + [ErrorCall(hooks[i], ctx, failure, raised)];
    }
  }

  /** The first `i` hooks of a point have run. */
  ghost predicate PartRun(block: seq<Step>, now: nat, ctx: HookContext, executed: seq<(string, Point)>, i: nat,
                          c: HookContext, log: seq<(string, Point)>)
  {
    i <= |block| && log == executed + Names(block[..i]) && Fold(block[..i], now, ctx) == Some(c)
  }

  lemma NextHook(block: seq<Step>, now: nat, ctx: HookContext, executed: seq<(string, Point)>, i: nat, c: HookContext,
                 log: seq<(string, Point)>)
    requires PartRun(block, now, ctx, executed, i, c, log) && i < |block|
    ensures var out := Call(block[i], now + i, c);
            var longer := log + [(block[i].hook.name, block[i].point)];
            && longer == executed + Names(block[..i + 1])
            && (if out.Proceed? then PartRun(block, now, ctx, executed, i + 1, out.ctx, longer)
                else FailsAt(block, now, ctx, i, FailureOf(out, block[i])))
  {
    assert block[..i + 1] == block[..i] + [block[i]];
    FoldOneMore(block[..i], now, ctx, block[i]);
    NamesConcat(block[..i], [block[i]]);
  }

  /** Runs one point; on failure `at` is the position of the failing hook. */
  method ExecuteHookPoint(hooks: seq<Hook>, point: Point, now: nat, ctx: HookContext, executed: seq<(string, Point)>)
    returns (r: Result<HookContext, Failure>, log: seq<(string, Point)>, ghost at: nat)
    ensures r.Ok? ==> Fold(Block(point, hooks), now, ctx) == Some(r.value)
                      && log == executed + Names(Block(point, hooks))
    ensures r.Err? ==> FailsAt(Block(point, hooks), now, ctx, at, r.error)
                       && log == executed + Names(Block(point, hooks)[..at + 1])
  {
    var c := ctx;
    ghost var block := Block(point, hooks);
    log := executed;
    var i := 0;
    while i < |hooks|
      invariant PartRun(block, now, ctx, executed, i, c, log)
    {
      NextHook(block, now, ctx, executed, i, c, log);
      var out := hooks[i].run(now + i, point, c);
      log := log + [(hooks[i].name, point)];
      if out.ShortCircuit? {
        return Err(ShortCircuitError(out.reason, out.deny)), log, i;
      }
      if out.Crash? {
        return Err(HookError(out.message, hooks[i].name, point)), log, i;
      }
      c := out.ctx;
      i := i + 1;
    }
    assert block[..i] == block;
    return Ok(c), log, 0;
  }

  /** The first `p` points have completed. */
  ghost predicate PointsRun(hooks: seq<Hook>, p: nat, now: nat, ctx: HookContext, c: HookContext, executed: seq<(string, Point)>) {
    p <= |SEQUENCE| && Fold(Blocks(p, hooks), now, ctx) == Some(c) && executed == Names(Blocks(p, hooks))
  }

  method Execute(hooks: seq<Hook>, now: nat, ctx: HookContext) returns (r: PipelineResult)
    ensures Describes(hooks, now, ctx, r)
  {
    var c := ctx;
    var executed: seq<(string, Point)> := [];
    var p := 0;
    while p < |SEQUENCE|
      invariant PointsRun(hooks, p, now, ctx, c, executed)
    {
      var out, log, at := ExecuteHookPoint(hooks, SEQUENCE[p], now + |executed|, c, executed);
      if out.Err? {
        var marked := Mark(c, out.error);
        var calls := FireErrorHooks(hooks, now, marked, out.error);
        r := PipelineResult(marked, false, Some(out.error), log, calls);
        PointFailed(hooks, p, now, ctx, c, at, executed, r);
        return;
      }
      PointPassed(hooks, p, now, ctx, c, out.value, executed);
      executed := log;
      c := out.value;
      p := p + 1;
    }
    r := PipelineResult(c, true, None, executed, []);
    AllPointsRun(hooks, p, now, ctx, r);
  }

  lemma AllPointsRun(hooks: seq<Hook>, p: nat, now: nat, ctx: HookContext, r: PipelineResult)
    requires p == |SEQUENCE| && PointsRun(hooks, p, now, ctx, r.context, r.hooksExecuted)
    requires r.success && r.error.None? && r.errorCalls == []
    ensures Describes(hooks, now, ctx, r)
  {
    assert RanThrough(hooks, now, ctx, r);
  }

  lemma NamesConcat(a: seq<Step>, b: seq<Step>)
    ensures Names(a + b) == Names(a) + Names(b)
  {
  }

  lemma PointPassed(hooks: seq<Hook>, p: nat, now: nat, ctx: HookContext, c: HookContext, next: HookContext,
                    executed: seq<(string, Point)>)
    requires p < |SEQUENCE| && PointsRun(hooks, p, now, ctx, c, executed)
    requires Fold(Block(SEQUENCE[p], hooks), now + |executed|, c) == Some(next)
    ensures PointsRun(hooks, p + 1, now, ctx, next, executed + Names(Block(SEQUENCE[p], hooks)))
  {
    NextBlock(hooks, p);
    FoldConcat(Blocks(p, hooks), Block(SEQUENCE[p], hooks), now, ctx);
    NamesConcat(Blocks(p, hooks), Block(SEQUENCE[p], hooks));
  }

  lemma NextBlock(hooks: seq<Hook>, p: nat)
    requires p < |SEQUENCE|
    ensures Blocks(p + 1, hooks) == Blocks(p, hooks) + Block(SEQUENCE[p], hooks)
  {
  }

  lemma PointFailed(hooks: seq<Hook>, p: nat, now: nat, ctx: HookContext, c: HookContext, at: nat,
                    executed: seq<(string, Point)>, r: PipelineResult)
    requires p < |SEQUENCE| && PointsRun(hooks, p, now, ctx, c, executed)
    requires !r.success && r.error.Some?
    requires FailsAt(Block(SEQUENCE[p], hooks), now + |executed|, c, at, r.error.value)
    requires r.hooksExecuted == executed + Names(Block(SEQUENCE[p], hooks)[..at + 1])
    requires r.context == Mark(c, r.error.value)
    requires AllTold(r.errorCalls, hooks, now, r.context, r.error.value)
    ensures Describes(hooks, now, ctx, r)
  {
    var base, block := Blocks(p, hooks), Block(SEQUENCE[p], hooks);
    var all, rest := ScheduleSplits(hooks, p);
    FailureShifts(base, block, rest, now, ctx, c, at, r.error.value);
    BeforePoint(p);
    StopIsDescribed(hooks, all, p, now, ctx, |base| + at, c, r);
  }

  lemma StopIsDescribed(hooks: seq<Hook>, all: seq<Step>, p: nat, now: nat, ctx: HookContext, k: nat, c: HookContext,
                        r: PipelineResult)
    requires all == Schedule(hooks) && !r.success && r.error.Some?
    requires FailsAt(all, now, ctx, k, r.error.value) && r.hooksExecuted == Names(all[..k + 1])
    requires p == Before(all[k].point) && Fold(Blocks(p, hooks), now, ctx) == Some(c) && r.context == Mark(c, r.error.value)
    requires AllTold(r.errorCalls, hooks, now, r.context, r.error.value)
    ensures Describes(hooks, now, ctx, r)
  {
    assert StoppedAt(hooks, now, ctx, k, r);
  }

  lemma ScheduleSplits(hooks: seq<Hook>, p: nat) returns (all: seq<Step>, rest: seq<Step>)
    requires p < |SEQUENCE|
    ensures all == Schedule(hooks) && all == Blocks(p, hooks) + Block(SEQUENCE[p], hooks) + rest
  {
    var front := Blocks(p, hooks) + Block(SEQUENCE[p], hooks);
    all := Schedule(hooks);
    BlocksArePrefixes(p + 1, |SEQUENCE|, hooks);
    NextBlock(hooks, p);
    rest := all[|front|..];
    assert all == front + rest;
  }

  // ------------------------------------------------------------------
  // What the description says
  // ------------------------------------------------------------------

  lemma FailuresCoincide(steps: seq<Step>, now: nat, ctx: HookContext, k: nat, f: Failure, l: nat, g: Failure)
    requires FailsAt(steps, now, ctx, k, f) && FailsAt(steps, now, ctx, l, g)
    ensures k == l && f == g
  {
    if k < l {
      assert steps[..l][..k] == steps[..k];
      FoldPrefixes(steps[..l], k, now, ctx);
    } else if l < k {
      assert steps[..k][..l] == steps[..l];
      FoldPrefixes(steps[..k], l, now, ctx);
    }
  }

  /** Hooks and context determine the result: the description leaves no freedom. */
  lemma RunIsDetermined(hooks: seq<Hook>, now: nat, ctx: HookContext, r: PipelineResult, s: PipelineResult)
    requires Describes(hooks, now, ctx, r) && Describes(hooks, now, ctx, s)
    ensures r == s
  {
    var all := Schedule(hooks);
    if !r.success {
      var k: nat :| StoppedAt(hooks, now, ctx, k, r);
      if s.success {
        FoldPrefixes(all, k, now, ctx);
      } else {
        var l: nat :| StoppedAt(hooks, now, ctx, l, s);
        FailuresCoincide(all, now, ctx, k, r.error.value, l, s.error.value);
        assert r.errorCalls == s.errorCalls;
      }
    } else if !s.success {
      var l: nat :| StoppedAt(hooks, now, ctx, l, s);
      FoldPrefixes(all, l, now, ctx);
    }
  }

  /** A block goes through, or some step of it is reached and fails. */
  lemma {:induction false} BlockEnds(block: seq<Step>, now: nat, ctx: HookContext) returns (at: nat, failure: Failure)
    ensures Fold(block, now, ctx).None? ==> FailsAt(block, now, ctx, at, failure)
    decreases |block|
  {
    at, failure := 0, HookError("", "", PreAudit);
    if block == [] {
    } else {
      var n := |block| - 1;
      if Fold(block[..n], now, ctx).None? {
        at, failure := BlockEnds(block[..n], now, ctx);
        assert block[..n][..at] == block[..at];
      } else {
        var out := Call(block[n], now + n, Fold(block[..n], now, ctx).value);
        if !out.Proceed? {
          at, failure := n, FailureOf(out, block[n]);
        }
      }
    }
  }

  lemma {:induction false} PointsEnd(hooks: seq<Hook>, p: nat, now: nat, ctx: HookContext, c: HookContext,
                                     executed: seq<(string, Point)>) returns (r: PipelineResult)
    requires PointsRun(hooks, p, now, ctx, c, executed)
    ensures Describes(hooks, now, ctx, r)
    decreases |SEQUENCE| - p
  {
    if p == |SEQUENCE| {
      r := PipelineResult(c, true, None, executed, []);
      AllPointsRun(hooks, p, now, ctx, r);
    } else {
      var block := Block(SEQUENCE[p], hooks);
      var at, failure := BlockEnds(block, now + |executed|, c);
      match Fold(block, now + |executed|, c)
      case Some(next) =>
        PointPassed(hooks, p, now, ctx, c, next, executed);
        r := PointsEnd(hooks, p + 1, now, ctx, next, executed + Names(block));
      case None =>
        var marked := Mark(c, failure);
        var calls := seq(|hooks|, i requires 0 <= i < |hooks| =>
                           ErrorCall(hooks[i], marked, failure, hooks[i].onErrorRaises(now + i)));
        r := PipelineResult(marked, false, Some(failure), executed + Names(block[..at + 1]), calls);
        PointFailed(hooks, p, now, ctx, c, at, executed, r);
    }
  }

  /** Every run has a result, so with the previous lemma exactly one. */
  lemma EveryRunIsDescribed(hooks: seq<Hook>, now: nat, ctx: HookContext) returns (r: PipelineResult)
    ensures Describes(hooks, now, ctx, r)
  {
    r := PointsEnd(hooks, 0, now, ctx, ctx, []);
  }

  /**
   Step `k` of the schedule was reached with context `c` and ended this way; `done` is the fold of the points before
   its own.
   */
  ghost predicate StoppedBy(hooks: seq<Hook>, now: nat, ctx: HookContext, k: nat, c: HookContext, done: HookContext, out: Outcome) {
    && k < |Schedule(hooks)| && Fold(Schedule(hooks)[..k], now, ctx) == Some(c)
    && Fold(Blocks(Before(Schedule(hooks)[k].point), hooks), now, ctx) == Some(done)
    && out == Schedule(hooks)[k].hook.run(now + k, Schedule(hooks)[k].point, c)
  }

  /**
   What a run that fails makes of the hook that failed. A short circuit is reported as it was raised; it marks the context
   of the completed points with its reason, and denies if and only if it says so. Any other exception is reported with the
   hook's name and point and leaves that context as it is.
   */
  lemma FailedRunsSayHow(hooks: seq<Hook>, now: nat, ctx: HookContext, r: PipelineResult)
    requires Describes(hooks, now, ctx, r) && !r.success
    ensures exists k: nat, c: HookContext, done: HookContext, out: Outcome ::
              && StoppedBy(hooks, now, ctx, k, c, done, out)
              && match out {
                case Proceed(_) => false
                case ShortCircuit(reason, deny) =>
                  && r.error == Some(ShortCircuitError(reason, deny))
                  && r.context == done.(shortCircuited := true, shortCircuitReason := reason,
                                        policyDecision := if deny then Denied else done.policyDecision)
                case Crash(message) =>
                  && r.error == Some(HookError(message, Schedule(hooks)[k].hook.name, Schedule(hooks)[k].point))
                  && r.context == done
              }
  {
    var k: nat :| StoppedAt(hooks, now, ctx, k, r);
    var step := Schedule(hooks)[k];
    var c, done := Fold(Schedule(hooks)[..k], now, ctx).value, Fold(Blocks(Before(step.point), hooks), now, ctx).value;
    assert StoppedBy(hooks, now, ctx, k, c, done, step.hook.run(now + k, step.point, c));
  }

  /** A failure at some point, all points before it passed, is a failure of the schedule. */
  lemma PointFails(hooks: seq<Hook>, p: nat, now: nat, ctx: HookContext, c: HookContext, at: nat, failure: Failure)
    requires p < |SEQUENCE| && Fold(Blocks(p, hooks), now, ctx) == Some(c)
    requires FailsAt(Block(SEQUENCE[p], hooks), now + |Blocks(p, hooks)|, c, at, failure)
    ensures FailsAt(Schedule(hooks), now, ctx, |Blocks(p, hooks)| + at, failure)
  {
    var all, rest := ScheduleSplits(hooks, p);
    FailureShifts(Blocks(p, hooks), Block(SEQUENCE[p], hooks), rest, now, ctx, c, at, failure);
    SameFailure(all, Schedule(hooks), now, ctx, |Blocks(p, hooks)| + at, failure);
  }

  lemma SameFailure(a: seq<Step>, b: seq<Step>, now: nat, ctx: HookContext, k: nat, failure: Failure)
    requires a == b && FailsAt(a, now, ctx, k, failure)
    ensures FailsAt(b, now, ctx, k, failure)
  {
  }

  /** A step that is reached and fails is what the run reports. */
  lemma FailureIsReported(hooks: seq<Hook>, now: nat, ctx: HookContext, k: nat, failure: Failure, r: PipelineResult)
    requires Describes(hooks, now, ctx, r) && FailsAt(Schedule(hooks), now, ctx, k, failure)
    ensures !r.success && r.error == Some(failure)
    ensures failure.ShortCircuitError? && failure.deny ==>
              r.context.policyDecision == Denied && r.context.shortCircuitReason == failure.reason
  {
    if r.success {
      FoldPrefixes(Schedule(hooks), k, now, ctx);
    } else {
      var l: nat :| StoppedAt(hooks, now, ctx, l, r);
      FailuresCoincide(Schedule(hooks), now, ctx, k, failure, l, r.error.value);
    }
  }

  /** The executed hooks are a prefix of the schedule: all of it on success, ending at the failing hook otherwise. */
  lemma ExecutedIsPrefix(hooks: seq<Hook>, now: nat, ctx: HookContext, r: PipelineResult)
    requires Describes(hooks, now, ctx, r)
    ensures r.hooksExecuted <= Names(Schedule(hooks))
    ensures r.success ==> r.hooksExecuted == Names(Schedule(hooks)) && r.errorCalls == []
    ensures !r.success ==> r.hooksExecuted != [] && r.error.Some?
                           && FailsAt(Schedule(hooks), now, ctx, |r.hooksExecuted| - 1, r.error.value)
                           && AllTold(r.errorCalls, hooks, now, r.context, r.error.value)
  {
    if !r.success {
      var k: nat :| StoppedAt(hooks, now, ctx, k, r);
      assert |r.hooksExecuted| == k + 1;
    }
  }

  lemma StopsAtTheEndIff(steps: seq<Step>, now: nat, ctx: HookContext, k: nat, failure: Failure)
    requires FailsAt(steps, now, ctx, k, failure)
    ensures Names(steps[..k + 1]) == Names(steps) <==> FailsAt(steps, now, ctx, |steps| - 1, failure)
  {
    assert |Names(steps[..k + 1])| == k + 1 && |Names(steps)| == |steps|;
    if FailsAt(steps, now, ctx, |steps| - 1, failure) {
      FailuresCoincide(steps, now, ctx, k, failure, |steps| - 1, failure);
      assert steps[..k + 1] == steps;
    }
  }

  /**
   "The whole schedule was executed iff the run succeeded" holds of every run but one kind: the failing hook is the
   very last of the schedule.
   */
  lemma AllExecutedIffDoneOrLastFails(hooks: seq<Hook>, now: nat, ctx: HookContext, r: PipelineResult)
    requires Describes(hooks, now, ctx, r)
    ensures r.hooksExecuted == Names(Schedule(hooks))
       <==> r.success || (r.error.Some? && Schedule(hooks) != []
                          && FailsAt(Schedule(hooks), now, ctx, |Schedule(hooks)| - 1, r.error.value))
  {
    if !r.success {
      var k: nat :| StoppedAt(hooks, now, ctx, k, r);
      StopsAtTheEndIff(Schedule(hooks), now, ctx, k, r.error.value);
    }
  }

  /** A hook that fails only at the audit point. */
  function AuditCrasher(): Hook {
    Hook("audit", (n: nat, p: Point, c: HookContext) => if p.PreAudit? then Crash("down") else Proceed(c), (n: nat) => false)
  }

  lemma CrasherPasses(steps: seq<Step>, point: Point, hooks: seq<Hook>, ctx: HookContext)
    requires hooks == [AuditCrasher()] && !point.PreAudit? && Fold(steps, 0, ctx) == Some(ctx)
    ensures Fold(steps + Block(point, hooks), 0, ctx) == Some(ctx)
  {
    assert Block(point, hooks) == [Step(point, hooks[0])];
    FoldOneMore(steps, 0, ctx, Step(point, hooks[0]));
  }

  lemma CrasherReachesAudit(hooks: seq<Hook>, ctx: HookContext)
    requires hooks == [AuditCrasher()]
    ensures |Blocks(4, hooks)| == 4 && Fold(Blocks(4, hooks), 0, ctx) == Some(ctx)
  {
    var a := [] + Block(PreValidation, hooks);
    var b := a + Block(PostValidation, hooks);
    var c := b + Block(PreMasking, hooks);
    CrasherPasses([], PreValidation, hooks, ctx);
    CrasherPasses(a, PostValidation, hooks, ctx);
    CrasherPasses(b, PreMasking, hooks, ctx);
    CrasherPasses(c, PostMasking, hooks, ctx);
    assert Blocks(1, hooks) == a && Blocks(2, hooks) == b && Blocks(3, hooks) == c;
    assert Blocks(4, hooks) == c + Block(PostMasking, hooks);
  }

  lemma LastStepFails(steps: seq<Step>, front: seq<Step>, ctx: HookContext)
    requires Fold(front, 0, ctx) == Some(ctx) && steps == front + [Step(PreAudit, AuditCrasher())]
    ensures FailsAt(steps, 0, ctx, |front|, HookError("down", "audit", PreAudit)) && steps[..|front| + 1] == steps
  {
    assert steps[..|front|] == front;
  }

  /** With it as the only hook, everything is executed and the run does not succeed. */
  lemma LastHookFailsAfterAllExecuted(hooks: seq<Hook>, ctx: HookContext)
    requires hooks == [AuditCrasher()]
    ensures var failure := HookError("down", "audit", PreAudit);
            Describes(hooks, 0, ctx, PipelineResult(ctx, false, Some(failure), Names(Schedule(hooks)),
                                                    [ErrorCall(hooks[0], ctx, failure, false)]))
  {
    var failure := HookError("down", "audit", PreAudit);
    var front := Blocks(4, hooks);
    CrasherReachesAudit(hooks, ctx);
    assert Block(PreAudit, hooks) == [Step(PreAudit, hooks[0])];
    assert Schedule(hooks) == front + Block(SEQUENCE[4], hooks);
    LastStepFails(Schedule(hooks), front, ctx);
    assert Before(PreAudit) == 4;
    assert StoppedAt(hooks, 0, ctx, 4, PipelineResult(ctx, false, Some(failure), Names(Schedule(hooks)),
                                                      [ErrorCall(hooks[0], ctx, failure, false)]));
  }
}
