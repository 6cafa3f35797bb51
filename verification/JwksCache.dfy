/**
 The signing-key cache: any number of tasks, one lock, forced and ordinary requests, arbitrary interleaving. Discovery
 and fetch may fail at any point, as may any task that waits.
 */
module JwksCache {
  import opened Prelude

  /** A signing key, known only by name. */
  type Key = string
  type TaskId = nat

  /** A list object; what it holds is its entry in the heap of lists. */
  type ListId = nat

  /** A key list that was fetched: by whom and when. */
  datatype Fetch = Fetch(list: ListId, at: real, task: TaskId)

  datatype Pc =
    | Start
    | WantLock
    | HasLock
    | Discovering
    | Fetching
    | Returned(list: ListId, at: real)
    | Raised

  datatype Task = Task(force: bool, pc: Pc)
  {
    predicate Inside() { pc.HasLock? || pc.Discovering? || pc.Fetching? }
    predicate Live() { !pc.Returned? && !pc.Raised? }
  }

  datatype State = State(
    now: real,
    uri: Option<string>,
    keys: ListId,
    lastFetch: real,
    holder: Option<TaskId>,
    tasks: seq<Task>,
    lists: seq<seq<Key>>,
    fetches: seq<Fetch>)
  {
    predicate CacheValid(ttl: int) {
      keys < |lists| && lists[keys] != [] && lastFetch != 0.0 && now - lastFetch < ttl as real
    }

    function At(t: TaskId, pc: Pc): seq<Task>
      requires t < |tasks|
    {
      tasks[t := tasks[t].(pc := pc)]
    }
  }

  /** A new client holds one empty list; the monotonic clock may show anything. */
  function Initial(clock: real): State {
    State(clock, None, 0, 0.0, None, [], [[]], [])
  }

  datatype Step =
    | Tick(elapsed: real)
    | Arrive(force: bool)
    | Resume(t: TaskId)
    | Discovered(t: TaskId, uri: string)
    | Fetched(t: TaskId, keys: seq<Key>)
    | Raise(t: TaskId)

  predicate Enabled(s: State, step: Step) {
    match step
    case Tick(elapsed) => elapsed >= 0.0
    case Arrive(_) => true
    case Resume(t) =>
      t < |s.tasks| && (s.tasks[t].pc.Start? || (s.tasks[t].pc.WantLock? && s.holder.None?) || s.tasks[t].pc.HasLock?)
    case Discovered(t, uri) => t < |s.tasks| && s.tasks[t].pc.Discovering? && uri != ""
    case Fetched(t, keys) => t < |s.tasks| && s.tasks[t].pc.Fetching? && keys != []
    case Raise(t) => t < |s.tasks| && s.tasks[t].Live()
  }

  function Resumed(s: State, ttl: int, t: TaskId): State
    requires Enabled(s, Resume(t))
  {
    var hit := !s.tasks[t].force && s.CacheValid(ttl);
    match s.tasks[t].pc
    case Start => s.(tasks := s.At(t, if hit then Returned(s.keys, s.now) else WantLock))
    case WantLock => s.(holder := Some(t), tasks := s.At(t, HasLock))
    case HasLock =>
      if hit then s.(holder := None, tasks := s.At(t, Returned(s.keys, s.now)))
      else s.(tasks := s.At(t, if s.uri.None? then Discovering else Fetching))
    case _ => s
  }

  function Do(s: State, ttl: int, step: Step): State
    requires Enabled(s, step)
  {
    match step
    case Tick(elapsed) => s.(now := s.now + elapsed)
    case Arrive(force) => s.(tasks := s.tasks + [Task(force, Start)])
    case Resume(t) => Resumed(s, ttl, t)
    case Discovered(t, uri) => s.(uri := Some(uri), tasks := s.At(t, Fetching))
    case Fetched(t, keys) =>
      var list := |s.lists|;
      s.(keys := list, lastFetch := s.now, holder := None, tasks := s.At(t, Returned(list, s.now)),
         lists := s.lists + [keys], fetches := s.fetches + [Fetch(list, s.now, t)])
    case Raise(t) =>
      s.(holder := if s.tasks[t].Inside() then None else s.holder, tasks := s.At(t, Raised))
  }

  // ------------------------------------------------------------------
  // The invariant
  // ------------------------------------------------------------------

  /** The list was just fetched by the task, or the task was not forced and the list younger than the TTL when checked. */
  predicate Justifies(fetches: seq<Fetch>, i: nat, ttl: int, t: TaskId, force: bool, list: ListId, at: real) {
    && i < |fetches| && fetches[i].list == list
    && (if fetches[i].task == t then fetches[i].at <= at else !force && fetches[i].at != 0.0 && 0.0 <= at - fetches[i].at < ttl as real)
  }

  ghost predicate TaskOk(s: State, ttl: int, t: TaskId)
    requires t < |s.tasks|
  {
    var task := s.tasks[t];
    && (task.Inside() ==> s.holder == Some(t))
    && (task.pc.Discovering? ==> s.uri.None?)
    && (task.pc.Fetching? ==> s.uri.Some?)
    && (task.pc.Returned? ==> exists i: nat :: Justifies(s.fetches, i, ttl, t, task.force, task.pc.list, task.pc.at))
  }

  /** The cache is exactly the last successful fetch. */
  predicate CacheOk(s: State) {
    s.keys < |s.lists|
    && if s.fetches == [] then s.lists[s.keys] == [] && s.lastFetch == 0.0
       else
         var last := s.fetches[|s.fetches| - 1];
         s.keys == last.list && s.lastFetch == last.at && last.at <= s.now
  }

  ghost predicate Inv(s: State, ttl: int) {
    && CacheOk(s)
    && (s.holder.Some? ==> s.holder.value < |s.tasks| && s.tasks[s.holder.value].Inside())
    && (forall t: TaskId :: t < |s.tasks| ==> TaskOk(s, ttl, t))
    && (forall i: nat :: i < |s.fetches| ==> FetchOk(s, i))
  }

  predicate FetchOk(s: State, i: nat)
    requires i < |s.fetches|
  {
    s.fetches[i].list < |s.lists| && s.lists[s.fetches[i].list] != []
    && s.fetches[i].task < |s.tasks| && s.tasks[s.fetches[i].task].pc.Returned?
  }

  lemma JustifiedStays(s: State, s': State, ttl: int, t: TaskId)
    requires t < |s.tasks| && TaskOk(s, ttl, t) && s.tasks[t].pc.Returned?
    requires |s'.fetches| >= |s.fetches| && s'.fetches[..|s.fetches|] == s.fetches
    ensures exists i: nat :: Justifies(s'.fetches, i, ttl, t, s.tasks[t].force, s.tasks[t].pc.list, s.tasks[t].pc.at)
  {
    var task := s.tasks[t];
    var i: nat :| Justifies(s.fetches, i, ttl, t, task.force, task.pc.list, task.pc.at);
    assert s'.fetches[i] == s'.fetches[..|s.fetches|][i];
    assert Justifies(s'.fetches, i, ttl, t, task.force, task.pc.list, task.pc.at);
  }

  lemma HitIsJustified(s: State, ttl: int, t: TaskId)
    requires Inv(s, ttl) && t < |s.tasks| && s.tasks[t].Live() && !s.tasks[t].force && s.CacheValid(ttl)
    ensures exists i: nat :: Justifies(s.fetches, i, ttl, t, false, s.keys, s.now)
  {
    assert Justifies(s.fetches, |s.fetches| - 1, ttl, t, false, s.keys, s.now);
  }

  lemma StepKeeps(s: State, ttl: int, step: Step)
    requires Inv(s, ttl) && Enabled(s, step)
    ensures Inv(Do(s, ttl, step), ttl)
  {
    var s' := Do(s, ttl, step);
    assert s'.fetches[..|s.fetches|] == s.fetches;
    if step.Resume? || step.Discovered? || step.Fetched? || step.Raise? {
      assert TaskOk(s, ttl, step.t);
    }
    forall i: nat | i < |s'.fetches| ensures FetchOk(s', i) {
      if i < |s.fetches| {
        assert FetchOk(s, i) && s'.fetches[i] == s.fetches[i];
      }
    }
    forall t: TaskId | t < |s'.tasks| ensures TaskOk(s', ttl, t) {
      if t < |s.tasks| {
        assert TaskOk(s, ttl, t);
        if s.tasks[t].pc.Returned? {
          JustifiedStays(s, s', ttl, t);
        } else if step.Fetched? && step.t == t {
          assert Justifies(s'.fetches, |s.fetches|, ttl, t, s.tasks[t].force, |s.lists|, s.now);
        } else if step.Resume? && step.t == t && s'.tasks[t].pc.Returned? {
          HitIsJustified(s, ttl, t);
        }
      }
    }
  }

  // ------------------------------------------------------------------
  // Every run
  // ------------------------------------------------------------------

  function Run(clock: real, ttl: int, steps: seq<Step>): Option<State> {
    if steps == [] then Some(Initial(clock))
    else
      var before, last := Run(clock, ttl, steps[..|steps| - 1]), steps[|steps| - 1];
      if before.Some? && Enabled(before.value, last) then Some(Do(before.value, ttl, last)) else None
  }

  lemma {:induction false} RunsKeep(clock: real, ttl: int, steps: seq<Step>)
    requires Run(clock, ttl, steps).Some?
    ensures Inv(Run(clock, ttl, steps).value, ttl)
  {
    if steps == [] {
    } else {
      RunsKeep(clock, ttl, steps[..|steps| - 1]);
      StepKeeps(Run(clock, ttl, steps[..|steps| - 1]).value, ttl, steps[|steps| - 1]);
    }
  }

  /**
   A returned list is not empty and is one that was fetched, whole; a forced caller gets the list it fetched itself,
   any other one that list or one younger than the TTL when it looked.
   */
  lemma ReturnedKeysAreFresh(clock: real, ttl: int, steps: seq<Step>, t: TaskId)
    requires Run(clock, ttl, steps).Some?
    requires var s := Run(clock, ttl, steps).value; t < |s.tasks| && s.tasks[t].pc.Returned?
    ensures var s := Run(clock, ttl, steps).value;
            var pc := s.tasks[t].pc;
            && pc.list < |s.lists| && s.lists[pc.list] != []
            && exists i: nat :: i < |s.fetches| && s.fetches[i].list == pc.list
                 && (s.fetches[i].task == t || (!s.tasks[t].force && 0.0 <= pc.at - s.fetches[i].at < ttl as real))
  {
    RunsKeep(clock, ttl, steps);
    var s := Run(clock, ttl, steps).value;
    assert TaskOk(s, ttl, t);
    var i: nat :| Justifies(s.fetches, i, ttl, t, s.tasks[t].force, s.tasks[t].pc.list, s.tasks[t].pc.at);
    assert FetchOk(s, i);
  }

  /** The clock of a run: where it started, and the time its ticks add up to. */
  function Elapsed(clock: real, steps: seq<Step>): real {
    if steps == [] then clock
    else Elapsed(clock, steps[..|steps| - 1]) + (if steps[|steps| - 1].Tick? then steps[|steps| - 1].elapsed else 0.0)
  }

  lemma {:induction false} ClockIsElapsed(clock: real, ttl: int, steps: seq<Step>)
    requires Run(clock, ttl, steps).Some?
    ensures Run(clock, ttl, steps).value.now == Elapsed(clock, steps)
  {
    if steps == [] {
    } else {
      ClockIsElapsed(clock, ttl, steps[..|steps| - 1]);
    }
  }

  /** A task that asks for keys without forcing, before the lock or inside it. */
  predicate Looks(s: State, t: TaskId) {
    t < |s.tasks| && !s.tasks[t].force && (s.tasks[t].pc.Start? || s.tasks[t].pc.HasLock?)
  }

  /**
   In every run, a look that does not force returns the list of the last successful fetch at once, releasing the lock if it
   holds it, exactly if there was such a fetch less than the TTL ago; otherwise it goes for the lock, or for the provider.
   (The source reads a time stamp of exactly zero as no fetch.)
   */
  lemma YoungListsAreHandedOut(clock: real, ttl: int, steps: seq<Step>, t: TaskId)
    requires Run(clock, ttl, steps).Some? && Looks(Run(clock, ttl, steps).value, t)
    ensures var s := Run(clock, ttl, steps).value;
            var s', n := Do(s, ttl, Resume(t)), |s.fetches|;
            && s'.fetches == s.fetches && s'.lists == s.lists
            && (n > 0 && s.fetches[n - 1].at != 0.0 && Elapsed(clock, steps) - s.fetches[n - 1].at < ttl as real ==>
                  && s'.tasks[t].pc == Returned(s.fetches[n - 1].list, Elapsed(clock, steps))
                  && s'.holder == if s.tasks[t].pc.HasLock? then None else s.holder)
            && (n == 0 || s.fetches[n - 1].at == 0.0 || Elapsed(clock, steps) - s.fetches[n - 1].at >= ttl as real ==>
                  s'.tasks[t].pc == if s.tasks[t].pc.Start? then WantLock else if s.uri.None? then Discovering else Fetching)
  {
    RunsKeep(clock, ttl, steps);
    ClockIsElapsed(clock, ttl, steps);
    var s := Run(clock, ttl, steps).value;
    if s.fetches != [] {
      assert FetchOk(s, |s.fetches| - 1);
    }
  }

  /** A successful fetch is stamped with the moment its answer arrived. */
  lemma FetchesAreStampedOnArrival(clock: real, ttl: int, steps: seq<Step>, t: TaskId, keys: seq<Key>)
    requires Run(clock, ttl, steps).Some? && Enabled(Run(clock, ttl, steps).value, Fetched(t, keys))
    ensures var s := Run(clock, ttl, steps).value;
            var s', list := Do(s, ttl, Fetched(t, keys)), |s.lists|;
            && s'.fetches == s.fetches + [Fetch(list, Elapsed(clock, steps), t)] && s'.lists == s.lists + [keys]
            && s'.keys == list && s'.lastFetch == Elapsed(clock, steps)
            && s'.tasks[t].pc == Returned(list, Elapsed(clock, steps))
  {
    ClockIsElapsed(clock, ttl, steps);
  }

  /** In every run at most one task is discovering or fetching. */
  lemma OneFetchAtATime(clock: real, ttl: int, steps: seq<Step>, t: TaskId, v: TaskId)
    requires Run(clock, ttl, steps).Some?
    requires var tasks := Run(clock, ttl, steps).value.tasks;
             t < |tasks| && v < |tasks| && (tasks[t].pc.Discovering? || tasks[t].pc.Fetching?)
             && (tasks[v].pc.Discovering? || tasks[v].pc.Fetching?)
    ensures t == v
  {
    RunsKeep(clock, ttl, steps);
    var s := Run(clock, ttl, steps).value;
    assert TaskOk(s, ttl, t) && TaskOk(s, ttl, v);
  }

  /**
   What later steps leave alone: a discovered URI, which list a task was handed, and what every list object holds, the
   lists handed out among them.
   */
  lemma {:induction false} LaterStepsKeep(clock: real, ttl: int, steps: seq<Step>, n: nat)
    requires Run(clock, ttl, steps).Some? && n <= |steps|
    ensures Run(clock, ttl, steps[..n]).Some?
    ensures var before, after := Run(clock, ttl, steps[..n]).value, Run(clock, ttl, steps).value;
            && (before.uri.Some? ==> after.uri == before.uri)
            && before.fetches <= after.fetches && before.lists <= after.lists
            && |before.tasks| <= |after.tasks|
            && (forall t: TaskId :: t < |before.tasks| && before.tasks[t].pc.Returned? ==> after.tasks[t] == before.tasks[t])
            && (before.fetches == after.fetches ==> after.keys == before.keys && after.lastFetch == before.lastFetch)
  {
    if n == |steps| {
      assert steps[..n] == steps;
    } else {
      var front, last := steps[..|steps| - 1], steps[|steps| - 1];
      LaterStepsKeep(clock, ttl, front, n);
      assert front[..n] == steps[..n];
      RunsKeep(clock, ttl, front);
      StepKeepsHistory(Run(clock, ttl, front).value, ttl, last);
    }
  }

  lemma StepKeepsHistory(s: State, ttl: int, step: Step)
    requires Inv(s, ttl) && Enabled(s, step)
    ensures var s' := Do(s, ttl, step);
            && (s.uri.Some? ==> s'.uri == s.uri) && s.fetches <= s'.fetches && s.lists <= s'.lists && |s.tasks| <= |s'.tasks|
            && (forall t: TaskId :: t < |s.tasks| && s.tasks[t].pc.Returned? ==> s'.tasks[t] == s.tasks[t])
            && (if step.Fetched? then |s'.fetches| == |s.fetches| + 1
                else s'.fetches == s.fetches && s'.keys == s.keys && s'.lastFetch == s.lastFetch)
  {
    if step.Discovered? {
      assert TaskOk(s, ttl, step.t);
    }
  }

  /** A failed fetch or discovery, like any other exception, leaves keys, time stamp and URI as they were. */
  lemma FailuresLeaveTheCache(s: State, ttl: int, t: TaskId)
    requires Inv(s, ttl) && Enabled(s, Raise(t))
    ensures var s' := Do(s, ttl, Raise(t));
            s'.keys == s.keys && s'.lists == s.lists && s'.lastFetch == s.lastFetch && s'.uri == s.uri
            && (s.holder == Some(t) ==> s'.holder == None)
  {
  }

  /** While a task is live, some task can go on, given answers from the provider. */
  lemma SomeTaskCanMove(clock: real, ttl: int, steps: seq<Step>, t: TaskId)
    requires Run(clock, ttl, steps).Some?
    requires var s := Run(clock, ttl, steps).value; t < |s.tasks| && s.tasks[t].Live()
    ensures var s := Run(clock, ttl, steps).value;
            exists v: TaskId :: Enabled(s, Resume(v)) || Enabled(s, Discovered(v, "uri")) || Enabled(s, Fetched(v, ["key"]))
  {
    RunsKeep(clock, ttl, steps);
    var s := Run(clock, ttl, steps).value;
    var v := if s.tasks[t].pc.WantLock? && s.holder.Some? then s.holder.value else t;
    assert Enabled(s, Resume(v)) || Enabled(s, Discovered(v, "uri")) || Enabled(s, Fetched(v, ["key"]));
  }

  // ------------------------------------------------------------------
  // The client
  // ------------------------------------------------------------------

  /** `JWKSClient`, cut at its awaits. */
  class Client {
    const ttl: int
    var now: real
    var uri: Option<string>
    var keys: ListId
    /** Every list object ever assigned to the client. */
    var lists: seq<seq<Key>>
    var lastFetch: real
    var holder: Option<TaskId>
    var tasks: seq<Task>
    /** The provider's own record of the lists it served. */
    ghost var fetches: seq<Fetch>

    ghost function View(): State
      reads this
    {
      State(now, uri, keys, lastFetch, holder, tasks, lists, fetches)
    }

    ghost predicate Valid()
      reads this
    {
      Inv(View(), ttl)
    }

    constructor (ttl: int, clock: real)
      ensures Valid() && View() == Initial(clock) && this.ttl == ttl
    {
      this.ttl, now := ttl, clock;
      uri, keys, lastFetch, holder, tasks, lists, fetches := None, 0, 0.0, None, [], [[]], [];
    }

    method IsCacheValid() returns (r: bool)
      requires Valid()
      ensures r <==> View().CacheValid(ttl)
    {
      if lists[keys] == [] || lastFetch == 0.0 {
        return false;
      }
      return now - lastFetch < ttl as real;
    }

    method Goto(t: TaskId, pc: Pc)
      requires t < |tasks|
      modifies this`tasks
      ensures tasks == old(View()).At(t, pc)
    {
      tasks := tasks[t := tasks[t].(pc := pc)];
    }

    /** One segment of `get_signing_keys`: the look before the lock, taking it, or the look inside it. */
    method Continue(t: TaskId)
      requires Valid() && Enabled(View(), Resume(t))
      modifies this
      ensures Valid() && View() == Do(old(View()), ttl, Resume(t))
    {
      StepKeeps(View(), ttl, Resume(t));
      var valid := IsCacheValid();
      if tasks[t].pc.WantLock? {
        holder := Some(t);
        Goto(t, HasLock);
      } else if tasks[t].pc.Start? {
        if !tasks[t].force && valid {
          Goto(t, Returned(keys, now));
        } else {
          Goto(t, WantLock);
        }
      } else if !tasks[t].force && valid {
        holder := None;
        Goto(t, Returned(keys, now));
      } else if uri.None? {
        Goto(t, Discovering);
      } else {
        Goto(t, Fetching);
      }
    }

    method StoreUri(t: TaskId, found: string)
      requires Valid() && Enabled(View(), Discovered(t, found))
      modifies this
      ensures Valid() && View() == Do(old(View()), ttl, Discovered(t, found))
    {
      StepKeeps(View(), ttl, Discovered(t, found));
      uri := Some(found);
      Goto(t, Fetching);
    }

    method StoreKeys(t: TaskId, found: seq<Key>)
      requires Valid() && Enabled(View(), Fetched(t, found))
      modifies this
      ensures Valid() && View() == Do(old(View()), ttl, Fetched(t, found))
    {
      StepKeeps(View(), ttl, Fetched(t, found));
      fetches := fetches + [Fetch(|lists|, now, t)];
      keys := |lists|;
      lists := lists + [found];
      lastFetch := now;
      holder := None;
      Goto(t, Returned(keys, now));
    }
  }
}
