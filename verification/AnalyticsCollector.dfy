/** The bounded event queue and its drain, over every interleaving of record and flush. */
module AnalyticsCollector {
  import opened Analytics
  import opened AnalyticsBatch
  import opened AnalyticsStore

  /** `batches` are the event lists handed over so far, oldest first. */
  datatype State = State(queue: seq<AnalyticsEvent>, dropped: nat, batches: seq<seq<AnalyticsEvent>>)

  const START := State([], 0, [])

  /** `asyncio.Queue.full`: a size of zero or less means unbounded. */
  predicate Full(capacity: int, queue: seq<AnalyticsEvent>) {
    capacity > 0 && |queue| >= capacity
  }

  function Enqueued(capacity: int, s: State, e: AnalyticsEvent): State {
    if Full(capacity, s.queue) then s.(dropped := s.dropped + 1) else s.(queue := s.queue + [e])
  }

  function Drained(s: State): State {
    if s.queue == [] then s else s.(queue := [], batches := s.batches + [s.queue])
  }

  /** `AnalyticsCollector`: its methods run without awaiting until the batch is built, so each is one atomic step. */
  class Collector {
    const capacity: int
    const config: Config
    var queue: seq<AnalyticsEvent>
    var dropCount: nat
    ghost var batches: seq<seq<AnalyticsEvent>>

    ghost function View(): State
      reads this
    {
      State(queue, dropCount, batches)
    }

    constructor (capacity: int, config: Config)
      ensures View() == START && this.capacity == capacity && this.config == config
    {
      this.capacity, this.config := capacity, config;
      queue, dropCount, batches := [], 0, [];
    }

    method Enqueue(e: AnalyticsEvent)
      modifies this
      ensures View() == Enqueued(capacity, old(View()), e)
    {
      if capacity > 0 && |queue| >= capacity {
        dropCount := dropCount + 1;
      } else {
        queue := queue + [e];
      }
    }

    /** Drains one event at a time; an empty queue sends nothing. */
    method Flush() returns (ops: seq<Op>)
      requires config.Valid()
      modifies this
      ensures View() == Drained(old(View()))
      ensures if old(queue) == [] then ops == [] else IsBatchOf(config, old(queue), ops)
    {
      var events: seq<AnalyticsEvent> := [];
      while queue != []
        invariant events + queue == old(queue)
        invariant dropCount == old(dropCount) && batches == old(batches)
        decreases |queue|
      {
        events := events + [queue[0]];
        queue := queue[1..];
      }
      assert events == old(queue);
      if events == [] {
        return [];
      }
      batches := batches + [events];
      ops := BuildOperations(config, events);
    }
  }

  // ------------------------------------------------------------------
  // Runs
  // ------------------------------------------------------------------

  datatype Action = Record(event: AnalyticsEvent) | Flush

  function Run(capacity: int, actions: seq<Action>): State {
    if actions == [] then START
    else
      var s := Run(capacity, actions[..|actions| - 1]);
      match actions[|actions| - 1]
      case Record(e) => Enqueued(capacity, s, e)
      case Flush => Drained(s)
  }

  function Recorded(actions: seq<Action>): seq<AnalyticsEvent> {
    if actions == [] then []
    else Recorded(actions[..|actions| - 1])
         + (if actions[|actions| - 1].Record? then [actions[|actions| - 1].event] else [])
  }

  /** `a` is what is left of `b` after leaving some members out. */
  predicate Subsequence<T(==)>(a: seq<T>, b: seq<T>) {
    if a == [] then true
    else if b == [] then false
    else (a[|a| - 1] == b[|b| - 1] && Subsequence(a[..|a| - 1], b[..|b| - 1])) || Subsequence(a, b[..|b| - 1])
  }

  function Kept(s: State): seq<AnalyticsEvent> {
    Flatten(s.batches) + s.queue
  }

  lemma SubsequenceGrows<T>(a: seq<T>, b: seq<T>, x: T)
    requires Subsequence(a, b)
    ensures Subsequence(a, b + [x]) && Subsequence(a + [x], b + [x])
  {
    assert (b + [x])[..|b|] == b && (a + [x])[..|a|] == a;
  }

  lemma DrainKeepsEvents(s: State)
    ensures Kept(Drained(s)) == Kept(s)
  {
    if s.queue != [] {
      var batches := Drained(s).batches;
      assert batches[..|s.batches|] == s.batches;
      assert Flatten(batches) == Flatten(s.batches) + s.queue;
    }
  }

  lemma EnqueueKeepsEvents(capacity: int, s: State, e: AnalyticsEvent)
    ensures Kept(Enqueued(capacity, s, e)) == if Full(capacity, s.queue) then Kept(s) else Kept(s) + [e]
  {
    assert Flatten(s.batches) + (s.queue + [e]) == Flatten(s.batches) + s.queue + [e];
  }

  /** Nothing is lost but what is counted as dropped, order is kept, and the bound holds. */
  ghost predicate Conserves(capacity: int, s: State, recorded: seq<AnalyticsEvent>) {
    && |recorded| == |Flatten(s.batches)| + |s.queue| + s.dropped
    && Subsequence(Kept(s), recorded)
    && (s.dropped == 0 ==> Kept(s) == recorded)
    && (capacity > 0 ==> |s.queue| <= capacity)
    && (capacity <= 0 ==> s.dropped == 0)
    && (forall batch | batch in s.batches :: batch != [])
  }

  lemma EnqueueConserves(capacity: int, s: State, e: AnalyticsEvent, recorded: seq<AnalyticsEvent>)
    requires Conserves(capacity, s, recorded)
    ensures Conserves(capacity, Enqueued(capacity, s, e), recorded + [e])
  {
    EnqueueKeepsEvents(capacity, s, e);
    SubsequenceGrows(Kept(s), recorded, e);
  }

  lemma DrainConserves(capacity: int, s: State, recorded: seq<AnalyticsEvent>)
    requires Conserves(capacity, s, recorded)
    ensures Conserves(capacity, Drained(s), recorded)
  {
    DrainKeepsEvents(s);
    assert |Kept(s)| == |Flatten(s.batches)| + |s.queue|;
    assert |Kept(Drained(s))| == |Flatten(Drained(s).batches)| + |Drained(s).queue|;
  }

  /** After any run of records and flushes, in any order. */
  lemma {:induction false} RunConserves(capacity: int, actions: seq<Action>)
    ensures Conserves(capacity, Run(capacity, actions), Recorded(actions))
  {
    if actions == [] {
    } else {
      var front, last := actions[..|actions| - 1], actions[|actions| - 1];
      RunConserves(capacity, front);
      match last
      case Record(e) => EnqueueConserves(capacity, Run(capacity, front), e, Recorded(front));
      case Flush =>
        DrainConserves(capacity, Run(capacity, front), Recorded(front));
        assert Recorded(actions) == Recorded(front);
    }
  }

  /**
   In every run, an event is dropped exactly when a bounded queue holds as many events as it may; otherwise it is
   queued last.
   */
  lemma DroppedExactlyWhenFull(capacity: int, actions: seq<Action>, e: AnalyticsEvent)
    ensures var s, s' := Run(capacity, actions), Run(capacity, actions + [Record(e)]);
            && s'.batches == s.batches
            && (capacity > 0 && |s.queue| == capacity ==> s'.dropped == s.dropped + 1 && s'.queue == s.queue)
            && (capacity <= 0 || |s.queue| != capacity ==> s'.dropped == s.dropped && s'.queue == s.queue + [e])
  {
    RunConserves(capacity, actions);
    assert (actions + [Record(e)])[..|actions|] == actions;
  }

  /** Nothing dropped, nothing lost: once flushed and applied in any order, every counter is exact. */
  lemma NothingDroppedNothingLost(c: Config, capacity: int, actions: seq<Action>, ops: seq<seq<Op>>, applied: seq<Op>,
                                  store: HashStore, category: string, dimension: string, bid: int, field: string)
    requires c.Valid() && IsCounter(category, dimension)
    requires AreBatchesOf(c, Run(capacity, actions).batches, ops) && multiset(applied) == multiset(Flatten(ops))
    requires Run(capacity, actions).queue == [] && Run(capacity, actions).dropped == 0
    ensures var key := BucketKey(c, category, dimension, bid);
            Read(ApplyAll(store, applied), key, field)
            == Read(store, key, field) + Expected(c, category, dimension, bid, field, Recorded(actions))
  {
    var s := Run(capacity, actions);
    RunConserves(capacity, actions);
    assert Kept(s) == Flatten(s.batches);
    CountersAreConserved(c, s.batches, ops, applied, store, category, dimension, bid, field);
  }
}
