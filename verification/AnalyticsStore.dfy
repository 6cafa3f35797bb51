/** The hash store: applied in any order, the operations of all batches leave every counter at the sum over events. */
module AnalyticsStore {
  import opened Analytics
  import opened AnalyticsBatch

  type HashStore = map<(string, string), int>

  function Read(store: HashStore, key: string, field: string): int {
    if (key, field) in store then store[(key, field)] else 0
  }

  /** Redis on one command; the later expiry of a key is not part of this model. */
  function Apply(store: HashStore, op: Op): HashStore {
    match op
    case HIncrBy(key, field, amount) => store[(key, field) := Read(store, key, field) + amount]
    case HSet(key, field, value) => store[(key, field) := value]
    case Expire(_, _) => store
  }

  function ApplyAll(store: HashStore, ops: seq<Op>): HashStore
    decreases ops
  {
    if ops == [] then store else ApplyAll(Apply(store, ops[0]), ops[1..])
  }

  function Amount(key: string, field: string, op: Op): int {
    if op.HIncrBy? && op.key == key && op.field == field then op.amount else 0
  }

  function Total(key: string, field: string, ops: seq<Op>): int {
    if ops == [] then 0 else Amount(key, field, ops[0]) + Total(key, field, ops[1..])
  }

  predicate Sets(key: string, op: Op) {
    op.HSet? && op.key == key
  }

  lemma {:induction false} AppliedIncrementsAddUp(store: HashStore, ops: seq<Op>, key: string, field: string)
    requires forall op | op in ops :: !Sets(key, op)
    ensures Read(ApplyAll(store, ops), key, field) == Read(store, key, field) + Total(key, field, ops)
    decreases ops
  {
    if ops == [] {
    } else {
      assert !Sets(key, ops[0]);
      AppliedIncrementsAddUp(Apply(store, ops[0]), ops[1..], key, field);
    }
  }

  lemma {:induction false} TotalConcat(key: string, field: string, a: seq<Op>, b: seq<Op>)
    ensures Total(key, field, a + b) == Total(key, field, a) + Total(key, field, b)
  {
    if a == [] {
      assert a + b == b;
    } else {
      assert (a + b)[1..] == a[1..] + b;
      TotalConcat(key, field, a[1..], b);
    }
  }

  lemma TotalOfOne(key: string, field: string, op: Op)
    ensures Total(key, field, [op]) == Amount(key, field, op)
  {
    assert [op][1..] == [];
  }

  lemma TotalWithout(key: string, field: string, ops: seq<Op>, i: nat)
    requires i < |ops|
    ensures var rest := ops[..i] + ops[i + 1..];
            && Total(key, field, ops) == Amount(key, field, ops[i]) + Total(key, field, rest)
            && multiset(rest) == multiset(ops) - multiset{ops[i]}
  {
    var front, back := ops[..i], ops[i + 1..];
    assert ops == front + ([ops[i]] + back);
    TotalConcat(key, field, front, [ops[i]] + back);
    TotalConcat(key, field, [ops[i]], back);
    TotalOfOne(key, field, ops[i]);
    TotalConcat(key, field, front, back);
  }

  /** A permutation without one operation: the other list's first. */
  lemma RemoveFirst(key: string, field: string, a: seq<Op>, b: seq<Op>) returns (rest: seq<Op>)
    requires multiset(a) == multiset(b) && a != []
    ensures multiset(a[1..]) == multiset(rest) && Total(key, field, b) == Amount(key, field, a[0]) + Total(key, field, rest)
  {
    assert a[0] in multiset(b);
    var i :| 0 <= i < |b| && b[i] == a[0];
    rest := b[..i] + b[i + 1..];
    TotalWithout(key, field, b, i);
    assert a == [a[0]] + a[1..];
    assert multiset(a[1..]) == multiset(a) - multiset{a[0]};
  }

  /** Increments commute: only which operations are applied matters, not their order. */
  lemma {:induction false} TotalIgnoresOrder(key: string, field: string, a: seq<Op>, b: seq<Op>)
    requires multiset(a) == multiset(b)
    ensures Total(key, field, a) == Total(key, field, b)
  {
    if a == [] {
      assert |multiset(b)| == 0;
    } else {
      var rest := RemoveFirst(key, field, a, b);
      TotalIgnoresOrder(key, field, a[1..], rest);
    }
  }

  // ------------------------------------------------------------------
  // What a batch adds to one counter
  // ------------------------------------------------------------------

  lemma {:induction false} ExpiriesAddNothing(key: string, field: string, writes: seq<Op>, ttl: int)
    ensures Total(key, field, PushAll(writes, ttl)) == Total(key, field, writes)
    ensures (forall op | op in writes :: !Sets(key, op)) ==> forall op | op in PushAll(writes, ttl) :: !Sets(key, op)
  {
    if writes == [] {
    } else {
      var front, w := writes[..|writes| - 1], writes[|writes| - 1];
      var ops := PushAll(front, ttl);
      var tail := if w.key !in Written(ops) then [Expire(w.key, ttl)] else [];
      ExpiriesAddNothing(key, field, front, ttl);
      TotalConcat(key, field, ops + [w], tail);
      TotalConcat(key, field, ops, [w]);
      TotalConcat(key, field, front, [w]);
      TotalOfOne(key, field, Expire(w.key, ttl));
      assert writes == front + [w];
      assert PushAll(writes, ttl) == ops + [w] + tail;
    }
  }

  /** A counter: any bucketed hash other than the latency maxima. */
  predicate IsCounter(category: string, dimension: string) {
    Colonless(category) && !(category == "latency" && dimension == "max")
  }

  predicate AllCounters(incs: seq<Increment>) {
    forall i | i in incs :: IsCounter(i.category, i.dimension)
  }

  lemma CategoriesAreColonless()
    ensures Colonless("calls") && Colonless("latency") && Colonless("sizes")
    ensures Colonless("denials") && Colonless("redactions") && Colonless("errors")
  {
  }

  lemma ToolCallCounts(e: AnalyticsEvent)
    requires e.eventType.ToolCall?
    ensures AllCounters(Increments(e))
  {
    CategoriesAreColonless();
    var a := [Increment("calls", "tool", ToolField(e), 1), Increment("calls", "server", e.server, 1)];
    var b := a + When(e.userId != "", Increment("calls", "user", e.userId, 1));
    var c := b + When(e.transport != "", Increment("calls", "transport", e.transport, 1));
    var d := c + When(e.durationMs > 0.0, Increment("latency", "sum", ToolField(e), Trunc(e.durationMs)));
    var f := d + When(e.durationMs > 0.0, Increment("latency", "count", ToolField(e), 1));
    var g := f + When(e.requestBytes > 0, Increment("sizes", "request", ToolField(e), e.requestBytes));
    assert AllCounters(a) && AllCounters(b);
    assert AllCounters(c);
    assert AllCounters(d);
    assert AllCounters(f);
    assert AllCounters(g);
  }

  lemma IncrementsAreOfCounters(e: AnalyticsEvent)
    ensures AllCounters(Increments(e))
  {
    CategoriesAreColonless();
    if e.eventType.ToolCall? {
      ToolCallCounts(e);
    }
  }

  lemma {:induction false} TotalOfIncrements(c: Config, at: int, incs: seq<Increment>, category: string, dimension: string,
                                             bid: int, field: string)
    requires Colonless(category) && AllCounters(incs)
    ensures Total(BucketKey(c, category, dimension, bid), field, ToWrites(c, at, incs))
         == if at == bid then SumOf(category, dimension, field, incs) else 0
  {
    if incs == [] {
    } else {
      TotalOfIncrements(c, at, incs[1..], category, dimension, bid, field);
      assert ToWrites(c, at, incs)[1..] == ToWrites(c, at, incs[1..]);
      BucketKeyIsInjective(c, incs[0].category, incs[0].dimension, at, category, dimension, bid);
    }
  }

  /** What the events of one bucket contribute to a counter. */
  function Expected(c: Config, category: string, dimension: string, bid: int, field: string, events: seq<AnalyticsEvent>): int
    requires c.Valid()
  {
    if events == [] then 0
    else
      var e := events[|events| - 1];
      Expected(c, category, dimension, bid, field, events[..|events| - 1])
      + (if BucketId(c, e) == bid then Contribution(e, category, dimension, field) else 0)
  }

  lemma {:induction false} ExpectedConcat(c: Config, category: string, dimension: string, bid: int, field: string,
                                          a: seq<AnalyticsEvent>, b: seq<AnalyticsEvent>)
    requires c.Valid()
    ensures Expected(c, category, dimension, bid, field, a + b)
         == Expected(c, category, dimension, bid, field, a) + Expected(c, category, dimension, bid, field, b)
  {
    if b == [] {
      assert a + b == a;
    } else {
      assert (a + b)[..|a + b| - 1] == a + b[..|b| - 1];
      ExpectedConcat(c, category, dimension, bid, field, a, b[..|b| - 1]);
    }
  }

  lemma {:induction false} CounterWritesAddUp(c: Config, events: seq<AnalyticsEvent>, category: string, dimension: string,
                                              bid: int, field: string)
    requires c.Valid() && Colonless(category)
    ensures Total(BucketKey(c, category, dimension, bid), field, CounterWrites(c, events))
         == Expected(c, category, dimension, bid, field, events)
    ensures forall op | op in CounterWrites(c, events) :: op.HIncrBy?
  {
    if events == [] {
    } else {
      var key, front, e := BucketKey(c, category, dimension, bid), events[..|events| - 1], events[|events| - 1];
      var now := ToWrites(c, BucketId(c, e), Increments(e));
      CounterWritesAddUp(c, front, category, dimension, bid, field);
      IncrementsAreOfCounters(e);
      TotalOfIncrements(c, BucketId(c, e), Increments(e), category, dimension, bid, field);
      IncrementsContribute(e, category, dimension, field);
      TotalConcat(key, field, CounterWrites(c, front), now);
      forall op | op in CounterWrites(c, events) ensures op.HIncrBy? {
        assert op in CounterWrites(c, front) || op in now;
      }
    }
  }

  lemma {:induction false} MaxWritesAddNothing(key: string, field: string, table: seq<MaxEntry>)
    ensures Total(key, field, MaxWrites(table)) == 0
  {
    if table == [] {
    } else {
      assert MaxWrites(table)[1..] == MaxWrites(table[1..]);
      MaxWritesAddNothing(key, field, table[1..]);
    }
  }

  lemma MaxWritesSetNoCounter(c: Config, table: seq<MaxEntry>, category: string, dimension: string, bid: int)
    requires IsCounter(category, dimension)
    requires forall i :: 0 <= i < |table| ==> IsMaxKey(c, table[i].key)
    ensures forall op | op in MaxWrites(table) :: !Sets(BucketKey(c, category, dimension, bid), op)
  {
    var key := BucketKey(c, category, dimension, bid);
    forall op | op in MaxWrites(table) ensures !Sets(key, op) {
      var i :| 0 <= i < |table| && op == MaxWrites(table)[i];
      assert IsMaxKey(c, table[i].key);
      var at :| table[i].key == BucketKey(c, "latency", "max", at);
      CategoriesAreColonless();
      BucketKeyIsInjective(c, "latency", "max", at, category, dimension, bid);
    }
  }

  /** A batch increments each counter by the sum over its events, and never overwrites one. */
  lemma BatchAddsContributions(c: Config, events: seq<AnalyticsEvent>, ops: seq<Op>, category: string, dimension: string,
                               bid: int, field: string)
    requires c.Valid() && IsBatchOf(c, events, ops) && IsCounter(category, dimension)
    ensures Total(BucketKey(c, category, dimension, bid), field, ops) == Expected(c, category, dimension, bid, field, events)
    ensures forall op | op in ops :: !Sets(BucketKey(c, category, dimension, bid), op)
  {
    var key := BucketKey(c, category, dimension, bid);
    var table: seq<MaxEntry> :| IsMaxTable(c, events, table) && ops == PushAll(CounterWrites(c, events) + MaxWrites(table), c.ttl);
    var writes := CounterWrites(c, events) + MaxWrites(table);
    CounterWritesAddUp(c, events, category, dimension, bid, field);
    MaxWritesAddNothing(key, field, table);
    TotalConcat(key, field, CounterWrites(c, events), MaxWrites(table));
    MaxWritesSetNoCounter(c, table, category, dimension, bid);
    forall op | op in writes ensures !Sets(key, op) {
      assert op in CounterWrites(c, events) || op in MaxWrites(table);
    }
    ExpiriesAddNothing(key, field, writes, c.ttl);
  }

  // ------------------------------------------------------------------
  // All batches together
  // ------------------------------------------------------------------

  function Flatten<T>(parts: seq<seq<T>>): seq<T> {
    if parts == [] then [] else Flatten(parts[..|parts| - 1]) + parts[|parts| - 1]
  }

  ghost predicate AreBatchesOf(c: Config, batches: seq<seq<AnalyticsEvent>>, ops: seq<seq<Op>>)
    requires c.Valid()
  {
    |ops| == |batches| && forall i :: 0 <= i < |ops| ==> IsBatchOf(c, batches[i], ops[i])
  }

  /** However the events are split, every part has a batch: what follows is about something for every split. */
  lemma {:induction false} EverySplitHasBatches(c: Config, batches: seq<seq<AnalyticsEvent>>) returns (ops: seq<seq<Op>>)
    requires c.Valid()
    ensures AreBatchesOf(c, batches, ops)
  {
    if batches == [] {
      ops := [];
    } else {
      var n := |batches| - 1;
      var front := EverySplitHasBatches(c, batches[..n]);
      var last := EveryListHasABatch(c, batches[n]);
      ops := front + [last];
      OneMoreBatch(c, batches[..n], front, batches[n], last);
      assert batches == batches[..n] + [batches[n]];
    }
  }

  lemma OneMoreBatch(c: Config, batches: seq<seq<AnalyticsEvent>>, ops: seq<seq<Op>>, events: seq<AnalyticsEvent>, last: seq<Op>)
    requires c.Valid() && AreBatchesOf(c, batches, ops) && IsBatchOf(c, events, last)
    ensures AreBatchesOf(c, batches + [events], ops + [last])
  {
    var all := batches + [events];
    forall i | 0 <= i < |ops + [last]| ensures IsBatchOf(c, all[i], (ops + [last])[i]) {
      if i < |ops| {
        assert IsBatchOf(c, batches[i], ops[i]) && all[i] == batches[i];
      }
    }
  }

  lemma {:induction false} BatchesAddContributions(c: Config, batches: seq<seq<AnalyticsEvent>>, ops: seq<seq<Op>>,
                                                   category: string, dimension: string, bid: int, field: string)
    requires c.Valid() && AreBatchesOf(c, batches, ops) && IsCounter(category, dimension)
    ensures Total(BucketKey(c, category, dimension, bid), field, Flatten(ops))
         == Expected(c, category, dimension, bid, field, Flatten(batches))
    ensures forall op | op in Flatten(ops) :: !Sets(BucketKey(c, category, dimension, bid), op)
  {
    if batches == [] {
    } else {
      var n, key := |batches| - 1, BucketKey(c, category, dimension, bid);
      BatchesAddContributions(c, batches[..n], ops[..n], category, dimension, bid, field);
      BatchAddsContributions(c, batches[n], ops[n], category, dimension, bid, field);
      TotalConcat(key, field, Flatten(ops[..n]), ops[n]);
      ExpectedConcat(c, category, dimension, bid, field, Flatten(batches[..n]), batches[n]);
    }
  }

  /**
   Applied in any order and interleaving, the operations of any split into batches leave every counter at its old
   value plus the sum, over all events of its bucket, of their contributions.
   */
  lemma CountersAreConserved(c: Config, batches: seq<seq<AnalyticsEvent>>, ops: seq<seq<Op>>, applied: seq<Op>,
                             store: HashStore, category: string, dimension: string, bid: int, field: string)
    requires c.Valid() && AreBatchesOf(c, batches, ops) && IsCounter(category, dimension)
    requires multiset(applied) == multiset(Flatten(ops))
    ensures var key := BucketKey(c, category, dimension, bid);
            Read(ApplyAll(store, applied), key, field)
            == Read(store, key, field) + Expected(c, category, dimension, bid, field, Flatten(batches))
  {
    var key := BucketKey(c, category, dimension, bid);
    BatchesAddContributions(c, batches, ops, category, dimension, bid, field);
    forall op | op in applied ensures !Sets(key, op) {
      assert op in multiset(applied);
    }
    AppliedIncrementsAddUp(store, applied, key, field);
    TotalIgnoresOrder(key, field, applied, Flatten(ops));
  }

  // ------------------------------------------------------------------
  // The shape of one batch
  // ------------------------------------------------------------------

  /** The HSET commands of a batch, in order. */
  function SetsOf(ops: seq<Op>): seq<Op> {
    if ops == [] then []
    else SetsOf(ops[..|ops| - 1]) + (if ops[|ops| - 1].HSet? then [ops[|ops| - 1]] else [])
  }

  lemma SetsOfAppend(ops: seq<Op>, op: Op)
    ensures SetsOf(ops + [op]) == if op.HSet? then SetsOf(ops) + [op] else SetsOf(ops)
  {
    assert (ops + [op])[..|ops|] == ops;
  }

  lemma {:induction false} ExpiriesSetNothing(writes: seq<Op>, ttl: int)
    ensures SetsOf(PushAll(writes, ttl)) == SetsOf(writes)
  {
    if writes == [] {
    } else {
      var front, w := writes[..|writes| - 1], writes[|writes| - 1];
      ExpiriesSetNothing(front, ttl);
      SetsOfAppend(PushAll(front, ttl), w);
      SetsOfAppend(PushAll(front, ttl) + [w], Expire(w.key, ttl));
      assert PushAll(front, ttl) + [w] + [] == PushAll(front, ttl) + [w];
    }
  }

  lemma {:induction false} IncrementsSetNothing(incs: seq<Op>)
    requires forall op | op in incs :: op.HIncrBy?
    ensures SetsOf(incs) == []
  {
    if incs == [] {
    } else {
      assert incs[|incs| - 1] in incs;
      IncrementsSetNothing(incs[..|incs| - 1]);
    }
  }

  lemma {:induction false} SetsAfterIncrements(incs: seq<Op>, sets: seq<Op>)
    requires (forall op | op in incs :: op.HIncrBy?) && (forall op | op in sets :: op.HSet?)
    ensures SetsOf(incs + sets) == sets
    decreases |sets|
  {
    if sets == [] {
      IncrementsSetNothing(incs);
      assert incs + sets == incs;
    } else {
      var front, last := sets[..|sets| - 1], sets[|sets| - 1];
      assert last in sets;
      SetsAfterIncrements(incs, front);
      SetsOfAppend(incs + front, last);
      assert incs + sets == (incs + front) + [last] && sets == front + [last];
    }
  }

  /**
   One batch: each written key gets exactly one expiry, right after its first write, and each (bucket, tool) with a
   positive maximum gets exactly one HSET, carrying that maximum; nothing else is set.
   */
  lemma BatchShape(c: Config, events: seq<AnalyticsEvent>, ops: seq<Op>)
    requires c.Valid() && IsBatchOf(c, events, ops)
    ensures ExpiresOnce(ops, c.ttl)
    ensures exists table :: IsMaxTable(c, events, table) && SetsOf(ops) == MaxWrites(table)
  {
    var table: seq<MaxEntry> :| IsMaxTable(c, events, table) && ops == PushAll(CounterWrites(c, events) + MaxWrites(table), c.ttl);
    CounterWritesAddUp(c, events, "", "", 0, "");
    WritesShape(CounterWrites(c, events), MaxWrites(table), c.ttl);
  }

  lemma WritesShape(incs: seq<Op>, sets: seq<Op>, ttl: int)
    requires (forall op | op in incs :: op.HIncrBy?) && (forall op | op in sets :: op.HSet?)
    ensures ExpiresOnce(PushAll(incs + sets, ttl), ttl) && SetsOf(PushAll(incs + sets, ttl)) == sets
  {
    forall w | w in incs + sets ensures w.Writes() {
      assert w in incs || w in sets;
    }
    PushedBatchesExpireOnce(incs + sets, ttl);
    ExpiriesSetNothing(incs + sets, ttl);
    SetsAfterIncrements(incs, sets);
  }

  // ------------------------------------------------------------------
  // The maxima, once stored
  // ------------------------------------------------------------------

  predicate Touches(op: Op, key: string, field: string) {
    op.Writes() && op.key == key && op.field == field
  }

  /**
   Where every command that touches a field sets it to one value, that value stays once it is there, and comes with the
   first.
   */
  lemma {:induction false} OneValueIsStored(store: HashStore, ops: seq<Op>, key: string, field: string, v: int)
    requires forall op | op in ops && Touches(op, key, field) :: op == HSet(key, field, v)
    ensures Read(ApplyAll(store, ops), key, field) == if HSet(key, field, v) in ops then v else Read(store, key, field)
    decreases ops
  {
    if ops == [] {
    } else {
      OneValueIsStored(Apply(store, ops[0]), ops[1..], key, field, v);
      assert ops == [ops[0]] + ops[1..];
      assert Touches(ops[0], key, field) || Read(Apply(store, ops[0]), key, field) == Read(store, key, field);
    }
  }

  lemma {:induction false} PushedWritesAreThese(writes: seq<Op>, ttl: int, op: Op)
    requires op.Writes()
    ensures op in PushAll(writes, ttl) <==> op in writes
  {
    if writes == [] {
    } else {
      var front, w := writes[..|writes| - 1], writes[|writes| - 1];
      PushedWritesAreThese(front, ttl, op);
      assert writes == front + [w];
    }
  }

  lemma {:induction false} CountersTouchNoMaximum(c: Config, events: seq<AnalyticsEvent>, bid: int, op: Op)
    requires c.Valid() && op in CounterWrites(c, events)
    ensures op.HIncrBy? && op.key != BucketKey(c, "latency", "max", bid)
  {
    var front, e := events[..|events| - 1], events[|events| - 1];
    var now := ToWrites(c, BucketId(c, e), Increments(e));
    if op in now {
      var i :| 0 <= i < |now| && now[i] == op;
      IncrementsAreOfCounters(e);
      var inc := Increments(e)[i];
      assert inc in Increments(e);
      CategoriesAreColonless();
      BucketKeyIsInjective(c, inc.category, inc.dimension, BucketId(c, e), "latency", "max", bid);
    } else {
      CountersTouchNoMaximum(c, front, bid, op);
    }
  }

  lemma TableSetsItsValues(value: (string, string) -> int, table: seq<MaxEntry>, key: string, field: string, op: Op)
    requires Tabulates(value, table)
    ensures op in MaxWrites(table) && Touches(op, key, field) ==>
              op == HSet(key, field, value(key, field)) && value(key, field) > 0
    ensures value(key, field) > 0 ==> HSet(key, field, value(key, field)) in MaxWrites(table)
  {
    if op in MaxWrites(table) {
      var i :| 0 <= i < |table| && op == MaxWrites(table)[i];
    }
    if value(key, field) > 0 {
      assert HasEntry(table, key, field);
      var i :| 0 <= i < |table| && table[i].key == key && table[i].field == field;
      assert MaxWrites(table)[i] == HSet(key, field, value(key, field));
    }
  }

  /** What a batch writes under a bucket's maxima: one HSET of the maximum, if there is one. */
  lemma BatchSetsTheMaximum(c: Config, events: seq<AnalyticsEvent>, ops: seq<Op>, bid: int, key: string, tool: string, op: Op)
    requires c.Valid() && IsBatchOf(c, events, ops) && key == BucketKey(c, "latency", "max", bid)
    ensures op in ops && Touches(op, key, tool) ==>
              op == HSet(key, tool, MaxOf(c, events, key, tool)) && MaxOf(c, events, key, tool) > 0
    ensures MaxOf(c, events, key, tool) > 0 ==> HSet(key, tool, MaxOf(c, events, key, tool)) in ops
  {
    var table: seq<MaxEntry> :| IsMaxTable(c, events, table) && ops == PushAll(CounterWrites(c, events) + MaxWrites(table), c.ttl);
    var writes, write := CounterWrites(c, events) + MaxWrites(table), HSet(key, tool, MaxOf(c, events, key, tool));
    TableSetsItsValues(MaxesOf(c, events), table, key, tool, op);
    PushedWritesAreThese(writes, c.ttl, write);
    if op in ops && Touches(op, key, tool) {
      PushedWritesAreThese(writes, c.ttl, op);
      if op in CounterWrites(c, events) {
        CountersTouchNoMaximum(c, events, bid, op);
      }
    }
  }

  /**
   One batch, applied in any order: each bucket and tool holds the maximum of the batch, or what it held before if
   there is none.
   */
  lemma MaximaAreStored(c: Config, events: seq<AnalyticsEvent>, ops: seq<Op>, applied: seq<Op>, store: HashStore, bid: int,
                        tool: string)
    requires c.Valid() && IsBatchOf(c, events, ops) && multiset(applied) == multiset(ops)
    ensures var key := BucketKey(c, "latency", "max", bid);
            var max := MaxOf(c, events, key, tool);
            Read(ApplyAll(store, applied), key, tool) == if max > 0 then max else Read(store, key, tool)
  {
    var key, max := BucketKey(c, "latency", "max", bid), MaxOf(c, events, BucketKey(c, "latency", "max", bid), tool);
    assert forall op :: op in applied <==> op in multiset(ops);
    forall op | op in applied && Touches(op, key, tool) ensures op == HSet(key, tool, max) && max > 0 {
      BatchSetsTheMaximum(c, events, ops, bid, key, tool, op);
    }
    BatchSetsTheMaximum(c, events, ops, bid, key, tool, HSet(key, tool, max));
    OneValueIsStored(store, applied, key, tool, max);
    assert Touches(HSet(key, tool, max), key, tool);
  }

  /** The maximum is one of the latencies offered, and none is larger. */
  lemma {:induction false} MaximumIsReached(c: Config, events: seq<AnalyticsEvent>, key: string, field: string)
    requires c.Valid()
    ensures forall e | e in events :: LatencyOf(c, e, key, field) <= MaxOf(c, events, key, field)
    ensures MaxOf(c, events, key, field) > 0 ==>
              exists e | e in events :: LatencyOf(c, e, key, field) == MaxOf(c, events, key, field)
  {
    if events == [] {
    } else {
      var front, e := events[..|events| - 1], events[|events| - 1];
      assert events == front + [e];
      MaximumIsReached(c, front, key, field);
    }
  }

  lemma OneMoreLatency(count: int, sum: int, before: int, d: int, after: int)
    requires 0 <= before <= sum <= count * before && count >= 0 && d >= 0
    requires after == if d > before then d else before
    ensures after <= sum + d <= (count + 1) * after
  {
    assert count * before <= count * after;
  }

  /** What one event adds to the three latency figures of a bucket and tool. */
  lemma LatencyOfOne(c: Config, e: AnalyticsEvent, bid: int, tool: string)
    requires c.Valid()
    ensures var hit := e.eventType.ToolCall? && e.durationMs > 0.0 && tool == ToolField(e) && BucketId(c, e) == bid;
            var at := BucketId(c, e) == bid;
            var d := LatencyOf(c, e, BucketKey(c, "latency", "max", bid), tool);
            && d == (if hit then Trunc(e.durationMs) else 0) && d >= 0
            && (at ==> Contribution(e, "latency", "sum", tool) == d)
            && (at ==> Contribution(e, "latency", "count", tool) == if hit then 1 else 0)
  {
    CategoriesAreColonless();
    BucketKeyIsInjective(c, "latency", "max", bid, "latency", "max", BucketId(c, e));
  }

  /** Per bucket and tool, over any events: max <= sum <= count * max, an absent maximum being 0. */
  lemma {:induction false} LatencyBounds(c: Config, events: seq<AnalyticsEvent>, bid: int, tool: string)
    requires c.Valid()
    ensures var max := MaxOf(c, events, BucketKey(c, "latency", "max", bid), tool);
            var sum := Expected(c, "latency", "sum", bid, tool, events);
            var count := Expected(c, "latency", "count", bid, tool, events);
            0 <= max <= sum <= count * max && count >= 0
  {
    if events == [] {
    } else {
      var front, e := events[..|events| - 1], events[|events| - 1];
      var key := BucketKey(c, "latency", "max", bid);
      LatencyBounds(c, front, bid, tool);
      LatencyOfOne(c, e, bid, tool);
      OneMoreLatency(Expected(c, "latency", "count", bid, tool, front), Expected(c, "latency", "sum", bid, tool, front),
                     MaxOf(c, front, key, tool), LatencyOf(c, e, key, tool), MaxOf(c, events, key, tool));
    }
  }
}
