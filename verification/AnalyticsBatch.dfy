/** One batch: from events to Redis operations, and from operations to counters. */
module AnalyticsBatch {
  import opened Analytics

  // ------------------------------------------------------------------
  // Writes and their expiries
  // ------------------------------------------------------------------

  ghost function Written(ops: seq<Op>): set<string> {
    set i | 0 <= i < |ops| && ops[i].Writes() :: ops[i].key
  }

  /** Appends a write, and one expiry if the key is new to the batch. */
  ghost function Push(ops: seq<Op>, w: Op, ttl: int): seq<Op> {
    ops + [w] + (if w.key !in Written(ops) then [Expire(w.key, ttl)] else [])
  }

  ghost function PushAll(writes: seq<Op>, ttl: int): seq<Op> {
    if writes == [] then [] else Push(PushAll(writes[..|writes| - 1], ttl), writes[|writes| - 1], ttl)
  }

  lemma PushAllAppend(writes: seq<Op>, w: Op, ttl: int)
    ensures PushAll(writes + [w], ttl) == Push(PushAll(writes, ttl), w, ttl)
  {
    assert (writes + [w])[..|writes|] == writes;
  }

  /** The operation list under construction, with the keys already expired. */
  class Batch {
    const config: Config
    var ops: seq<Op>
    var keysSeen: set<string>
    ghost var writes: seq<Op>

    ghost predicate Valid()
      reads this
    {
      && config.Valid()
      && ops == PushAll(writes, config.ttl)
      && keysSeen == Written(ops)
    }

    constructor (config: Config)
      requires config.Valid()
      ensures Valid() && this.config == config && writes == []
    {
      this.config := config;
      ops, keysSeen, writes := [], {}, [];
    }

    method HIncrBy(category: string, dimension: string, bid: int, field: string, amount: int)
      requires Valid()
      modifies this
      ensures Valid()
      ensures writes == old(writes) + [Op.HIncrBy(BucketKey(config, category, dimension, bid), field, amount)]
    {
      var key := BucketKey(config, category, dimension, bid);
      Write(Op.HIncrBy(key, field, amount));
    }

    method Write(w: Op)
      requires Valid() && w.Writes()
      modifies this
      ensures Valid() && writes == old(writes) + [w]
    {
      PushAllAppend(writes, w, config.ttl);
      WrittenAfterPush(ops, w, config.ttl);
      ops := ops + [w];
      if w.key !in keysSeen {
        keysSeen := keysSeen + {w.key};
        ops := ops + [Expire(w.key, config.ttl)];
      }
      writes := writes + [w];
    }
  }

  lemma WrittenAfterPush(ops: seq<Op>, w: Op, ttl: int)
    requires w.Writes()
    ensures Written(Push(ops, w, ttl)) == Written(ops) + {w.key}
    ensures Push(ops, w, ttl) == if w.key in Written(ops) then ops + [w] else ops + [w] + [Expire(w.key, ttl)]
  {
    var after := Push(ops, w, ttl);
    assert after[|ops|] == w;
    assert forall i :: 0 <= i < |ops| ==> after[i] == ops[i];
    forall k | k in Written(ops) ensures k in Written(after) {
      var i :| 0 <= i < |ops| && ops[i].Writes() && ops[i].key == k;
      assert after[i].Writes() && after[i].key == k;
    }
    assert after[|ops|].Writes() && after[|ops|].key == w.key;
  }

  ghost predicate WritesKeyBefore(ops: seq<Op>, i: nat, key: string) {
    exists j :: 0 <= j < i && j < |ops| && ops[j].Writes() && ops[j].key == key
  }

  /** A write is followed by its key's expiry exactly when it is the first write of the key; no other expiries occur. */
  ghost predicate ExpiryAt(ops: seq<Op>, i: nat, ttl: int)
    requires i < |ops|
  {
    if ops[i].Writes() then
      !WritesKeyBefore(ops, i, ops[i].key) <==> (i + 1 < |ops| && ops[i + 1] == Expire(ops[i].key, ttl))
    else
      i > 0 && ops[i - 1].Writes() && ops[i] == Expire(ops[i - 1].key, ttl)
  }

  ghost predicate ExpiresOnce(ops: seq<Op>, ttl: int) {
    forall i :: 0 <= i < |ops| ==> ExpiryAt(ops, i, ttl)
  }

  lemma {:induction false} PushedBatchesExpireOnce(writes: seq<Op>, ttl: int)
    requires forall w | w in writes :: w.Writes()
    ensures ExpiresOnce(PushAll(writes, ttl), ttl)
  {
    if writes == [] {
    } else {
      var front, w := writes[..|writes| - 1], writes[|writes| - 1];
      PushedBatchesExpireOnce(front, ttl);
      PushKeepsExpiries(PushAll(front, ttl), w, ttl);
    }
  }

  lemma PushKeepsExpiries(ops: seq<Op>, w: Op, ttl: int)
    requires ExpiresOnce(ops, ttl) && w.Writes()
    ensures ExpiresOnce(Push(ops, w, ttl), ttl)
  {
    var after := Push(ops, w, ttl);
    var n := |ops|;
    assert after[n] == w;
    assert forall i :: 0 <= i < n ==> after[i] == ops[i];
    forall i, key | 0 <= i <= n ensures WritesKeyBefore(after, i, key) == WritesKeyBefore(ops, i, key) {
      if WritesKeyBefore(after, i, key) {
        var j :| 0 <= j < i && after[j].Writes() && after[j].key == key;
        assert ops[j].Writes() && ops[j].key == key;
      }
      if WritesKeyBefore(ops, i, key) {
        var j :| 0 <= j < i && j < |ops| && ops[j].Writes() && ops[j].key == key;
        assert after[j].Writes() && after[j].key == key;
      }
    }
    assert w.key in Written(ops) <==> WritesKeyBefore(ops, n, w.key);
    forall i | 0 <= i < |after| ensures ExpiryAt(after, i, ttl) {
      if i < n {
        assert ExpiryAt(ops, i, ttl);
        assert i + 1 < n ==> after[i + 1] == ops[i + 1];
      }
    }
  }

  // ------------------------------------------------------------------
  // Latency maxima
  // ------------------------------------------------------------------

  /** What one event offers to the maximum kept under `(key, field)`. */
  function LatencyOf(c: Config, e: AnalyticsEvent, key: string, field: string): int
    requires c.Valid()
  {
    if e.eventType.ToolCall? && e.durationMs > 0.0 && field == ToolField(e)
       && key == BucketKey(c, "latency", "max", BucketId(c, e))
    then Trunc(e.durationMs) else 0
  }

  /** The largest latency of the events under `(key, field)`, 0 if there is none. */
  function MaxOf(c: Config, events: seq<AnalyticsEvent>, key: string, field: string): (m: int)
    requires c.Valid()
    ensures m >= 0
  {
    if events == [] then 0
    else
      var m := MaxOf(c, events[..|events| - 1], key, field);
      var d := LatencyOf(c, events[|events| - 1], key, field);
      if d > m then d else m
  }

  datatype MaxEntry = MaxEntry(key: string, field: string, max: int)

  /** A dict in insertion order: one entry, with its value, for each pair whose value is positive. */
  ghost predicate Tabulates(value: (string, string) -> int, table: seq<MaxEntry>) {
    && (forall i, j :: 0 <= i < j < |table| ==> table[i].key != table[j].key || table[i].field != table[j].field)
    && (forall i :: 0 <= i < |table| ==> table[i].max > 0 && table[i].max == value(table[i].key, table[i].field))
    && (forall key, field :: value(key, field) > 0 ==> HasEntry(table, key, field))
  }

  function MaxesOf(c: Config, events: seq<AnalyticsEvent>): (string, string) -> int
    requires c.Valid()
  {
    (key: string, field: string) => MaxOf(c, events, key, field)
  }

  ghost predicate IsMaxTable(c: Config, events: seq<AnalyticsEvent>, table: seq<MaxEntry>)
    requires c.Valid()
  {
    && Tabulates(MaxesOf(c, events), table)
    && forall i :: 0 <= i < |table| ==> IsMaxKey(c, table[i].key)
  }

  ghost predicate IsMaxKey(c: Config, key: string) {
    exists bid :: key == BucketKey(c, "latency", "max", bid)
  }

  predicate HasEntry(table: seq<MaxEntry>, key: string, field: string) {
    exists i :: 0 <= i < |table| && table[i].key == key && table[i].field == field
  }

  /** Position of a dict entry, or the length if it is missing. */
  function Find(table: seq<MaxEntry>, key: string, field: string): (i: nat)
    ensures i <= |table|
    ensures i < |table| ==> table[i].key == key && table[i].field == field
    ensures i == |table| <==> !HasEntry(table, key, field)
  {
    if table == [] then 0
    else if table[0].key == key && table[0].field == field then 0
    else
      var rest := Find(table[1..], key, field);
      assert HasEntry(table, key, field) ==> HasEntry(table[1..], key, field) by {
        if HasEntry(table, key, field) {
          var i :| 0 <= i < |table| && table[i].key == key && table[i].field == field;
          assert table[1..][i - 1] == table[i];
        }
      }
      assert HasEntry(table[1..], key, field) ==> HasEntry(table, key, field) by {
        if HasEntry(table[1..], key, field) {
          var i :| 0 <= i < |table[1..]| && table[1..][i].key == key && table[1..][i].field == field;
          assert table[i + 1] == table[1..][i];
        }
      }
      1 + rest
  }

  lemma MaxOfAppend(c: Config, events: seq<AnalyticsEvent>, e: AnalyticsEvent, key: string, field: string)
    requires c.Valid()
    ensures MaxOf(c, events + [e], key, field)
         == var m, d := MaxOf(c, events, key, field), LatencyOf(c, e, key, field); if d > m then d else m
  {
    assert (events + [e])[..|events|] == events;
  }

  function Store(table: seq<MaxEntry>, entry: MaxEntry): seq<MaxEntry> {
    var at := Find(table, entry.key, entry.field);
    if at < |table| then table[at := entry] else table + [entry]
  }

  /** Raising the value of one pair, if it rises, keeps the table right. */
  lemma StoreTabulates(before: (string, string) -> int, after: (string, string) -> int, table: seq<MaxEntry>, entry: MaxEntry)
    requires Tabulates(before, table) && entry.max > 0
    requires after(entry.key, entry.field) == entry.max
    requires forall key, field :: key != entry.key || field != entry.field ==> after(key, field) == before(key, field)
    ensures Tabulates(after, Store(table, entry))
  {
    var at, r := Find(table, entry.key, entry.field), Store(table, entry);
    assert r[at] == entry;
    assert forall i :: 0 <= i < |table| && i != at ==> r[i] == table[i];
    forall i | 0 <= i < |table| && i != at
      ensures table[i].key != entry.key || table[i].field != entry.field
    {
    }
    forall key, field | after(key, field) > 0 ensures HasEntry(r, key, field) {
      if key == entry.key && field == entry.field {
        assert r[at].key == key && r[at].field == field;
      } else {
        assert HasEntry(table, key, field);
        var i :| 0 <= i < |table| && table[i].key == key && table[i].field == field;
        assert r[i].key == key && r[i].field == field;
      }
    }
  }

  lemma SameValuesSameTable(before: (string, string) -> int, after: (string, string) -> int, table: seq<MaxEntry>)
    requires Tabulates(before, table) && forall key, field :: after(key, field) == before(key, field)
    ensures Tabulates(after, table)
  {
  }

  /** `latency_maxes` after one more event: unchanged, replaced in place, or appended. */
  function Tracked(c: Config, table: seq<MaxEntry>, e: AnalyticsEvent): seq<MaxEntry>
    requires c.Valid()
  {
    var entry := MaxEntry(BucketKey(c, "latency", "max", BucketId(c, e)), ToolField(e), Trunc(e.durationMs));
    var at := Find(table, entry.key, entry.field);
    if entry.max > (if at < |table| then table[at].max else 0) then Store(table, entry) else table
  }

  lemma TrackedIsMaxTable(c: Config, table: seq<MaxEntry>, e: AnalyticsEvent, events: seq<AnalyticsEvent>)
    requires c.Valid() && IsMaxTable(c, events, table)
    requires e.eventType.ToolCall? && e.durationMs > 0.0
    ensures IsMaxTable(c, events + [e], Tracked(c, table, e))
  {
    var entry := MaxEntry(BucketKey(c, "latency", "max", BucketId(c, e)), ToolField(e), Trunc(e.durationMs));
    var at := Find(table, entry.key, entry.field);
    var existing := if at < |table| then table[at].max else 0;
    var before, after := MaxesOf(c, events), MaxesOf(c, events + [e]);
    forall key, field
      ensures after(key, field) == var m, d := before(key, field), LatencyOf(c, e, key, field); if d > m then d else m
    {
      MaxOfAppend(c, events, e, key, field);
    }
    assert existing == before(entry.key, entry.field);
    if entry.max > existing {
      assert IsMaxKey(c, entry.key);
      StoreTabulates(before, after, table, entry);
    } else {
      SameValuesSameTable(before, after, table);
    }
  }

  method TrackMax(c: Config, table: seq<MaxEntry>, e: AnalyticsEvent, ghost events: seq<AnalyticsEvent>)
    returns (r: seq<MaxEntry>)
    requires c.Valid() && IsMaxTable(c, events, table)
    requires e.eventType.ToolCall? && e.durationMs > 0.0
    ensures IsMaxTable(c, events + [e], r)
  {
    TrackedIsMaxTable(c, table, e, events);
    var duration := Trunc(e.durationMs);
    var maxKey := BucketKey(c, "latency", "max", BucketId(c, e));
    var at := Find(table, maxKey, ToolField(e));
    var existing := if at < |table| then table[at].max else 0;
    if duration > existing {
      var entry := MaxEntry(maxKey, ToolField(e), duration);
      return if at < |table| then table[at := entry] else table + [entry];
    }
    return table;
  }

  lemma QuietEventKeepsMaxTable(c: Config, table: seq<MaxEntry>, e: AnalyticsEvent, events: seq<AnalyticsEvent>)
    requires c.Valid() && IsMaxTable(c, events, table)
    requires !e.eventType.ToolCall? || e.durationMs <= 0.0
    ensures IsMaxTable(c, events + [e], table)
  {
    var before, after := MaxesOf(c, events), MaxesOf(c, events + [e]);
    forall key, field ensures after(key, field) == before(key, field) {
      MaxOfAppend(c, events, e, key, field);
    }
    SameValuesSameTable(before, after, table);
  }

  // ------------------------------------------------------------------
  // Building a batch
  // ------------------------------------------------------------------

  function ToWrites(c: Config, bid: int, incs: seq<Increment>): (r: seq<Op>)
    ensures |r| == |incs|
    ensures forall i :: 0 <= i < |r| ==>
              r[i] == HIncrBy(BucketKey(c, incs[i].category, incs[i].dimension, bid), incs[i].field, incs[i].amount)
  {
    seq(|incs|, i requires 0 <= i < |incs| =>
          HIncrBy(BucketKey(c, incs[i].category, incs[i].dimension, bid), incs[i].field, incs[i].amount))
  }

  /** The counter writes of a list of events, in order. */
  function CounterWrites(c: Config, events: seq<AnalyticsEvent>): seq<Op>
    requires c.Valid()
  {
    if events == [] then []
    else
      var e := events[|events| - 1];
      CounterWrites(c, events[..|events| - 1]) + ToWrites(c, BucketId(c, e), Increments(e))
  }

  function MaxWrites(table: seq<MaxEntry>): (r: seq<Op>)
    ensures |r| == |table|
    ensures forall i :: 0 <= i < |r| ==> r[i] == HSet(table[i].key, table[i].field, table[i].max)
  {
    seq(|table|, i requires 0 <= i < |table| => HSet(table[i].key, table[i].field, table[i].max))
  }

  /** `ops` is what a batch of `events` turns into. */
  ghost predicate IsBatchOf(c: Config, events: seq<AnalyticsEvent>, ops: seq<Op>)
    requires c.Valid()
  {
    exists table :: IsMaxTable(c, events, table)
                    && ops == PushAll(CounterWrites(c, events) + MaxWrites(table), c.ttl)
  }

  /** The batch holds `start` and then the increments `done`. */
  ghost predicate Holds(b: Batch, bid: int, start: seq<Op>, done: seq<Increment>)
    reads b
  {
    b.Valid() && b.writes == start + ToWrites(b.config, bid, done)
  }

  /** `if p: self._hincrby(...)`. */
  method Bump(b: Batch, bid: int, p: bool, i: Increment, ghost start: seq<Op>, ghost done: seq<Increment>)
    returns (ghost now: seq<Increment>)
    requires Holds(b, bid, start, done)
    modifies b
    ensures now == done + When(p, i) && Holds(b, bid, start, now)
  {
    if p {
      b.HIncrBy(i.category, i.dimension, bid, i.field, i.amount);
    }
    now := done + When(p, i);
    assert ToWrites(b.config, bid, now) == ToWrites(b.config, bid, done) + ToWrites(b.config, bid, When(p, i));
  }

  /** The branch for tool calls. */
  method AddToolCall(b: Batch, e: AnalyticsEvent)
    requires b.Valid() && e.eventType.ToolCall?
    modifies b
    ensures Holds(b, BucketId(b.config, e), old(b.writes), Increments(e))
  {
    var bid := BucketId(b.config, e);
    var toolField := e.server + "::" + e.tool;
    var durationInt := Trunc(e.durationMs);
    ghost var start := b.writes;
    var tool, server := Increment("calls", "tool", toolField, 1), Increment("calls", "server", e.server, 1);
    ghost var d := Bump(b, bid, true, tool, start, []);
    d := Bump(b, bid, true, server, start, d);
    assert d == [tool, server];
    d := Bump(b, bid, e.userId != "", Increment("calls", "user", e.userId, 1), start, d);
    d := Bump(b, bid, e.transport != "", Increment("calls", "transport", e.transport, 1), start, d);
    d := Bump(b, bid, e.durationMs > 0.0, Increment("latency", "sum", toolField, durationInt), start, d);
    d := Bump(b, bid, e.durationMs > 0.0, Increment("latency", "count", toolField, 1), start, d);
    d := Bump(b, bid, e.requestBytes > 0, Increment("sizes", "request", toolField, e.requestBytes), start, d);
    d := Bump(b, bid, e.responseBytes > 0, Increment("sizes", "response", toolField, e.responseBytes), start, d);
  }

  /** The branch for denials. */
  method AddDenial(b: Batch, e: AnalyticsEvent)
    requires b.Valid() && e.eventType.Denial?
    modifies b
    ensures Holds(b, BucketId(b.config, e), old(b.writes), Increments(e))
  {
    var bid := BucketId(b.config, e);
    var toolField := e.server + "::" + e.tool;
    ghost var start := b.writes;
    var tool := Increment("denials", "tool", toolField, 1);
    ghost var d := Bump(b, bid, true, tool, start, []);
    assert d == [tool];
    d := Bump(b, bid, e.ruleId != "", Increment("denials", "rule", e.ruleId, 1), start, d);
    d := Bump(b, bid, e.userId != "", Increment("denials", "user", e.userId, 1), start, d);
    d := Bump(b, bid, e.reason != "", Increment("denials", "reason", e.reason, 1), start, d);
  }

  method AddTwo(b: Batch, bid: int, i: Increment, j: Increment)
    requires b.Valid()
    modifies b
    ensures Holds(b, bid, old(b.writes), [i, j])
  {
    ghost var start := b.writes;
    ghost var d := Bump(b, bid, true, i, start, []);
    d := Bump(b, bid, true, j, start, d);
    assert d == [i, j];
  }

  method AddOne(b: Batch, bid: int, i: Increment)
    requires b.Valid()
    modifies b
    ensures Holds(b, bid, old(b.writes), [i])
  {
    ghost var start := b.writes;
    ghost var d := Bump(b, bid, true, i, start, []);
    assert d == [i];
  }

  /** Emits the increments of one event, branch by branch. */
  method AddEvent(b: Batch, e: AnalyticsEvent)
    requires b.Valid()
    modifies b
    ensures Holds(b, BucketId(b.config, e), old(b.writes), Increments(e))
  {
    var bid := BucketId(b.config, e);
    var toolField := e.server + "::" + e.tool;
    match e.eventType {
      case ToolCall => AddToolCall(b, e);
      case Denial => AddDenial(b, e);
      case Redaction =>
        AddTwo(b, bid, Increment("redactions", "input", e.entityType, e.count),
               Increment("redactions", "tool", toolField, e.count));
      case OutputRedaction =>
        AddTwo(b, bid, Increment("redactions", "output", e.entityType, e.count),
               Increment("redactions", "tool", toolField, e.count));
      case MaskingFailure => AddOne(b, bid, Increment("redactions", "fail", e.direction, 1));
      case Error => AddOne(b, bid, Increment("errors", "tool", toolField, 1));
      case Other(_) =>
    }
  }

  method AddMaxes(b: Batch, table: seq<MaxEntry>)
    requires b.Valid()
    modifies b
    ensures b.Valid() && b.writes == old(b.writes) + MaxWrites(table)
  {
    for k := 0 to |table|
      invariant b.Valid() && b.writes == old(b.writes) + MaxWrites(table[..k])
    {
      ghost var w := [HSet(table[k].key, table[k].field, table[k].max)];
      assert MaxWrites(table[..k + 1]) == MaxWrites(table[..k]) + w;
      assert old(b.writes) + (MaxWrites(table[..k]) + w) == (old(b.writes) + MaxWrites(table[..k])) + w;
      b.Write(HSet(table[k].key, table[k].field, table[k].max));
    }
    assert table[..|table|] == table;
  }

  lemma CounterWritesAppend(c: Config, events: seq<AnalyticsEvent>, e: AnalyticsEvent)
    requires c.Valid()
    ensures CounterWrites(c, events + [e]) == CounterWrites(c, events) + ToWrites(c, BucketId(c, e), Increments(e))
  {
    assert (events + [e])[..|events|] == events;
  }

  method BuildOperations(c: Config, events: seq<AnalyticsEvent>) returns (ops: seq<Op>)
    requires c.Valid()
    ensures IsBatchOf(c, events, ops)
  {
    var b := new Batch(c);
    var table: seq<MaxEntry> := [];
    for k := 0 to |events|
      invariant b.Valid() && b.config == c && fresh(b)
      invariant b.writes == CounterWrites(c, events[..k])
      invariant IsMaxTable(c, events[..k], table)
    {
      var e := events[k];
      assert events[..k + 1] == events[..k] + [e];
      CounterWritesAppend(c, events[..k], e);
      AddEvent(b, e);
      if e.eventType.ToolCall? && e.durationMs > 0.0 {
        table := TrackMax(c, table, e, events[..k]);
      } else {
        QuietEventKeepsMaxTable(c, table, e, events[..k]);
      }
    }
    assert events[..|events|] == events;
    AddMaxes(b, table);
    return b.ops;
  }

  lemma {:induction false} MaxTableExists(c: Config, events: seq<AnalyticsEvent>) returns (table: seq<MaxEntry>)
    requires c.Valid()
    ensures IsMaxTable(c, events, table)
  {
    if events == [] {
      table := [];
    } else {
      var front, e := events[..|events| - 1], events[|events| - 1];
      assert events == front + [e];
      table := MaxTableExists(c, front);
      if e.eventType.ToolCall? && e.durationMs > 0.0 {
        TrackedIsMaxTable(c, table, e, front);
        table := Tracked(c, table, e);
      } else {
        QuietEventKeepsMaxTable(c, table, e, front);
      }
    }
  }

  /** Every list of events has a batch. */
  lemma EveryListHasABatch(c: Config, events: seq<AnalyticsEvent>) returns (ops: seq<Op>)
    requires c.Valid()
    ensures IsBatchOf(c, events, ops)
  {
    var table := MaxTableExists(c, events);
    ops := PushAll(CounterWrites(c, events) + MaxWrites(table), c.ttl);
  }
}
