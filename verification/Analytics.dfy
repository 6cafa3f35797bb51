/**
 The analytics collector: a bounded queue drained into batches of Redis operations. The operations, applied in
 any order a shared pipeline may interleave them, leave every counter at the sum of the events' contributions.
 */
module Analytics {
  import opened Text

  datatype EventType = ToolCall | Denial | Redaction | OutputRedaction | MaskingFailure | Error | Other(name: string)

  datatype AnalyticsEvent = AnalyticsEvent(
    eventType: EventType,
    server: string,
    tool: string,
    userId: string,
    ruleId: string,
    entityType: string,
    count: int,
    durationMs: real,
    requestBytes: int,
    responseBytes: int,
    transport: string,
    reason: string,
    direction: string,
    timestamp: real)

  /** Redis commands of a batch; HSET values are written as decimal text and read back as integers. */
  datatype Op =
    | HIncrBy(key: string, field: string, amount: int)
    | HSet(key: string, field: string, value: int)
    | Expire(key: string, ttl: int)
  {
    predicate Writes() { !Expire? }
  }

  datatype Config = Config(base: string, bucketSeconds: int, ttl: int)
  {
    predicate Valid() { bucketSeconds > 0 }
  }

  // ------------------------------------------------------------------
  // Keys
  // ------------------------------------------------------------------

  /** `int(x)`: toward zero. */
  function Trunc(x: real): int {
    if x >= 0.0 then x.Floor else -((-x).Floor)
  }

  /** `int(ts) // bucket_seconds`; for a positive divisor Dafny's division floors, as Python's does. */
  function BucketId(c: Config, e: AnalyticsEvent): int
    requires c.Valid()
  {
    Trunc(e.timestamp) / c.bucketSeconds
  }

  /** `int` drops the fraction: it keeps the sign, and moves a number toward zero by less than one. */
  lemma TruncDropsTheFraction(x: real)
    ensures x >= 0.0 ==> 0.0 <= Trunc(x) as real <= x < Trunc(x) as real + 1.0
    ensures x <= 0.0 ==> Trunc(x) as real - 1.0 < x <= Trunc(x) as real <= 0.0
  {
  }

  lemma Scales(a: int, b: int, d: int)
    requires a <= b && d > 0
    ensures a * d <= b * d && (a + 1) * d == a * d + d
  {
  }

  lemma QuotientIsUnique(n: int, d: int, q: int, b: int)
    requires d > 0 && q == n / d
    ensures q == b <==> b * d <= n < (b + 1) * d
  {
    assert q * d <= n < q * d + d;
    Scales(b, b, d);
    if b < q {
      Scales(b + 1, q, d);
    } else {
      Scales(q, b, d);
      if q < b {
        Scales(q + 1, b, d);
      }
    }
  }

  /**
   An event lies in the bucket whose seconds hold its time: those of the whole second, and for times since 1970 of the
   time itself.
   */
  lemma BucketHoldsItsEvents(c: Config, e: AnalyticsEvent, b: int)
    requires c.Valid()
    ensures BucketId(c, e) == b <==> b * c.bucketSeconds <= Trunc(e.timestamp) < (b + 1) * c.bucketSeconds
    ensures e.timestamp >= 0.0 ==>
              (BucketId(c, e) == b
               <==> (b * c.bucketSeconds) as real <= e.timestamp < ((b + 1) * c.bucketSeconds) as real)
  {
    TruncDropsTheFraction(e.timestamp);
    QuotientIsUnique(Trunc(e.timestamp), c.bucketSeconds, BucketId(c, e), b);
  }

  function BucketKey(c: Config, category: string, dimension: string, bid: int): string {
    c.base + ":b:" + (IntText(bid) + ([':'] + (category + ([':'] + dimension))))
  }

  predicate Colonless(s: string) {
    ':' !in s
  }

  lemma SameAfterPrefix(prefix: string, x: string, y: string)
    requires prefix + x == prefix + y
    ensures x == y
  {
    assert (prefix + x)[|prefix|..] == x && (prefix + y)[|prefix|..] == y;
  }

  lemma ColonCutIsUnique(a: string, x: string, b: string, y: string)
    requires a + ([':'] + x) == b + ([':'] + y) && ':' !in a && ':' !in b
    ensures a == b && x == y
  {
    assert a + [':'] + x == a + ([':'] + x) && b + [':'] + y == b + ([':'] + y);
    CutIsUnique(':', a, x, b, y);
  }

  /** Two bucket keys of one gateway coincide only for one category, dimension and bucket. */
  lemma BucketKeyIsInjective(c: Config, category: string, dimension: string, bid: int,
                             category': string, dimension': string, bid': int)
    requires Colonless(category) && Colonless(category')
    ensures BucketKey(c, category, dimension, bid) == BucketKey(c, category', dimension', bid')
       <==> category == category' && dimension == dimension' && bid == bid'
  {
    if BucketKey(c, category, dimension, bid) == BucketKey(c, category', dimension', bid') {
      var rest, rest' := category + ([':'] + dimension), category' + ([':'] + dimension');
      SameAfterPrefix(c.base + ":b:", IntText(bid) + ([':'] + rest), IntText(bid') + ([':'] + rest'));
      IntTextHasNo(bid, ':');
      IntTextHasNo(bid', ':');
      ColonCutIsUnique(IntText(bid), rest, IntText(bid'), rest');
      IntTextIsInjective(bid, bid');
      ColonCutIsUnique(category, dimension, category', dimension');
    }
  }

  // ------------------------------------------------------------------
  // What one event contributes
  // ------------------------------------------------------------------

  datatype Increment = Increment(category: string, dimension: string, field: string, amount: int)

  function ToolField(e: AnalyticsEvent): string {
    e.server + "::" + e.tool
  }

  /**
   Two tools of servers without a colon in their names share a field only if they are the same tool of the same server.
   */
  lemma ToolFieldNamesTheTool(e: AnalyticsEvent, e': AnalyticsEvent)
    requires Colonless(e.server) && Colonless(e'.server)
    ensures ToolField(e) == ToolField(e') <==> e.server == e'.server && e.tool == e'.tool
  {
    if ToolField(e) == ToolField(e') {
      assert ToolField(e) == e.server + ([':'] + ([':'] + e.tool)) && ToolField(e') == e'.server + ([':'] + ([':'] + e'.tool));
      ColonCutIsUnique(e.server, [':'] + e.tool, e'.server, [':'] + e'.tool);
      SameAfterPrefix([':'], e.tool, e'.tool);
    }
  }

  function When(p: bool, i: Increment): seq<Increment> {
    if p then [i] else []
  }

  /** The increments of one event, in the order they are emitted. */
  function Increments(e: AnalyticsEvent): seq<Increment> {
    match e.eventType
    case ToolCall =>
      [Increment("calls", "tool", ToolField(e), 1), Increment("calls", "server", e.server, 1)]
      + When(e.userId != "", Increment("calls", "user", e.userId, 1))
      + When(e.transport != "", Increment("calls", "transport", e.transport, 1))
      + When(e.durationMs > 0.0, Increment("latency", "sum", ToolField(e), Trunc(e.durationMs)))
      + When(e.durationMs > 0.0, Increment("latency", "count", ToolField(e), 1))
      + When(e.requestBytes > 0, Increment("sizes", "request", ToolField(e), e.requestBytes))
      + When(e.responseBytes > 0, Increment("sizes", "response", ToolField(e), e.responseBytes))
    case Denial =>
      [Increment("denials", "tool", ToolField(e), 1)]
      + When(e.ruleId != "", Increment("denials", "rule", e.ruleId, 1))
      + When(e.userId != "", Increment("denials", "user", e.userId, 1))
      + When(e.reason != "", Increment("denials", "reason", e.reason, 1))
    case Redaction =>
      [Increment("redactions", "input", e.entityType, e.count), Increment("redactions", "tool", ToolField(e), e.count)]
    case OutputRedaction =>
      [Increment("redactions", "output", e.entityType, e.count), Increment("redactions", "tool", ToolField(e), e.count)]
    case MaskingFailure => [Increment("redactions", "fail", e.direction, 1)]
    case Error => [Increment("errors", "tool", ToolField(e), 1)]
    case Other(_) => []
  }

  /** The same, read per counter: what one event adds to `category:dimension` at a field. */
  function Contribution(e: AnalyticsEvent, category: string, dimension: string, field: string): int {
    var one := (p: bool) => if p then 1 else 0;
    match e.eventType
    case ToolCall =>
      if category == "calls" then
        if dimension == "tool" then one(field == ToolField(e))
        else if dimension == "server" then one(field == e.server)
        else if dimension == "user" then one(field == e.userId && e.userId != "")
        else if dimension == "transport" then one(field == e.transport && e.transport != "")
        else 0
      else if category == "latency" && field == ToolField(e) && e.durationMs > 0.0 then
        if dimension == "sum" then Trunc(e.durationMs) else if dimension == "count" then 1 else 0
      else if category == "sizes" && field == ToolField(e) then
        if dimension == "request" && e.requestBytes > 0 then e.requestBytes
        else if dimension == "response" && e.responseBytes > 0 then e.responseBytes
        else 0
      else 0
    case Denial =>
      if category != "denials" then 0
      else if dimension == "tool" then one(field == ToolField(e))
      else if dimension == "rule" then one(field == e.ruleId && e.ruleId != "")
      else if dimension == "user" then one(field == e.userId && e.userId != "")
      else if dimension == "reason" then one(field == e.reason && e.reason != "")
      else 0
    case Redaction =>
      if category == "redactions" && ((dimension == "input" && field == e.entityType) || (dimension == "tool" && field == ToolField(e)))
      then e.count else 0
    case OutputRedaction =>
      if category == "redactions" && ((dimension == "output" && field == e.entityType) || (dimension == "tool" && field == ToolField(e)))
      then e.count else 0
    case MaskingFailure => one(category == "redactions" && dimension == "fail" && field == e.direction)
    case Error => one(category == "errors" && dimension == "tool" && field == ToolField(e))
    case Other(_) => 0
  }

  function SumOf(category: string, dimension: string, field: string, incs: seq<Increment>): int {
    if incs == [] then 0
    else (if incs[0].category == category && incs[0].dimension == dimension && incs[0].field == field
          then incs[0].amount else 0)
         + SumOf(category, dimension, field, incs[1..])
  }

  lemma {:induction false} SumOfConcat(category: string, dimension: string, field: string, a: seq<Increment>, b: seq<Increment>)
    ensures SumOf(category, dimension, field, a + b)
         == SumOf(category, dimension, field, a) + SumOf(category, dimension, field, b)
  {
    if a == [] {
      assert a + b == b;
    } else {
      assert (a + b)[1..] == a[1..] + b;
      SumOfConcat(category, dimension, field, a[1..], b);
    }
  }

  function Hit(category: string, dimension: string, field: string, p: bool, i: Increment): int {
    if p && i.category == category && i.dimension == dimension && i.field == field then i.amount else 0
  }

  lemma SumOfWhen(category: string, dimension: string, field: string, p: bool, i: Increment)
    ensures SumOf(category, dimension, field, When(p, i)) == Hit(category, dimension, field, p, i)
  {
    if p {
      assert [i][1..] == [];
    }
  }

  lemma SumOfThen(category: string, dimension: string, field: string, a: seq<Increment>, p: bool, i: Increment)
    ensures SumOf(category, dimension, field, a + When(p, i))
         == SumOf(category, dimension, field, a) + Hit(category, dimension, field, p, i)
  {
    SumOfConcat(category, dimension, field, a, When(p, i));
    SumOfWhen(category, dimension, field, p, i);
  }

  lemma SumOfEight(category: string, dimension: string, field: string, i0: Increment, i1: Increment,
                   p2: bool, i2: Increment, p3: bool, i3: Increment, p4: bool, i4: Increment,
                   p5: bool, i5: Increment, p6: bool, i6: Increment, p7: bool, i7: Increment)
    ensures SumOf(category, dimension, field,
                  [i0, i1] + When(p2, i2) + When(p3, i3) + When(p4, i4) + When(p5, i5) + When(p6, i6) + When(p7, i7))
         == Hit(category, dimension, field, true, i0) + Hit(category, dimension, field, true, i1)
            + Hit(category, dimension, field, p2, i2) + Hit(category, dimension, field, p3, i3)
            + Hit(category, dimension, field, p4, i4) + Hit(category, dimension, field, p5, i5)
            + Hit(category, dimension, field, p6, i6) + Hit(category, dimension, field, p7, i7)
  {
    var a := [i0, i1];
    var b := a + When(p2, i2);
    var c := b + When(p3, i3);
    var d := c + When(p4, i4);
    var f := d + When(p5, i5);
    PairContributes(category, dimension, field, i0, i1);
    SumOfThen(category, dimension, field, a, p2, i2);
    SumOfThen(category, dimension, field, b, p3, i3);
    SumOfThen(category, dimension, field, c, p4, i4);
    SumOfThen(category, dimension, field, d, p5, i5);
    SumOfThen(category, dimension, field, f, p6, i6);
    SumOfThen(category, dimension, field, f + When(p6, i6), p7, i7);
  }

  lemma ToolCallContributes(e: AnalyticsEvent, category: string, dimension: string, field: string)
    requires e.eventType.ToolCall?
    ensures SumOf(category, dimension, field, Increments(e)) == Contribution(e, category, dimension, field)
  {
    var tool, server := Increment("calls", "tool", ToolField(e), 1), Increment("calls", "server", e.server, 1);
    var user, transport := Increment("calls", "user", e.userId, 1), Increment("calls", "transport", e.transport, 1);
    var sum := Increment("latency", "sum", ToolField(e), Trunc(e.durationMs));
    var count := Increment("latency", "count", ToolField(e), 1);
    var request := Increment("sizes", "request", ToolField(e), e.requestBytes);
    var response := Increment("sizes", "response", ToolField(e), e.responseBytes);
    SumOfEight(category, dimension, field, tool, server, e.userId != "", user, e.transport != "", transport,
               e.durationMs > 0.0, sum, e.durationMs > 0.0, count, e.requestBytes > 0, request, e.responseBytes > 0, response);
  }

  /** The emitted increments of an event add up, counter by counter, to its contribution. */
  lemma IncrementsContribute(e: AnalyticsEvent, category: string, dimension: string, field: string)
    ensures SumOf(category, dimension, field, Increments(e)) == Contribution(e, category, dimension, field)
  {
    match e.eventType
    case ToolCall => ToolCallContributes(e, category, dimension, field);
    case Denial =>
      var tool, rule := Increment("denials", "tool", ToolField(e), 1), Increment("denials", "rule", e.ruleId, 1);
      var user, reason := Increment("denials", "user", e.userId, 1), Increment("denials", "reason", e.reason, 1);
      var a := When(true, tool) + When(e.ruleId != "", rule);
      SumOfWhen(category, dimension, field, true, tool);
      SumOfThen(category, dimension, field, When(true, tool), e.ruleId != "", rule);
      SumOfThen(category, dimension, field, a, e.userId != "", user);
      SumOfThen(category, dimension, field, a + When(e.userId != "", user), e.reason != "", reason);
    case Redaction => PairContributes(category, dimension, field, Increments(e)[0], Increments(e)[1]);
    case OutputRedaction => PairContributes(category, dimension, field, Increments(e)[0], Increments(e)[1]);
    case MaskingFailure => SumOfWhen(category, dimension, field, true, Increments(e)[0]);
    case Error => SumOfWhen(category, dimension, field, true, Increments(e)[0]);
    case Other(_) =>
  }

  lemma PairContributes(category: string, dimension: string, field: string, a: Increment, b: Increment)
    ensures SumOf(category, dimension, field, [a, b])
         == Hit(category, dimension, field, true, a) + Hit(category, dimension, field, true, b)
  {
    assert [a, b] == When(true, a) + When(true, b);
    SumOfWhen(category, dimension, field, true, a);
    SumOfThen(category, dimension, field, When(true, a), true, b);
  }
}
