/**
 The two recursive payload walkers of the masking hook, proved against one flat description:
 the list of string leaves in depth-first order, scanned by the engine from left to right.
 */
module MaskingWalkers {
  import opened Prelude
  import opened Text
  import opened Json

  datatype Direction = Request | Response

  datatype MaskingEvent = MaskingEvent(entityType: string, count: int, status: string)

  /** One answer of the masking engine: a result, or MaskingEngineError. */
  datatype Answer =
    | Answer(maskedText: string, events: seq<MaskingEvent>, hasMasked: bool)
    | EngineError

  /** `mask_text` for a fixed entity list. Detection itself is not part of this model. */
  type Engine = (string, Direction) -> Answer

  // ------------------------------------------------------------------
  // Routes, printed paths and leaves
  // ------------------------------------------------------------------

  datatype Step = Key(name: string) | Index(i: nat)
  type Route = seq<Step>

  /** How both walkers lengthen a path on the way down. */
  function Extend(path: string, step: Step): string {
    match step
    case Key(name) => if path != "" then path + "." + name else name
    case Index(i) => path + "[" + Decimal(i) + "]"
  }

  function Print(route: Route): string {
    if route == [] then "" else Extend(Print(route[..|route| - 1]), route[|route| - 1])
  }

  lemma PrintExtends(route: Route, step: Step)
    ensures Print(route + [step]) == Extend(Print(route), step)
  {
    assert (route + [step])[..|route|] == route;
  }

  datatype Leaf = Leaf(route: Route, text: string)

  /** The string leaves of a value, depth first, each with its route from the root. */
  function Leaves(j: Json, route: Route): seq<Leaf>
    decreases j, 0
  {
    match j
    case JString(s) => [Leaf(route, s)]
    case JArray(items) => ItemLeaves(items, route, 0)
    case JObject(fields) => FieldLeaves(fields, route)
    case _ => []
  }

  function ItemLeaves(items: seq<Json>, route: Route, first: nat): seq<Leaf>
    decreases items, 1
  {
    if items == [] then []
    else Leaves(items[0], route + [Index(first)]) + ItemLeaves(items[1..], route, first + 1)
  }

  function FieldLeaves(fields: seq<Field>, route: Route): seq<Leaf>
    decreases fields, 1
  {
    if fields == [] then []
    else Leaves(fields[0].value, route + [Key(fields[0].key)]) + FieldLeaves(fields[1..], route)
  }

  // ------------------------------------------------------------------
  // The flat description of a walk
  // ------------------------------------------------------------------

  /** What a walk leaves behind: engine calls, recorded fields and events, and whether the engine failed. */
  datatype Trace = Trace(calls: seq<string>, fields: seq<string>, events: seq<MaskingEvent>, failed: bool)
  {
    function Then(next: Trace): Trace {
      if failed then this
      else Trace(calls + next.calls, fields + next.fields, events + next.events, next.failed)
    }
  }

  const UNTOUCHED := Trace([], [], [], false)

  /** The request walker names a bare string payload `<root>`; the response walker leaves it empty. */
  function Label(dir: Direction, path: string): string {
    if dir == Request && path == "" then "<root>" else path
  }

  /** The response walker keeps no events. */
  function Kept(dir: Direction, events: seq<MaskingEvent>): seq<MaskingEvent> {
    if dir == Request then events else []
  }

  function ScanOne(engine: Engine, dir: Direction, leaf: Leaf): Trace {
    match engine(leaf.text, dir)
    case EngineError => Trace([leaf.text], [], [], true)
    case Answer(_, events, hasMasked) =>
      if hasMasked
      then Trace([leaf.text], [Label(dir, Print(leaf.route))], Kept(dir, events), false)
      else Trace([leaf.text], [], [], false)
  }

  /** Leaves go to the engine one by one; the first engine error ends the walk. */
  function Scan(engine: Engine, dir: Direction, leaves: seq<Leaf>): Trace {
    if leaves == [] then UNTOUCHED
    else ScanOne(engine, dir, leaves[0]).Then(Scan(engine, dir, leaves[1..]))
  }

  lemma ThenIsAssociative(a: Trace, b: Trace, c: Trace)
    ensures a.Then(b).Then(c) == a.Then(b.Then(c))
  {
    assert (a.calls + b.calls) + c.calls == a.calls + (b.calls + c.calls);
    assert (a.fields + b.fields) + c.fields == a.fields + (b.fields + c.fields);
    assert (a.events + b.events) + c.events == a.events + (b.events + c.events);
  }

  lemma ThenUntouched(a: Trace)
    ensures a.Then(UNTOUCHED) == a && UNTOUCHED.Then(a) == a
  {
  }

  lemma {:induction false} ScanConcat(engine: Engine, dir: Direction, a: seq<Leaf>, b: seq<Leaf>)
    ensures Scan(engine, dir, a + b) == Scan(engine, dir, a).Then(Scan(engine, dir, b))
  {
    if a == [] {
      assert a + b == b;
      ThenUntouched(Scan(engine, dir, b));
    } else {
      assert (a + b)[0] == a[0] && (a + b)[1..] == a[1..] + b;
      ScanConcat(engine, dir, a[1..], b);
      ThenIsAssociative(ScanOne(engine, dir, a[0]), Scan(engine, dir, a[1..]), Scan(engine, dir, b));
    }
  }

  /** One more subtree walked: the trace so far covers its leaves too, and a failure inside it is final. */
  lemma WalkedPart(engine: Engine, dir: Direction, start: Trace, done: seq<Leaf>, part: seq<Leaf>, rest: seq<Leaf>,
                   mid: Trace, now: Trace)
    requires mid == start.Then(Scan(engine, dir, done))
    requires now == mid.Then(Scan(engine, dir, part))
    ensures now == start.Then(Scan(engine, dir, done + part))
    ensures now.failed ==> now == start.Then(Scan(engine, dir, (done + part) + rest))
  {
    ScanConcat(engine, dir, done, part);
    ThenIsAssociative(start, Scan(engine, dir, done), Scan(engine, dir, part));
    ScanConcat(engine, dir, done + part, rest);
    ThenIsAssociative(start, Scan(engine, dir, done + part), Scan(engine, dir, rest));
  }

  lemma ScanSingle(engine: Engine, dir: Direction, leaf: Leaf)
    ensures Scan(engine, dir, [leaf]) == ScanOne(engine, dir, leaf)
  {
    assert [leaf][1..] == [];
    ThenUntouched(ScanOne(engine, dir, leaf));
  }

  /** What a string leaf becomes. */
  function Replacement(engine: Engine, dir: Direction, text: string): string {
    match engine(text, dir)
    case EngineError => text
    case Answer(masked, _, hasMasked) => if hasMasked then masked else text
  }

  function Masked(engine: Engine, dir: Direction, j: Json): Json
    decreases j, 0
  {
    match j
    case JString(s) => JString(Replacement(engine, dir, s))
    case JArray(items) => JArray(MaskedItems(engine, dir, items))
    case JObject(fields) => JObject(MaskedFields(engine, dir, fields))
    case _ => j
  }

  function MaskedItems(engine: Engine, dir: Direction, items: seq<Json>): seq<Json>
    decreases items, 1
  {
    if items == [] then [] else [Masked(engine, dir, items[0])] + MaskedItems(engine, dir, items[1..])
  }

  function MaskedFields(engine: Engine, dir: Direction, fields: seq<Field>): seq<Field>
    decreases fields, 1
  {
    if fields == [] then []
    else [Field(fields[0].key, Masked(engine, dir, fields[0].value))] + MaskedFields(engine, dir, fields[1..])
  }

  // Walking a container from the left: what one more member adds.

  lemma NextField(fields: seq<Field>, route: Route, k: nat, done: seq<Leaf>)
    requires k < |fields|
    ensures done + FieldLeaves(fields[k..], route)
         == (done + Leaves(fields[k].value, route + [Key(fields[k].key)])) + FieldLeaves(fields[k + 1..], route)
  {
    assert fields[k..][1..] == fields[k + 1..];
  }

  lemma NextItem(items: seq<Json>, route: Route, k: nat, done: seq<Leaf>)
    requires k < |items|
    ensures done + ItemLeaves(items[k..], route, k)
         == (done + Leaves(items[k], route + [Index(k)])) + ItemLeaves(items[k + 1..], route, k + 1)
  {
    assert items[k..][1..] == items[k + 1..];
  }

  lemma {:induction false} MaskedFieldsAppend(engine: Engine, dir: Direction, fields: seq<Field>, f: Field)
    ensures MaskedFields(engine, dir, fields + [f])
         == MaskedFields(engine, dir, fields) + [Field(f.key, Masked(engine, dir, f.value))]
    ensures |MaskedFields(engine, dir, fields)| == |fields|
    ensures forall i :: 0 <= i < |fields| ==> MaskedFields(engine, dir, fields)[i].key == fields[i].key
  {
    if fields == [] {
      assert ([] + [f])[1..] == [];
    } else {
      assert (fields + [f])[1..] == fields[1..] + [f];
      MaskedFieldsAppend(engine, dir, fields[1..], f);
    }
  }

  lemma NextMaskedField(engine: Engine, dir: Direction, fields: seq<Field>, k: nat)
    requires k < |fields| && DistinctKeys(fields)
    ensures Put(MaskedFields(engine, dir, fields[..k]), fields[k].key, Masked(engine, dir, fields[k].value))
         == MaskedFields(engine, dir, fields[..k + 1])
  {
    assert fields[..k + 1] == fields[..k] + [fields[k]];
    MaskedFieldsAppend(engine, dir, fields[..k], fields[k]);
    PutFreshKeyAppends(MaskedFields(engine, dir, fields[..k]), fields[k].key, Masked(engine, dir, fields[k].value));
  }

  lemma {:induction false} MaskedItemsAppend(engine: Engine, dir: Direction, items: seq<Json>, j: Json)
    ensures MaskedItems(engine, dir, items + [j]) == MaskedItems(engine, dir, items) + [Masked(engine, dir, j)]
  {
    if items == [] {
      assert ([] + [j])[1..] == [];
    } else {
      assert (items + [j])[1..] == items[1..] + [j];
      MaskedItemsAppend(engine, dir, items[1..], j);
    }
  }

  lemma NextMaskedItem(engine: Engine, dir: Direction, items: seq<Json>, k: nat)
    requires k < |items|
    ensures MaskedItems(engine, dir, items[..k]) + [Masked(engine, dir, items[k])]
         == MaskedItems(engine, dir, items[..k + 1])
  {
    assert items[..k + 1] == items[..k] + [items[k]];
    MaskedItemsAppend(engine, dir, items[..k], items[k]);
  }

  /** The first `k` fields of a dict are walked: the leaves covered, the trace they left, the new dict so far. */
  ghost predicate FieldsWalked(engine: Engine, dir: Direction, fields: seq<Field>, route: Route, start: Trace, k: nat,
                               done: seq<Leaf>, now: Trace, out: seq<Field>)
  {
    && k <= |fields| && done + FieldLeaves(fields[k..], route) == FieldLeaves(fields, route)
    && now == start.Then(Scan(engine, dir, done)) && out == MaskedFields(engine, dir, fields[..k])
  }

  lemma NoFieldWalked(engine: Engine, dir: Direction, fields: seq<Field>, route: Route, start: Trace)
    ensures FieldsWalked(engine, dir, fields, route, start, 0, [], start, [])
  {
    ThenUntouched(start);
    assert fields[0..] == fields && fields[..0] == [];
    assert [] + FieldLeaves(fields, route) == FieldLeaves(fields, route);
  }

  lemma FieldWalked(engine: Engine, dir: Direction, fields: seq<Field>, route: Route, start: Trace, k: nat,
                    done: seq<Leaf>, mid: Trace, out: seq<Field>, part: seq<Leaf>, now: Trace)
    requires k < |fields| && DistinctKeys(fields) && FieldsWalked(engine, dir, fields, route, start, k, done, mid, out)
    requires part == Leaves(fields[k].value, route + [Key(fields[k].key)]) && now == mid.Then(Scan(engine, dir, part))
    ensures FieldsWalked(engine, dir, fields, route, start, k + 1, done + part, now,
                         Put(out, fields[k].key, Masked(engine, dir, fields[k].value)))
    ensures now.failed ==> now == start.Then(Scan(engine, dir, FieldLeaves(fields, route)))
  {
    NextField(fields, route, k, done);
    WalkedPart(engine, dir, start, done, part, FieldLeaves(fields[k + 1..], route), mid, now);
    NextMaskedField(engine, dir, fields, k);
  }

  lemma AllFieldsWalked(engine: Engine, dir: Direction, fields: seq<Field>, route: Route, start: Trace,
                        done: seq<Leaf>, now: Trace, out: seq<Field>)
    requires FieldsWalked(engine, dir, fields, route, start, |fields|, done, now, out)
    ensures now == start.Then(Scan(engine, dir, FieldLeaves(fields, route))) && out == MaskedFields(engine, dir, fields)
  {
    assert fields[..|fields|] == fields && done + [] == done;
  }

  /** The same for the first `k` items of a list. */
  ghost predicate ItemsWalked(engine: Engine, dir: Direction, items: seq<Json>, route: Route, start: Trace, k: nat,
                              done: seq<Leaf>, now: Trace, out: seq<Json>)
  {
    && k <= |items| && done + ItemLeaves(items[k..], route, k) == ItemLeaves(items, route, 0)
    && now == start.Then(Scan(engine, dir, done)) && out == MaskedItems(engine, dir, items[..k])
  }

  lemma NoItemWalked(engine: Engine, dir: Direction, items: seq<Json>, route: Route, start: Trace)
    ensures ItemsWalked(engine, dir, items, route, start, 0, [], start, [])
  {
    ThenUntouched(start);
    assert items[0..] == items && items[..0] == [];
    assert [] + ItemLeaves(items, route, 0) == ItemLeaves(items, route, 0);
  }

  lemma ItemWalked(engine: Engine, dir: Direction, items: seq<Json>, route: Route, start: Trace, k: nat,
                   done: seq<Leaf>, mid: Trace, out: seq<Json>, part: seq<Leaf>, now: Trace)
    requires k < |items| && ItemsWalked(engine, dir, items, route, start, k, done, mid, out)
    requires part == Leaves(items[k], route + [Index(k)]) && now == mid.Then(Scan(engine, dir, part))
    ensures ItemsWalked(engine, dir, items, route, start, k + 1, done + part, now, out + [Masked(engine, dir, items[k])])
    ensures now.failed ==> now == start.Then(Scan(engine, dir, ItemLeaves(items, route, 0)))
  {
    NextItem(items, route, k, done);
    WalkedPart(engine, dir, start, done, part, ItemLeaves(items[k + 1..], route, k + 1), mid, now);
    NextMaskedItem(engine, dir, items, k);
  }

  lemma AllItemsWalked(engine: Engine, dir: Direction, items: seq<Json>, route: Route, start: Trace,
                       done: seq<Leaf>, now: Trace, out: seq<Json>)
    requires ItemsWalked(engine, dir, items, route, start, |items|, done, now, out)
    ensures now == start.Then(Scan(engine, dir, ItemLeaves(items, route, 0))) && out == MaskedItems(engine, dir, items)
  {
    assert items[..|items|] == items && done + [] == done;
  }

  // ------------------------------------------------------------------
  // The walkers
  // ------------------------------------------------------------------

  /** The accumulators a walk appends to. */
  class Recorder {
    var fields: seq<string>
    var events: seq<MaskingEvent>
    ghost var calls: seq<string>

    constructor ()
      ensures Seen(false) == UNTOUCHED
    {
      fields, events, calls := [], [], [];
    }

    ghost function Seen(failed: bool): Trace
      reads this
    {
      Trace(calls, fields, events, failed)
    }
  }

  method WalkAndMask(engine: Engine, obj: Json, path: string, ghost route: Route, rec: Recorder)
    returns (r: Result<Json, ()>)
    requires obj.WellFormed() && path == Print(route)
    modifies rec
    ensures rec.Seen(r.Err?) == old(rec.Seen(false)).Then(Scan(engine, Request, Leaves(obj, route)))
    ensures r.Ok? ==> r.value == Masked(engine, Request, obj)
    decreases obj
  {
    ghost var start := rec.Seen(false);
    match obj
    case JString(s) =>
      ScanSingle(engine, Request, Leaf(route, s));
      rec.calls := rec.calls + [s];
      match engine(s, Request) {
        case EngineError => return Err(());
        case Answer(maskedText, events, hasMasked) =>
          if hasMasked {
            var fieldPath := if path != "" then path else "<root>";
            rec.fields := rec.fields + [fieldPath];
            rec.events := rec.events + events;
            return Ok(JString(maskedText));
          }
          return Ok(obj);
      }
    case JObject(fields) =>
      var newDict: seq<Field> := [];
      ghost var done: seq<Leaf> := [];
      NoFieldWalked(engine, Request, fields, route, start);
      var k := 0;
      while k < |fields|
        invariant FieldsWalked(engine, Request, fields, route, start, k, done, rec.Seen(false), newDict)
      {
        var f := fields[k];
        assert f in fields;
        var childPath := if path != "" then path + "." + f.key else f.key;
        PrintExtends(route, Key(f.key));
        ghost var part := Leaves(f.value, route + [Key(f.key)]);
        ghost var mid := rec.Seen(false);
        var child := WalkAndMask(engine, f.value, childPath, route + [Key(f.key)], rec);
        FieldWalked(engine, Request, fields, route, start, k, done, mid, newDict, part, rec.Seen(child.Err?));
        if child.Err? {
          return child;
        }
        newDict := Put(newDict, f.key, child.value);
        done := done + part;
        k := k + 1;
      }
      AllFieldsWalked(engine, Request, fields, route, start, done, rec.Seen(false), newDict);
      return Ok(JObject(newDict));
    case JArray(items) =>
      var newList: seq<Json> := [];
      ghost var done: seq<Leaf> := [];
      NoItemWalked(engine, Request, items, route, start);
      var k := 0;
      while k < |items|
        invariant ItemsWalked(engine, Request, items, route, start, k, done, rec.Seen(false), newList)
      {
        var childPath := path + "[" + Decimal(k) + "]";
        PrintExtends(route, Index(k));
        ghost var part := Leaves(items[k], route + [Index(k)]);
        ghost var mid := rec.Seen(false);
        assert items[k] in items;
        var child := WalkAndMask(engine, items[k], childPath, route + [Index(k)], rec);
        ItemWalked(engine, Request, items, route, start, k, done, mid, newList, part, rec.Seen(child.Err?));
        if child.Err? {
          return child;
        }
        newList := newList + [child.value];
        done := done + part;
        k := k + 1;
      }
      AllItemsWalked(engine, Request, items, route, start, done, rec.Seen(false), newList);
      return Ok(JArray(newList));
    case _ => return Ok(obj);
  }

  /** The response walker: written separately, records bare paths and drops the events. */
  method MaskRecursive(engine: Engine, value: Json, path: string, ghost route: Route, rec: Recorder)
    returns (r: Result<Json, ()>)
    requires value.WellFormed() && path == Print(route)
    modifies rec
    ensures rec.Seen(r.Err?) == old(rec.Seen(false)).Then(Scan(engine, Response, Leaves(value, route)))
    ensures r.Ok? ==> r.value == Masked(engine, Response, value)
    decreases value
  {
    ghost var start := rec.Seen(false);
    match value
    case JString(s) =>
      ScanSingle(engine, Response, Leaf(route, s));
      assert start.events + [] == start.events && start.fields + [] == start.fields;
      rec.calls := rec.calls + [s];
      match engine(s, Response) {
        case EngineError => return Err(());
        case Answer(maskedText, _, hasMasked) =>
          if hasMasked {
            rec.fields := rec.fields + [path];
            return Ok(JString(maskedText));
          }
          return Ok(value);
      }
    case JObject(fields) =>
      var newDict: seq<Field> := [];
      ghost var done: seq<Leaf> := [];
      NoFieldWalked(engine, Response, fields, route, start);
      var n := 0;
      while n < |fields|
        invariant FieldsWalked(engine, Response, fields, route, start, n, done, rec.Seen(false), newDict)
      {
        var k, v := fields[n].key, fields[n].value;
        assert fields[n] in fields;
        var childPath := if path != "" then path + "." + k else k;
        PrintExtends(route, Key(k));
        ghost var part := Leaves(v, route + [Key(k)]);
        ghost var mid := rec.Seen(false);
        var child := MaskRecursive(engine, v, childPath, route + [Key(k)], rec);
        FieldWalked(engine, Response, fields, route, start, n, done, mid, newDict, part, rec.Seen(child.Err?));
        if child.Err? {
          return child;
        }
        newDict := Put(newDict, k, child.value);
        done := done + part;
        n := n + 1;
      }
      AllFieldsWalked(engine, Response, fields, route, start, done, rec.Seen(false), newDict);
      return Ok(JObject(newDict));
    case JArray(items) =>
      var newList: seq<Json> := [];
      ghost var done: seq<Leaf> := [];
      NoItemWalked(engine, Response, items, route, start);
      var i := 0;
      while i < |items|
        invariant ItemsWalked(engine, Response, items, route, start, i, done, rec.Seen(false), newList)
      {
        var childPath := path + "[" + Decimal(i) + "]";
        PrintExtends(route, Index(i));
        ghost var part := Leaves(items[i], route + [Index(i)]);
        ghost var mid := rec.Seen(false);
        assert items[i] in items;
        var child := MaskRecursive(engine, items[i], childPath, route + [Index(i)], rec);
        ItemWalked(engine, Response, items, route, start, i, done, mid, newList, part, rec.Seen(child.Err?));
        if child.Err? {
          return child;
        }
        newList := newList + [child.value];
        done := done + part;
        i := i + 1;
      }
      AllItemsWalked(engine, Response, items, route, start, done, rec.Seen(false), newList);
      return Ok(JArray(newList));
    case _ => return Ok(value);
  }

  // ------------------------------------------------------------------
  // What the flat description says
  // ------------------------------------------------------------------

  predicate IsFlagged(engine: Engine, dir: Direction, leaf: Leaf) {
    var a := engine(leaf.text, dir);
    a.Answer? && a.hasMasked
  }

  function Flagged(engine: Engine, dir: Direction, leaves: seq<Leaf>): seq<Leaf> {
    if leaves == [] then []
    else (if IsFlagged(engine, dir, leaves[0]) then [leaves[0]] else []) + Flagged(engine, dir, leaves[1..])
  }

  /** The printed paths of the flagged leaves, in order; the request walker writes `<root>` for the empty path. */
  ghost predicate AreLabelsOf(labels: seq<string>, dir: Direction, flagged: seq<Leaf>) {
    && |labels| == |flagged|
    && forall i :: 0 <= i < |flagged| ==>
         labels[i] == if dir == Request && Print(flagged[i].route) == "" then "<root>" else Print(flagged[i].route)
  }

  /** The engine's events for these leaves, one after another. */
  function EventsOf(engine: Engine, leaves: seq<Leaf>): seq<MaskingEvent>
    requires forall leaf | leaf in leaves :: engine(leaf.text, Request).Answer?
  {
    if leaves == [] then [] else engine(leaves[0].text, Request).events + EventsOf(engine, leaves[1..])
  }

  lemma {:induction false} FlaggedAre(engine: Engine, dir: Direction, leaves: seq<Leaf>)
    ensures forall leaf :: leaf in Flagged(engine, dir, leaves) <==> leaf in leaves && IsFlagged(engine, dir, leaf)
  {
    if leaves == [] {
    } else {
      FlaggedAre(engine, dir, leaves[1..]);
      assert leaves == [leaves[0]] + leaves[1..];
    }
  }

  /** A record of flagged leaves: their labels, and for a request their events. */
  ghost predicate RecordsOf(engine: Engine, dir: Direction, flagged: seq<Leaf>, t: Trace) {
    && AreLabelsOf(t.fields, dir, flagged)
    && (dir == Response ==> t.events == [])
    && (dir == Request ==> (forall leaf | leaf in flagged :: engine(leaf.text, Request).Answer?)
                           && t.events == EventsOf(engine, flagged))
  }

  /** What a walk records of the leaves it got past. */
  ghost predicate Records(engine: Engine, dir: Direction, leaves: seq<Leaf>, t: Trace) {
    RecordsOf(engine, dir, Flagged(engine, dir, leaves), t)
  }

  /** A scan gets past its first `n` leaves and, if it fails, fails at the next. */
  ghost predicate Visits(engine: Engine, dir: Direction, leaves: seq<Leaf>, t: Trace, n: nat) {
    && n <= |leaves|
    && (forall i :: 0 <= i < n ==> engine(leaves[i].text, dir).Answer?)
    && (if t.failed then n < |leaves| && engine(leaves[n].text, dir).EngineError? && |t.calls| == n + 1
        else n == |leaves| && |t.calls| == n)
    && (forall i :: 0 <= i < |t.calls| ==> t.calls[i] == leaves[i].text)
  }

  lemma {:induction false} ScanVisits(engine: Engine, dir: Direction, leaves: seq<Leaf>) returns (n: nat)
    ensures Visits(engine, dir, leaves, Scan(engine, dir, leaves), n)
  {
    if leaves == [] {
      n := 0;
    } else {
      var m := ScanVisits(engine, dir, leaves[1..]);
      n := if engine(leaves[0].text, dir).Answer? then m + 1 else 0;
      var t, rest := Scan(engine, dir, leaves), Scan(engine, dir, leaves[1..]);
      if engine(leaves[0].text, dir).Answer? {
        assert t.calls == [leaves[0].text] + rest.calls && t.failed == rest.failed;
        assert forall i :: 0 < i < |leaves| ==> leaves[i] == leaves[1..][i - 1];
      }
    }
  }

  lemma {:induction false} ScanRecords(engine: Engine, dir: Direction, leaves: seq<Leaf>, n: nat)
    requires Visits(engine, dir, leaves, Scan(engine, dir, leaves), n)
    ensures Records(engine, dir, leaves[..n], Scan(engine, dir, leaves))
  {
    if leaves != [] && n > 0 {
      var t, rest := Scan(engine, dir, leaves), Scan(engine, dir, leaves[1..]);
      assert t.calls == [leaves[0].text] + rest.calls && t.failed == rest.failed;
      assert forall i :: 0 < i < |leaves| ==> leaves[i] == leaves[1..][i - 1];
      ScanRecords(engine, dir, leaves[1..], n - 1);
      assert leaves[..n][1..] == leaves[1..][..n - 1];
      OneMoreRecord(engine, dir, leaves[..n], rest, t);
    }
  }

  lemma FlaggedRecord(engine: Engine, dir: Direction, leaf: Leaf, flagged: seq<Leaf>, rest: Trace, t: Trace)
    requires IsFlagged(engine, dir, leaf) && RecordsOf(engine, dir, flagged, rest) && t == ScanOne(engine, dir, leaf).Then(rest)
    ensures RecordsOf(engine, dir, [leaf] + flagged, t)
  {
    assert ([leaf] + flagged)[1..] == flagged;
  }

  lemma OneMoreRecord(engine: Engine, dir: Direction, leaves: seq<Leaf>, rest: Trace, t: Trace)
    requires leaves != [] && engine(leaves[0].text, dir).Answer? && Records(engine, dir, leaves[1..], rest)
    requires t == ScanOne(engine, dir, leaves[0]).Then(rest)
    ensures Records(engine, dir, leaves, t)
  {
    var flagged := Flagged(engine, dir, leaves[1..]);
    if IsFlagged(engine, dir, leaves[0]) {
      assert Flagged(engine, dir, leaves) == [leaves[0]] + flagged;
      FlaggedRecord(engine, dir, leaves[0], flagged, rest, t);
    } else {
      assert Flagged(engine, dir, leaves) == flagged && t.fields == rest.fields && t.events == rest.events;
    }
  }

  /**
   Every leaf goes to the engine exactly once, in order, up to and including the first that fails;
   the recorded fields are the labels of the flagged leaves before it, and the recorded events theirs, in order.
   */
  lemma ScanVisitsEachLeafOnce(engine: Engine, dir: Direction, leaves: seq<Leaf>)
    ensures var t := Scan(engine, dir, leaves);
            exists n: nat :: Visits(engine, dir, leaves, t, n) && Records(engine, dir, leaves[..n], t)
  {
    var n := ScanVisits(engine, dir, leaves);
    ScanRecords(engine, dir, leaves, n);
  }

  function ReplaceTexts(engine: Engine, dir: Direction, leaves: seq<Leaf>): (r: seq<Leaf>)
    ensures |r| == |leaves|
    ensures forall i :: 0 <= i < |leaves| ==>
              r[i] == Leaf(leaves[i].route, Replacement(engine, dir, leaves[i].text))
  {
    if leaves == [] then []
    else [Leaf(leaves[0].route, Replacement(engine, dir, leaves[0].text))] + ReplaceTexts(engine, dir, leaves[1..])
  }

  lemma ReplaceConcat(engine: Engine, dir: Direction, a: seq<Leaf>, b: seq<Leaf>)
    ensures ReplaceTexts(engine, dir, a + b) == ReplaceTexts(engine, dir, a) + ReplaceTexts(engine, dir, b)
  {
  }

  /** The tree with every string blanked: keys, lengths and all other leaves. */
  function Skeleton(j: Json): Json
    decreases j, 0
  {
    match j
    case JString(_) => JString("")
    case JArray(items) => JArray(SkeletonItems(items))
    case JObject(fields) => JObject(SkeletonFields(fields))
    case _ => j
  }

  function SkeletonItems(items: seq<Json>): (r: seq<Json>)
    ensures |r| == |items|
    decreases items, 1
  {
    if items == [] then [] else [Skeleton(items[0])] + SkeletonItems(items[1..])
  }

  function SkeletonFields(fields: seq<Field>): (r: seq<Field>)
    ensures |r| == |fields|
    decreases fields, 1
  {
    if fields == [] then []
    else [Field(fields[0].key, Skeleton(fields[0].value))] + SkeletonFields(fields[1..])
  }

  /** Masking keeps the skeleton and rewrites exactly the leaves, each in its place. */
  lemma {:induction false} MaskingKeepsShape(engine: Engine, dir: Direction, j: Json, route: Route)
    ensures Skeleton(Masked(engine, dir, j)) == Skeleton(j)
    ensures Leaves(Masked(engine, dir, j), route) == ReplaceTexts(engine, dir, Leaves(j, route))
    decreases j, 0
  {
    match j
    case JArray(items) => MaskingKeepsItems(engine, dir, items, route, 0);
    case JObject(fields) => MaskingKeepsFields(engine, dir, fields, route);
    case _ =>
  }

  lemma {:induction false} MaskingKeepsItems(engine: Engine, dir: Direction, items: seq<Json>, route: Route, first: nat)
    ensures SkeletonItems(MaskedItems(engine, dir, items)) == SkeletonItems(items)
    ensures ItemLeaves(MaskedItems(engine, dir, items), route, first)
         == ReplaceTexts(engine, dir, ItemLeaves(items, route, first))
    decreases items, 1
  {
    if items == [] {
    } else {
      var m, rest := Masked(engine, dir, items[0]), MaskedItems(engine, dir, items[1..]);
      assert MaskedItems(engine, dir, items) == [m] + rest && ([m] + rest)[0] == m && ([m] + rest)[1..] == rest;
      MaskingKeepsShape(engine, dir, items[0], route + [Index(first)]);
      MaskingKeepsItems(engine, dir, items[1..], route, first + 1);
      ReplaceConcat(engine, dir, Leaves(items[0], route + [Index(first)]), ItemLeaves(items[1..], route, first + 1));
    }
  }

  lemma {:induction false} MaskingKeepsFields(engine: Engine, dir: Direction, fields: seq<Field>, route: Route)
    ensures SkeletonFields(MaskedFields(engine, dir, fields)) == SkeletonFields(fields)
    ensures FieldLeaves(MaskedFields(engine, dir, fields), route)
         == ReplaceTexts(engine, dir, FieldLeaves(fields, route))
    decreases fields, 1
  {
    if fields == [] {
    } else {
      var f := fields[0];
      var m, rest := Field(f.key, Masked(engine, dir, f.value)), MaskedFields(engine, dir, fields[1..]);
      assert MaskedFields(engine, dir, fields) == [m] + rest && ([m] + rest)[0] == m && ([m] + rest)[1..] == rest;
      MaskingKeepsShape(engine, dir, f.value, route + [Key(f.key)]);
      MaskingKeepsFields(engine, dir, fields[1..], route);
      ReplaceConcat(engine, dir, Leaves(f.value, route + [Key(f.key)]), FieldLeaves(fields[1..], route));
    }
  }

  /** A leaf after a walk that the engine never failed: the engine's text if it flagged the leaf, the old text if not. */
  predicate Rewritten(engine: Engine, dir: Direction, before: Leaf, after: Leaf) {
    && after.route == before.route
    && match engine(before.text, dir) {
      case EngineError => false
      case Answer(maskedText, _, hasMasked) => after.text == if hasMasked then maskedText else before.text
    }
  }

  /** The leaves of one tree are those of another, each rewritten by the engine. */
  ghost predicate AllRewritten(engine: Engine, dir: Direction, before: Json, after: Json) {
    && |Leaves(after, [])| == |Leaves(before, [])|
    && forall i :: 0 <= i < |Leaves(before, [])| ==> Rewritten(engine, dir, Leaves(before, [])[i], Leaves(after, [])[i])
  }

  /** A completed walk rewrites every leaf as the engine answered for it, leaf by leaf. */
  lemma MaskedLeavesAreTheEnginesAnswers(engine: Engine, dir: Direction, j: Json)
    requires !Scan(engine, dir, Leaves(j, [])).failed
    ensures AllRewritten(engine, dir, j, Masked(engine, dir, j))
  {
    var n := ScanVisits(engine, dir, Leaves(j, []));
    MaskingKeepsShape(engine, dir, j, []);
  }

  /** A skeleton and the leaf texts determine the tree, so the previous lemma describes the masked tree completely. */
  lemma {:induction false} TreeIsSkeletonAndLeaves(a: Json, b: Json, route: Route)
    requires Skeleton(a) == Skeleton(b)
    ensures |Leaves(a, route)| == |Leaves(b, route)|
    ensures Leaves(a, route) == Leaves(b, route) ==> a == b
    decreases a, 0
  {
    match a
    case JArray(items) => ItemsAreSkeletonAndLeaves(items, b.items, route, 0);
    case JObject(fields) => FieldsAreSkeletonAndLeaves(fields, b.fields, route);
    case _ =>
  }

  lemma {:induction false} ItemsAreSkeletonAndLeaves(a: seq<Json>, b: seq<Json>, route: Route, first: nat)
    requires SkeletonItems(a) == SkeletonItems(b)
    ensures |ItemLeaves(a, route, first)| == |ItemLeaves(b, route, first)|
    ensures ItemLeaves(a, route, first) == ItemLeaves(b, route, first) ==> a == b
    decreases a, 1
  {
    assert |a| == |b|;
    if a == [] {
    } else {
      assert SkeletonItems(a)[0] == SkeletonItems(b)[0];
      assert SkeletonItems(a)[1..] == SkeletonItems(a[1..]) && SkeletonItems(b)[1..] == SkeletonItems(b[1..]);
      TreeIsSkeletonAndLeaves(a[0], b[0], route + [Index(first)]);
      ItemsAreSkeletonAndLeaves(a[1..], b[1..], route, first + 1);
      var x, y := Leaves(a[0], route + [Index(first)]), Leaves(b[0], route + [Index(first)]);
      if ItemLeaves(a, route, first) == ItemLeaves(b, route, first) {
        assert x == ItemLeaves(a, route, first)[..|x|] && y == ItemLeaves(b, route, first)[..|y|];
        assert ItemLeaves(a[1..], route, first + 1) == ItemLeaves(a, route, first)[|x|..];
        assert ItemLeaves(b[1..], route, first + 1) == ItemLeaves(b, route, first)[|y|..];
        assert a == [a[0]] + a[1..] && b == [b[0]] + b[1..];
      }
    }
  }

  lemma {:induction false} FieldsAreSkeletonAndLeaves(a: seq<Field>, b: seq<Field>, route: Route)
    requires SkeletonFields(a) == SkeletonFields(b)
    ensures |FieldLeaves(a, route)| == |FieldLeaves(b, route)|
    ensures FieldLeaves(a, route) == FieldLeaves(b, route) ==> a == b
    decreases a, 1
  {
    assert |a| == |b|;
    if a == [] {
    } else {
      assert SkeletonFields(a)[0] == SkeletonFields(b)[0];
      assert SkeletonFields(a)[1..] == SkeletonFields(a[1..]) && SkeletonFields(b)[1..] == SkeletonFields(b[1..]);
      TreeIsSkeletonAndLeaves(a[0].value, b[0].value, route + [Key(a[0].key)]);
      FieldsAreSkeletonAndLeaves(a[1..], b[1..], route);
      var x, y := Leaves(a[0].value, route + [Key(a[0].key)]), Leaves(b[0].value, route + [Key(b[0].key)]);
      if FieldLeaves(a, route) == FieldLeaves(b, route) {
        assert x == FieldLeaves(a, route)[..|x|] && y == FieldLeaves(b, route)[..|y|];
        assert FieldLeaves(a[1..], route) == FieldLeaves(a, route)[|x|..];
        assert FieldLeaves(b[1..], route) == FieldLeaves(b, route)[|y|..];
        assert a == [a[0]] + a[1..] && b == [b[0]] + b[1..];
      }
    }
  }

  lemma {:induction false} NoneFlaggedNoneReplaced(engine: Engine, dir: Direction, leaves: seq<Leaf>)
    requires Flagged(engine, dir, leaves) == []
    ensures ReplaceTexts(engine, dir, leaves) == leaves
  {
    if leaves == [] {
    } else {
      NoneFlaggedNoneReplaced(engine, dir, leaves[1..]);
    }
  }

  /** A completed walk that recorded no field returned the payload unchanged: the conditional `evolve` loses nothing. */
  lemma NothingRecordedNothingChanged(engine: Engine, dir: Direction, j: Json)
    requires !Scan(engine, dir, Leaves(j, [])).failed
    requires Scan(engine, dir, Leaves(j, [])).fields == []
    ensures Masked(engine, dir, j) == j
  {
    ScanVisitsEachLeafOnce(engine, dir, Leaves(j, []));
    assert Leaves(j, [])[..|Leaves(j, [])|] == Leaves(j, []);
    NoneFlaggedNoneReplaced(engine, dir, Leaves(j, []));
    MaskingKeepsShape(engine, dir, j, []);
    TreeIsSkeletonAndLeaves(Masked(engine, dir, j), j, []);
  }

  /** With an engine that ignores the direction, both walkers produce one tree from the same calls. */
  lemma WalkersAgree(engine: Engine, j: Json)
    requires forall s :: engine(s, Request) == engine(s, Response)
    ensures Masked(engine, Request, j) == Masked(engine, Response, j)
    ensures var p, q := Scan(engine, Request, Leaves(j, [])), Scan(engine, Response, Leaves(j, []));
            p.calls == q.calls && p.failed == q.failed && |p.fields| == |q.fields|
  {
    MaskingKeepsShape(engine, Request, j, []);
    MaskingKeepsShape(engine, Response, j, []);
    TreeIsSkeletonAndLeaves(Masked(engine, Request, j), Masked(engine, Response, j), []);
    ScansAgree(engine, Leaves(j, []));
  }

  lemma {:induction false} ScansAgree(engine: Engine, leaves: seq<Leaf>)
    requires forall s :: engine(s, Request) == engine(s, Response)
    ensures var p, q := Scan(engine, Request, leaves), Scan(engine, Response, leaves);
            p.calls == q.calls && p.failed == q.failed && |p.fields| == |q.fields|
  {
    if leaves == [] {
    } else {
      ScansAgree(engine, leaves[1..]);
    }
  }
}
