/**
 The printed field paths: when they name a leaf unambiguously.

 A key is safe if it is non-empty, holds no '.', and does not end in a printed list index. Over safe keys a
 decoder reading from the right recovers the route; and every unsafe key occurs in a tree where two leaves
 print the same path, so the class of safe keys cannot be enlarged.
 */
module LeafPaths {
  import opened Prelude
  import opened Text
  import opened Json
  import opened MaskingWalkers

  lemma BracketsCut(path: string, open: nat)
    requires open < |path| - 1 && path[open] == '[' && path[|path| - 1] == ']'
    ensures path == path[..open] + "[" + path[open + 1..|path| - 1] + "]"
  {
    assert path[..open] + "[" == path[..open + 1];
  }

  /** `path` cut before a trailing "[n]" with n printed in plain decimal. */
  function TrailingIndex(path: string): (r: Option<(string, nat)>)
    ensures r.Some? ==> path == r.value.0 + "[" + Decimal(r.value.1) + "]"
  {
    var open := LastIndex('[', path);
    if |path| < 2 || path[|path| - 1] != ']' || open < 0 || open == |path| - 1 then None
    else
      var inner := path[open + 1..|path| - 1];
      var n := Value(inner);
      if n >= 0 && inner == Decimal(n) then
        BracketsCut(path, open);
        Some((path[..open], n))
      else None
  }

  lemma Regroup(a: string, b: string, c: string)
    ensures (a + b) + c == a + (b + c)
  {
  }

  lemma LastIndexAfter(c: char, prefix: string, mark: string, rest: string)
    requires mark == [c] && c !in rest
    ensures LastIndex(c, prefix + mark + rest) == |prefix|
  {
    var s := prefix + mark + rest;
    assert s[|prefix|] == c;
    assert forall k :: |prefix| < k < |s| ==> s[k] == rest[k - |prefix| - 1];
    forall k | 0 < k <= |prefix| ensures c in s[k..] {
      assert s[k..][|prefix| - k] == c;
    }
  }

  lemma DigitsHaveNoBracket(digits: string)
    requires forall i :: 0 <= i < |digits| ==> IsDigit(digits[i])
    ensures '[' !in digits && '.' !in digits
  {
  }

  lemma OpenBracketIsLast(prefix: string, digits: string)
    requires '[' !in digits
    ensures LastIndex('[', prefix + "[" + digits + "]") == |prefix|
  {
    LastIndexAfter('[', prefix, "[", digits + "]");
    Regroup(prefix + "[", digits, "]");
  }

  lemma TrailingIndexFinds(prefix: string, n: nat)
    ensures TrailingIndex(prefix + "[" + Decimal(n) + "]") == Some((prefix, n))
  {
    var digits := Decimal(n);
    var path := prefix + "[" + digits + "]";
    DecimalIsReadBack(n);
    DigitsHaveNoBracket(digits);
    OpenBracketIsLast(prefix, digits);
    assert path[..|prefix|] == prefix && path[|prefix| + 1..|path| - 1] == digits;
  }

  predicate SafeKey(key: string) {
    key != "" && '.' !in key && TrailingIndex(key).None?
  }

  predicate SafeRoute(route: Route) {
    forall i :: 0 <= i < |route| ==> route[i].Key? ==> SafeKey(route[i].name)
  }

  lemma {:induction false} PrintedRouteIsNonEmpty(route: Route)
    requires SafeRoute(route) && route != []
    ensures Print(route) != ""
  {
  }

  /** Reads a printed path back, last step first. */
  function Decode(path: string): Route {
    if path == "" then []
    else
      match TrailingIndex(path)
      case Some((prefix, n)) => Decode(prefix) + [Index(n)]
      case None =>
        var dot := LastIndex('.', path);
        if dot < 0 then [Key(path)] else Decode(path[..dot]) + [Key(path[dot + 1..])]
  }

  /** Of two cuts of one text, the shorter tail is a suffix of the longer. */
  lemma TailsNest(a: string, x: string, b: string, y: string)
    requires a + x == b + y && |y| <= |x|
    ensures x == x[..|x| - |y|] + y
  {
    assert x == (a + x)[|a|..];
    assert y == (b + y)[|b|..];
    assert x[|x| - |y|..] == y;
  }

  /** A dotless tail of "prefix.key" lies within the key. */
  lemma TailWithinKey(prefix: string, key: string, cut: string, tail: string)
    requires '.' !in tail && prefix + (['.'] + key) == cut + tail
    ensures |tail| <= |key| && key == key[..|key| - |tail|] + tail
  {
    var dotted := ['.'] + key;
    if |tail| > |key| {
      TailsNest(cut, tail, prefix, dotted);
      assert false;
    }
    TailsNest(prefix, dotted, cut, tail);
    assert dotted[1..] == key;
    assert key == dotted[..|dotted| - |tail|][1..] + tail;
    assert dotted[..|dotted| - |tail|][1..] == key[..|key| - |tail|];
  }

  lemma IndexWithinKey(prefix: string, key: string, cut: string, n: nat, tail: string)
    requires tail == "[" + Decimal(n) + "]" && prefix + (['.'] + key) == cut + tail
    ensures TrailingIndex(key).Some?
  {
    DotlessIndex(n);
    TailWithinKey(prefix, key, cut, tail);
    var front := key[..|key| - |tail|];
    assert front + "[" + Decimal(n) + "]" == front + tail == key;
    TrailingIndexFinds(front, n);
  }

  lemma TrailingIndexCuts(path: string) returns (cut: string, n: nat, tail: string)
    requires TrailingIndex(path).Some?
    ensures tail == "[" + Decimal(n) + "]" && path == cut + tail
  {
    cut, n := TrailingIndex(path).value.0, TrailingIndex(path).value.1;
    tail := "[" + Decimal(n) + "]";
    assert cut + "[" + Decimal(n) + "]" == cut + tail;
  }

  /** A key printed after a prefix does not create a trailing index that the key itself lacks. */
  lemma KeyHidesIndex(prefix: string, key: string)
    requires TrailingIndex(key).None?
    ensures TrailingIndex(prefix + "." + key).None?
  {
    var path := prefix + "." + key;
    assert path == prefix + (['.'] + key);
    if TrailingIndex(path).Some? {
      var cut, n, tail := TrailingIndexCuts(path);
      IndexWithinKey(prefix, key, cut, n, tail);
    }
  }

  lemma DotlessIndex(n: nat)
    ensures '.' !in "[" + Decimal(n) + "]"
  {
    DecimalIsReadBack(n);
  }

  /** The last '.' of a printed path is the one before its last key. */
  lemma LastDot(prefix: string, key: string)
    requires '.' !in key
    ensures LastIndex('.', prefix + "." + key) == |prefix|
  {
    LastIndexAfter('.', prefix, ".", key);
  }

  /** The decoder recovers the route of every leaf reached through safe keys. */
  lemma {:induction false} DecodeRecoversRoute(route: Route)
    requires SafeRoute(route)
    ensures Decode(Print(route)) == route
    decreases |route|
  {
    if route == [] {
    } else {
      var front, last := route[..|route| - 1], route[|route| - 1];
      DecodeRecoversRoute(front);
      assert route == front + [last];
      var path := Print(route);
      assert path == Extend(Print(front), last);
      match last
      case Index(i) => TrailingIndexFinds(Print(front), i);
      case Key(name) => DecodeKey(front, name);
    }
  }

  lemma DecodeKey(front: Route, name: string)
    requires SafeRoute(front) && SafeKey(name) && Decode(Print(front)) == front
    ensures Decode(Extend(Print(front), Key(name))) == front + [Key(name)]
  {
    if front == [] {
      assert LastIndex('.', name) == -1;
    } else {
      PrintedRouteIsNonEmpty(front);
      var prefix := Print(front);
      var path := prefix + "." + name;
      KeyHidesIndex(prefix, name);
      LastDot(prefix, name);
      assert path[..|prefix|] == prefix && path[|prefix| + 1..] == name;
    }
  }

  // ------------------------------------------------------------------
  // From routes to trees
  // ------------------------------------------------------------------

  ghost predicate SafeTree(j: Json) {
    match j
    case JArray(items) => forall x | x in items :: SafeTree(x)
    case JObject(fields) => forall f: Field | f in fields :: SafeKey(f.key) && SafeTree(f.value)
    case _ => true
  }

  ghost predicate Under(leaf: Leaf, route: Route) {
    |route| <= |leaf.route| && leaf.route[..|route|] == route && SafeRoute(leaf.route[|route|..])
  }

  /** Distinct positions in the leaf list have distinct routes. */
  ghost predicate DistinctRoutes(leaves: seq<Leaf>) {
    forall i, j :: 0 <= i < j < |leaves| ==> leaves[i].route != leaves[j].route
  }

  /** Every leaf lies below the root it was listed from, through safe keys, and no two leaves share a route. */
  lemma {:induction false} LeavesHaveDistinctRoutes(j: Json, route: Route)
    requires j.WellFormed() && SafeTree(j)
    ensures forall i :: 0 <= i < |Leaves(j, route)| ==> Under(Leaves(j, route)[i], route)
    ensures DistinctRoutes(Leaves(j, route))
    decreases j, 0
  {
    match j
    case JArray(items) => ItemsHaveDistinctRoutes(items, route, 0);
    case JObject(fields) => FieldsHaveDistinctRoutes(fields, route);
    case _ =>
  }

  lemma UnderStep(leaf: Leaf, route: Route, step: Step)
    requires Under(leaf, route + [step]) && (step.Key? ==> SafeKey(step.name))
    ensures Under(leaf, route) && |leaf.route| > |route| && leaf.route[|route|] == step
  {
    assert leaf.route[..|route|] == (route + [step])[..|route|];
    assert leaf.route[..|route| + 1][|route|] == step;
    var rest := leaf.route[|route|..];
    assert forall i :: 1 <= i < |rest| ==> rest[i] == leaf.route[|route| + 1..][i - 1];
  }

  lemma {:induction false} ItemsHaveDistinctRoutes(items: seq<Json>, route: Route, first: nat)
    requires forall x | x in items :: x.WellFormed() && SafeTree(x)
    ensures var ls := ItemLeaves(items, route, first);
            && DistinctRoutes(ls)
            && forall i :: 0 <= i < |ls| ==>
                 Under(ls[i], route) && |ls[i].route| > |route|
                 && ls[i].route[|route|].Index? && ls[i].route[|route|].i >= first
    decreases items, 1
  {
    if items == [] {
    } else {
      var step := Index(first);
      var head, tail := Leaves(items[0], route + [step]), ItemLeaves(items[1..], route, first + 1);
      LeavesHaveDistinctRoutes(items[0], route + [step]);
      ItemsHaveDistinctRoutes(items[1..], route, first + 1);
      forall i | 0 <= i < |head|
        ensures Under(head[i], route) && |head[i].route| > |route| && head[i].route[|route|] == step
      {
        UnderStep(head[i], route, step);
      }
    }
  }

  /** The leaf lies below `route`, next through one of these keys. */
  ghost predicate Through(leaf: Leaf, route: Route, fields: seq<Field>) {
    Under(leaf, route) && |leaf.route| > |route| && HasKey(leaf.route[|route|], fields)
  }

  predicate HasKey(step: Step, fields: seq<Field>) {
    exists k :: 0 <= k < |fields| && step == Key(fields[k].key)
  }

  lemma LaterKeysDiffer(step: Step, fields: seq<Field>)
    requires DistinctKeys(fields) && fields != [] && HasKey(step, fields[1..])
    ensures HasKey(step, fields) && step != Key(fields[0].key)
  {
    var k :| 0 <= k < |fields[1..]| && step == Key(fields[1..][k].key);
    assert fields[1..][k] == fields[k + 1];
  }

  lemma JoinDistinct(head: seq<Leaf>, tail: seq<Leaf>)
    requires DistinctRoutes(head) && DistinctRoutes(tail)
    requires forall i, j :: 0 <= i < |head| && 0 <= j < |tail| ==> head[i].route != tail[j].route
    ensures DistinctRoutes(head + tail)
  {
  }

  lemma {:induction false} FieldsHaveDistinctRoutes(fields: seq<Field>, route: Route)
    requires DistinctKeys(fields)
    requires forall f: Field | f in fields :: SafeKey(f.key) && f.value.WellFormed() && SafeTree(f.value)
    ensures var ls := FieldLeaves(fields, route);
            DistinctRoutes(ls) && forall i :: 0 <= i < |ls| ==> Through(ls[i], route, fields)
    decreases fields, 1
  {
    if fields == [] {
    } else {
      var step := Key(fields[0].key);
      var head, tail := Leaves(fields[0].value, route + [step]), FieldLeaves(fields[1..], route);
      assert fields[0] in fields;
      LeavesHaveDistinctRoutes(fields[0].value, route + [step]);
      FieldsHaveDistinctRoutes(fields[1..], route);
      forall i | 0 <= i < |head| ensures Through(head[i], route, fields) && head[i].route[|route|] == step {
        UnderStep(head[i], route, step);
      }
      forall i | 0 <= i < |tail| ensures Through(tail[i], route, fields) && tail[i].route[|route|] != step {
        assert Through(tail[i], route, fields[1..]);
        LaterKeysDiffer(tail[i].route[|route|], fields);
      }
      JoinDistinct(head, tail);
    }
  }

  // ------------------------------------------------------------------
  // From trees to paths
  // ------------------------------------------------------------------

  ghost predicate DistinctPaths(leaves: seq<Leaf>) {
    forall i, j :: 0 <= i < j < |leaves| ==> Print(leaves[i].route) != Print(leaves[j].route)
  }

  ghost predicate NoDuplicates(s: seq<string>) {
    forall i, j :: 0 <= i < j < |s| ==> s[i] != s[j]
  }

  /** In a tree over safe keys, distinct leaves print distinct paths, each decoding to its own route. */
  lemma PathsNameLeaves(j: Json)
    requires j.WellFormed() && SafeTree(j)
    ensures var ls := Leaves(j, []);
            && (forall i :: 0 <= i < |ls| ==> Decode(Print(ls[i].route)) == ls[i].route)
            && DistinctPaths(ls)
  {
    var ls := Leaves(j, []);
    LeavesHaveDistinctRoutes(j, []);
    forall i | 0 <= i < |ls| ensures Decode(Print(ls[i].route)) == ls[i].route {
      assert Under(ls[i], []) && ls[i].route[0..] == ls[i].route;
      DecodeRecoversRoute(ls[i].route);
    }
  }

  /** So a walk over an object never records one field twice. */
  lemma RecordedFieldsAreDistinct(engine: Engine, dir: Direction, j: Json)
    requires j.WellFormed() && SafeTree(j) && j.JObject?
    ensures NoDuplicates(Scan(engine, dir, Leaves(j, [])).fields)
  {
    var ls := Leaves(j, []);
    var t := Scan(engine, dir, ls);
    PathsNameLeaves(j);
    LeavesOfObjectsHavePaths(j);
    ScanVisitsEachLeafOnce(engine, dir, ls);
    var n: nat :| Visits(engine, dir, ls, t, n) && Records(engine, dir, ls[..n], t);
    FlaggedAre(engine, dir, ls[..n]);
    assert DistinctPaths(ls[..n]) by {
      assert forall i :: 0 <= i < n ==> ls[..n][i] == ls[i];
    }
    FlaggedStayDistinct(engine, dir, ls[..n]);
    DistinctPathsDistinctLabels(dir, Flagged(engine, dir, ls[..n]), t.fields);
  }

  lemma DistinctPathsDistinctLabels(dir: Direction, flagged: seq<Leaf>, labels: seq<string>)
    requires AreLabelsOf(labels, dir, flagged) && DistinctPaths(flagged)
    requires forall leaf | leaf in flagged :: Print(leaf.route) != ""
    ensures NoDuplicates(labels)
  {
    forall i | 0 <= i < |labels| ensures labels[i] == Print(flagged[i].route) {
      assert flagged[i] in flagged;
    }
  }

  lemma LeavesOfObjectsHavePaths(j: Json)
    requires j.WellFormed() && SafeTree(j) && j.JObject?
    ensures forall leaf | leaf in Leaves(j, []) :: Print(leaf.route) != ""
  {
    var ls := Leaves(j, []);
    FieldsHaveDistinctRoutes(j.fields, []);
    forall leaf | leaf in ls ensures Print(leaf.route) != "" {
      var i :| 0 <= i < |ls| && ls[i] == leaf;
      assert Through(ls[i], [], j.fields) && ls[i].route[0..] == ls[i].route;
      PrintedRouteIsNonEmpty(ls[i].route);
    }
  }

  lemma {:induction false} FlaggedStayDistinct(engine: Engine, dir: Direction, leaves: seq<Leaf>)
    requires DistinctPaths(leaves)
    ensures DistinctPaths(Flagged(engine, dir, leaves))
  {
    if leaves == [] {
    } else {
      var rest := leaves[1..];
      FlaggedStayDistinct(engine, dir, rest);
      FlaggedAre(engine, dir, rest);
      forall leaf | leaf in Flagged(engine, dir, rest) ensures Print(leaf.route) != Print(leaves[0].route) {
        var i :| 0 <= i < |rest| && rest[i] == leaf;
        assert leaves[i + 1] == leaf;
      }
    }
  }

  // ------------------------------------------------------------------
  // The class of safe keys cannot be enlarged
  // ------------------------------------------------------------------

  /** Two different leaves of `j` print one path, and the first is reached through `key`. */
  ghost predicate Collides(j: Json, key: string) {
    var ls := Leaves(j, []);
    && j.WellFormed()
    && |ls| == 2
    && ls[0].route != ls[1].route
    && Key(key) in ls[0].route
    && Print(ls[0].route) == Print(ls[1].route)
  }

  lemma UnsafeKeysCollide(key: string)
    requires !SafeKey(key)
    ensures exists j :: Collides(j, key)
  {
    if key == "" {
      EmptyKeyCollides();
    } else if '.' in key {
      var dot := LastIndex('.', key);
      assert key == key[..dot] + "." + key[dot + 1..];
      DottedKeyCollides(key[..dot], key[dot + 1..]);
    } else {
      var cut := TrailingIndex(key).value;
      IndexedKeyCollides(cut.0, cut.1);
    }
  }

  /** {"": {"a": s}, "a": t}: both leaves print "a". */
  lemma EmptyKeyCollides()
    ensures exists j :: Collides(j, "")
  {
    var j := EmptyLeaves("a");
    PrintTwo(Key(""), Key("a"));
    PrintOne(Key("a"));
    assert Collides(j, "");
  }

  lemma EmptyLeaves(a: string) returns (j: Json)
    requires a != ""
    ensures j.WellFormed()
    ensures Leaves(j, []) == [Leaf([Key(""), Key(a)], "s"), Leaf([Key(a)], "t")]
  {
    var inner := JObject([Field(a, JString("s"))]);
    j := JObject([Field("", inner), Field(a, JString("t"))]);
    LeavesOfPair("", inner, a, JString("t"), []);
    LeavesOfOne(a, JString("s"), [Key("")]);
    assert [] + [Key("")] == [Key("")] && [Key("")] + [Key(a)] == [Key(""), Key(a)] && [] + [Key(a)] == [Key(a)];
    assert inner.WellFormed();
  }

  /** {"x": {"a.b": s, "a": {"b": t}}}: both leaves print "x.a.b". */
  lemma DottedKeyCollides(a: string, b: string)
    ensures exists j :: Collides(j, a + "." + b)
  {
    var key := a + "." + b;
    var p, q := [Key("x"), Key(key)], [Key("x"), Key(a), Key(b)];
    var j := DottedLeaves(key, a, b);
    PrintTwo(Key("x"), Key(key));
    PrintTwo(Key("x"), Key(a));
    PrintExtends([Key("x"), Key(a)], Key(b));
    assert [Key("x"), Key(a)] + [Key(b)] == q;
    assert Print(p) == "x." + key == ("x." + a) + "." + b == Print(q);
    assert Collides(j, key);
  }

  lemma DottedLeaves(key: string, a: string, b: string) returns (j: Json)
    requires key != a
    ensures j.WellFormed()
    ensures Leaves(j, []) == [Leaf([Key("x"), Key(key)], "s"), Leaf([Key("x"), Key(a), Key(b)], "t")]
  {
    var deep := JObject([Field(b, JString("t"))]);
    var inner := JObject([Field(key, JString("s")), Field(a, deep)]);
    j := JObject([Field("x", inner)]);
    LeavesOfOne("x", inner, []);
    LeavesOfPair(key, JString("s"), a, deep, [Key("x")]);
    LeavesOfOne(b, JString("t"), [Key("x"), Key(a)]);
    assert [] + [Key("x")] == [Key("x")] && [Key("x")] + [Key(key)] == [Key("x"), Key(key)];
    assert [Key("x")] + [Key(a)] == [Key("x"), Key(a)];
    assert [Key("x"), Key(a)] + [Key(b)] == [Key("x"), Key(a), Key(b)];
    assert deep.WellFormed() && inner.WellFormed();
  }

  /** {"x": {"a[n]": s, "a": [0, .., 0, t]}}: both leaves print "x.a[n]". */
  lemma IndexedKeyCollides(a: string, n: nat)
    ensures exists j :: Collides(j, a + "[" + Decimal(n) + "]")
  {
    var key := a + "[" + Decimal(n) + "]";
    var list := JArray(seq(n, _ => JNull) + [JString("t")]);
    var p, q := [Key("x"), Key(key)], [Key("x"), Key(a), Index(n)];
    var j := IndexedLeaves(key, a, n, list);
    PrintTwo(Key("x"), Key(key));
    PrintTwo(Key("x"), Key(a));
    PrintExtends([Key("x"), Key(a)], Index(n));
    assert [Key("x"), Key(a)] + [Index(n)] == q;
    assert Print(p) == "x." + key == ("x." + a) + "[" + Decimal(n) + "]" == Print(q);
    assert Collides(j, key);
  }

  lemma IndexedLeaves(key: string, a: string, n: nat, list: Json) returns (j: Json)
    requires key != a && list == JArray(seq(n, _ => JNull) + [JString("t")])
    ensures j.WellFormed()
    ensures Leaves(j, []) == [Leaf([Key("x"), Key(key)], "s"), Leaf([Key("x"), Key(a), Index(n)], "t")]
  {
    var inner := JObject([Field(key, JString("s")), Field(a, list)]);
    j := JObject([Field("x", inner)]);
    LeavesOfOne("x", inner, []);
    LeavesOfPair(key, JString("s"), a, list, [Key("x")]);
    LeavesOfPadded(n, [Key("x"), Key(a)], 0);
    assert [] + [Key("x")] == [Key("x")] && [Key("x")] + [Key(key)] == [Key("x"), Key(key)];
    assert [Key("x")] + [Key(a)] == [Key("x"), Key(a)];
    assert [Key("x"), Key(a)] + [Index(n)] == [Key("x"), Key(a), Index(n)];
    PairIsWellFormed(key, a, n, list);
  }

  lemma PairIsWellFormed(key: string, a: string, n: nat, list: Json)
    requires key != a && list == JArray(seq(n, _ => JNull) + [JString("t")])
    ensures JObject([Field("x", JObject([Field(key, JString("s")), Field(a, list)]))]).WellFormed()
  {
    assert forall item | item in list.items :: item == JNull || item == JString("t");
    assert JObject([Field(key, JString("s")), Field(a, list)]).WellFormed();
  }

  lemma PrintOne(a: Step)
    ensures Print([a]) == Extend("", a)
  {
    assert [a][..0] == [];
  }

  lemma PrintTwo(a: Step, b: Step)
    ensures Print([a, b]) == Extend(Extend("", a), b)
  {
    PrintOne(a);
    assert [a, b][..1] == [a];
  }

  lemma LeavesOfOne(k: string, v: Json, route: Route)
    ensures Leaves(JObject([Field(k, v)]), route) == Leaves(v, route + [Key(k)])
  {
    assert [Field(k, v)][1..] == [];
    var none: seq<Field> := [];
    assert FieldLeaves(none, route) == [];
    assert FieldLeaves([Field(k, v)], route) == Leaves(v, route + [Key(k)]) + FieldLeaves(none, route);
  }

  lemma LeavesOfPair(k: string, v: Json, l: string, w: Json, route: Route)
    ensures Leaves(JObject([Field(k, v), Field(l, w)]), route)
         == Leaves(v, route + [Key(k)]) + Leaves(w, route + [Key(l)])
  {
    assert [Field(k, v), Field(l, w)][1..] == [Field(l, w)];
    LeavesOfOne(l, w, route);
  }

  lemma {:induction false} LeavesOfPadded(n: nat, route: Route, first: nat)
    ensures ItemLeaves(seq(n, _ => JNull) + [JString("t")], route, first) == [Leaf(route + [Index(first + n)], "t")]
  {
    var items := seq(n, _ => JNull) + [JString("t")];
    if n == 0 {
      assert items == [JString("t")] && items[1..] == [];
    } else {
      assert items[0] == JNull;
      assert items[1..] == seq(n - 1, _ => JNull) + [JString("t")];
      LeavesOfPadded(n - 1, route, first + 1);
    }
  }
}
