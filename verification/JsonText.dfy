/** A printer and a reader of payloads that meet what the repository filter relies on. */
module JsonText {
  import opened Prelude
  import opened Text
  import opened Json
  import opened StandardHooks

  // ------------------------------------------------------------------
  // A printer no two values share a text of
  // ------------------------------------------------------------------

  function WriteText(s: string, rest: string): string {
    if s == "" then ['"'] + rest else ['\\'] + ([s[0]] + WriteText(s[1..], rest))
  }

  function WriteInt(n: int, rest: string): string {
    IntText(n) + ([';'] + rest)
  }

  /** The text of `j`, followed by `rest`. */
  function Write(j: Json, rest: string): string
    decreases j, 0
  {
    match j
    case JNull => ['n'] + rest
    case JBool(b) => [if b then 't' else 'f'] + rest
    case JInt(n) => ['i'] + WriteInt(n, rest)
    case JFloat(numerator, denominator) => ['d'] + WriteInt(numerator, WriteInt(denominator, rest))
    case JString(s) => ['s'] + WriteText(s, rest)
    case JArray(items) => ['['] + WriteItems(items, rest)
    case JObject(fields) => ['{'] + WriteFields(fields, rest)
  }

  function WriteItems(items: seq<Json>, rest: string): string
    decreases items, 1
  {
    if items == [] then [']'] + rest else [','] + Write(items[0], WriteItems(items[1..], rest))
  }

  function WriteFields(fields: seq<Field>, rest: string): string
    decreases fields, 1
  {
    if fields == [] then ['}'] + rest
    else
      var f := fields[0];
      [','] + WriteText(f.key, Write(f.value, WriteFields(fields[1..], rest)))
  }

  lemma SameTail(c: char, x: string, d: char, y: string)
    requires [c] + x == [d] + y
    ensures c == d && x == y
  {
    assert ([c] + x)[0] == c && ([d] + y)[0] == d;
    assert ([c] + x)[1..] == x && ([d] + y)[1..] == y;
  }

  lemma {:induction false} TextsAreRead(s: string, x: string, t: string, y: string)
    requires WriteText(s, x) == WriteText(t, y)
    ensures s == t && x == y
  {
    if s == "" || t == "" {
      assert WriteText(s, x)[0] == (if s == "" then '"' else '\\') && WriteText(t, y)[0] == (if t == "" then '"' else '\\');
      SameTail('"', x, '"', y);
    } else {
      SameTail('\\', [s[0]] + WriteText(s[1..], x), '\\', [t[0]] + WriteText(t[1..], y));
      SameTail(s[0], WriteText(s[1..], x), t[0], WriteText(t[1..], y));
      TextsAreRead(s[1..], x, t[1..], y);
      assert s == [s[0]] + s[1..] && t == [t[0]] + t[1..];
    }
  }

  lemma IntsAreRead(m: int, x: string, n: int, y: string)
    requires WriteInt(m, x) == WriteInt(n, y)
    ensures m == n && x == y
  {
    IntTextHasNo(m, ';');
    IntTextHasNo(n, ';');
    assert IntText(m) + [';'] + x == WriteInt(m, x) && IntText(n) + [';'] + y == WriteInt(n, y);
    CutIsUnique(';', IntText(m), x, IntText(n), y);
    IntTextIsInjective(m, n);
  }

  function Tag(j: Json): char {
    match j
    case JNull => 'n'
    case JBool(b) => if b then 't' else 'f'
    case JInt(_) => 'i'
    case JFloat(_, _) => 'd'
    case JString(_) => 's'
    case JArray(_) => '['
    case JObject(_) => '{'
  }

  function Body(j: Json, rest: string): string {
    match j
    case JNull => rest
    case JBool(_) => rest
    case JInt(n) => WriteInt(n, rest)
    case JFloat(numerator, denominator) => WriteInt(numerator, WriteInt(denominator, rest))
    case JString(s) => WriteText(s, rest)
    case JArray(items) => WriteItems(items, rest)
    case JObject(fields) => WriteFields(fields, rest)
  }

  lemma {:induction false} ValuesAreRead(a: Json, x: string, b: Json, y: string)
    requires Write(a, x) == Write(b, y)
    ensures a == b && x == y
    decreases a, 0
  {
    assert Write(a, x) == [Tag(a)] + Body(a, x) && Write(b, y) == [Tag(b)] + Body(b, y);
    SameTail(Tag(a), Body(a, x), Tag(b), Body(b, y));
    match a
    case JNull =>
    case JBool(_) =>
    case JInt(n) => IntsAreRead(n, x, b.n, y);
    case JFloat(numerator, denominator) =>
      IntsAreRead(numerator, WriteInt(denominator, x), b.numerator, WriteInt(b.denominator, y));
      IntsAreRead(denominator, x, b.denominator, y);
    case JString(s) => TextsAreRead(s, x, b.s, y);
    case JArray(items) => ItemsAreRead(items, x, b.items, y);
    case JObject(fields) => FieldsAreRead(fields, x, b.fields, y);
  }

  lemma {:induction false} ItemsAreRead(a: seq<Json>, x: string, b: seq<Json>, y: string)
    requires WriteItems(a, x) == WriteItems(b, y)
    ensures a == b && x == y
    decreases a, 1
  {
    if a == [] || b == [] {
      assert WriteItems(a, x)[0] == (if a == [] then ']' else ',') && WriteItems(b, y)[0] == (if b == [] then ']' else ',');
      SameTail(']', x, ']', y);
    } else {
      SameTail(',', Write(a[0], WriteItems(a[1..], x)), ',', Write(b[0], WriteItems(b[1..], y)));
      ValuesAreRead(a[0], WriteItems(a[1..], x), b[0], WriteItems(b[1..], y));
      ItemsAreRead(a[1..], x, b[1..], y);
      assert a == [a[0]] + a[1..] && b == [b[0]] + b[1..];
    }
  }

  lemma {:induction false} FieldsAreRead(a: seq<Field>, x: string, b: seq<Field>, y: string)
    requires WriteFields(a, x) == WriteFields(b, y)
    ensures a == b && x == y
    decreases a, 1
  {
    if a == [] || b == [] {
      assert WriteFields(a, x)[0] == (if a == [] then '}' else ',') && WriteFields(b, y)[0] == (if b == [] then '}' else ',');
      SameTail('}', x, '}', y);
    } else {
      var s, t := Write(a[0].value, WriteFields(a[1..], x)), Write(b[0].value, WriteFields(b[1..], y));
      SameTail(',', WriteText(a[0].key, s), ',', WriteText(b[0].key, t));
      TextsAreRead(a[0].key, s, b[0].key, t);
      ValuesAreRead(a[0].value, WriteFields(a[1..], x), b[0].value, WriteFields(b[1..], y));
      FieldsAreRead(a[1..], x, b[1..], y);
      assert a == [a[0]] + a[1..] && b == [b[0]] + b[1..];
    }
  }

  // ------------------------------------------------------------------
  // Its reader
  // ------------------------------------------------------------------

  ghost predicate IsTextOf(text: string, j: Json) {
    j.WellFormed() && Write(j, "") == text
  }

  ghost function Read(t: Json): Option<Json> {
    if t.JString? && exists j :: IsTextOf(t.s, j) then
      var j :| IsTextOf(t.s, j);
      Some(j)
    else None
  }

  lemma ReadsWhatWasWritten(j: Json)
    requires j.WellFormed()
    ensures Read(JString(Write(j, ""))) == Some(j)
  {
    assert IsTextOf(Write(j, ""), j);
    var k := Read(JString(Write(j, ""))).value;
    ValuesAreRead(j, "", k, "");
  }

  lemma AmongWellFormed(items: seq<Json>, kept: seq<Json>)
    requires JArray(items).WellFormed() && Among(kept, items)
    ensures JArray(kept).WellFormed()
  {
  }

  /** Any filter settings have a reader and a printer that read back, and that reader reads every well-formed value. */
  lemma SomeReaderReadsBack(given: FilterConfig) returns (c: FilterConfig)
    ensures c == given.(loads := c.loads, dumps := c.dumps)
    ensures JsonReadsBack(c) && LoadsWellFormed(c)
    ensures forall j: Json :: j.WellFormed() ==> Reads(c, j)
  {
    c := given.(loads := (t: Json) => Read(t), dumps := (j: Json) => Write(j, ""));
    forall j: Json | j.WellFormed() ensures ReadsBack(c, j) && Reads(c, j) {
      ReadsWhatWasWritten(j);
      assert c.loads(JString(Write(j, ""))) == Some(j);
    }
    forall items, kept | Reads(c, JArray(items)) && Among(kept, items) ensures ReadsBack(c, JArray(kept)) {
      AmongWellFormed(items, kept);
    }
  }
}
