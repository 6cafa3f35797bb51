/** Payloads: JSON values as Python holds them, with dicts in insertion order. */
module Json {
  import opened Prelude

  /** A float is the ratio it stands for; infinities and NaN are not part of this model. */
  datatype Json =
    | JNull
    | JBool(b: bool)
    | JInt(n: int)
    | JFloat(numerator: int, denominator: nat)
    | JString(s: string)
    | JArray(items: seq<Json>)
    | JObject(fields: seq<Field>)
  {
    /** Python truth of the value: `not payload` is the negation. */
    predicate Truthy() {
      match this
      case JNull => false
      case JBool(b) => b
      case JInt(n) => n != 0
      case JFloat(numerator, _) => numerator != 0
      case JString(s) => s != ""
      case JArray(items) => items != []
      case JObject(fields) => fields != []
    }

    /** A dict never holds one key twice, at any depth. */
    ghost predicate WellFormed() {
      match this
      case JArray(items) => forall j | j in items :: j.WellFormed()
      case JObject(fields) =>
        && DistinctKeys(fields)
        && forall f: Field | f in fields :: f.value.WellFormed()
      case _ => true
    }
  }

  datatype Field = Field(key: string, value: Json)

  predicate DistinctKeys(fields: seq<Field>) {
    forall i, j :: 0 <= i < j < |fields| ==> fields[i].key != fields[j].key
  }

  /** `dict.get(key)`. */
  function Get(fields: seq<Field>, key: string): Option<Json> {
    if fields == [] then None
    else if fields[0].key == key then Some(fields[0].value)
    else Get(fields[1..], key)
  }

  /** `d[key] = value`: replaces in place, or appends a new key. */
  function Put(fields: seq<Field>, key: string, value: Json): seq<Field> {
    if fields == [] then [Field(key, value)]
    else if fields[0].key == key then [Field(key, value)] + fields[1..]
    else [fields[0]] + Put(fields[1..], key, value)
  }

  lemma {:induction false} PutFreshKeyAppends(fields: seq<Field>, key: string, value: Json)
    requires forall i :: 0 <= i < |fields| ==> fields[i].key != key
    ensures Put(fields, key, value) == fields + [Field(key, value)]
  {
    if fields == [] {
    } else {
      PutFreshKeyAppends(fields[1..], key, value);
      assert fields == [fields[0]] + fields[1..];
    }
  }

  lemma {:induction false} GetAfterPut(fields: seq<Field>, key: string, value: Json, other: string)
    ensures Get(Put(fields, key, value), other) == if other == key then Some(value) else Get(fields, other)
  {
    if fields == [] {
    } else if fields[0].key == key {
    } else {
      GetAfterPut(fields[1..], key, value, other);
      var rest := Put(fields[1..], key, value);
      assert ([fields[0]] + rest)[1..] == rest;
    }
  }
}
