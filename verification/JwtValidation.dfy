/**
 Token validation against a list of keys, with one retry on refreshed keys; the signature check is an oracle per key.
 */
module JwtValidation {
  import opened Prelude
  import opened Json
  import opened JwksCache

  /** What decoding with one key ends in. */
  datatype Decoded =
    | Claims(fields: seq<Field>)
    | BadSignature
    | Expired
    | Immature
    | BadIssuer
    | BadAudience
    | ClaimMissing
    | Undecodable

  datatype Mapping = Mapping(userId: string, email: string, groups: string)

  datatype TokenClaims = TokenClaims(userId: Json, email: Option<Json>, groups: seq<Json>, raw: seq<Field>)

  datatype Failure = Invalid(reason: string) | FetchFailed

  const INVALID_SIGNATURE := Invalid("invalid_signature")

  function ExtractClaims(mapping: Mapping, claims: seq<Field>): Result<TokenClaims, Failure> {
    var userId := Get(claims, mapping.userId);
    if userId.None? || !userId.value.Truthy() then Err(Invalid("missing_claim"))
    else
      var groups := Get(claims, mapping.groups);
      Ok(TokenClaims(userId.value, Get(claims, mapping.email),
                     if groups.Some? && groups.value.JArray? then groups.value.items else [], claims))
  }

  /** The verdict of one key that does not fail on the signature. */
  function Verdict(mapping: Mapping, d: Decoded): Result<TokenClaims, Failure>
    requires !d.BadSignature?
  {
    match d
    case Claims(fields) => ExtractClaims(mapping, fields)
    case Expired => Err(Invalid("expired"))
    case Immature => Err(Invalid("not_yet_valid"))
    case BadIssuer => Err(Invalid("invalid_issuer"))
    case BadAudience => Err(Invalid("invalid_audience"))
    case ClaimMissing => Err(Invalid("missing_claim"))
    case Undecodable => Err(Invalid("invalid_token"))
  }

  /** Key `i` is the first whose signature check passes or fails on something else. */
  predicate Decides(decode: Key -> Decoded, keys: seq<Key>, i: nat) {
    i < |keys| && !decode(keys[i]).BadSignature? && forall j :: 0 <= j < i ==> decode(keys[j]).BadSignature?
  }

  predicate NoneDecides(decode: Key -> Decoded, keys: seq<Key>) {
    forall j :: 0 <= j < |keys| ==> decode(keys[j]).BadSignature?
  }

  /** `r` is the verdict of the first deciding key, or the signature failure when there is none. */
  ghost predicate IsVerdictOf(decode: Key -> Decoded, mapping: Mapping, keys: seq<Key>, r: Result<TokenClaims, Failure>) {
    && (forall i: nat :: Decides(decode, keys, i) ==> r == Verdict(mapping, decode(keys[i])))
    && (NoneDecides(decode, keys) ==> r == Err(INVALID_SIGNATURE))
  }

  method DecodeWithKeys(decode: Key -> Decoded, mapping: Mapping, keys: seq<Key>) returns (r: Result<TokenClaims, Failure>)
    ensures IsVerdictOf(decode, mapping, keys, r)
  {
    for k := 0 to |keys|
      invariant forall j :: 0 <= j < k ==> decode(keys[j]).BadSignature?
    {
      match decode(keys[k]) {
        case Claims(fields) =>
          var userId := Get(fields, mapping.userId);
          if userId.None? || !userId.value.Truthy() {
            return Err(Invalid("missing_claim"));
          }
          var raw := Get(fields, mapping.groups);
          var groups := if raw.Some? && raw.value.JArray? then raw.value.items else [];
          return Ok(TokenClaims(userId.value, Get(fields, mapping.email), groups, fields));
        case Expired => return Err(Invalid("expired"));
        case Immature => return Err(Invalid("not_yet_valid"));
        case BadIssuer => return Err(Invalid("invalid_issuer"));
        case BadAudience => return Err(Invalid("invalid_audience"));
        case ClaimMissing => return Err(Invalid("missing_claim"));
        case BadSignature =>
        case Undecodable => return Err(Invalid("invalid_token"));
      }
    }
    return Err(INVALID_SIGNATURE);
  }

  lemma SomeKeyDecidesOrNone(decode: Key -> Decoded, keys: seq<Key>)
    ensures NoneDecides(decode, keys) || exists i: nat :: Decides(decode, keys, i)
    decreases |keys|
  {
    if keys != [] {
      var n := |keys| - 1;
      SomeKeyDecidesOrNone(decode, keys[..n]);
      if NoneDecides(decode, keys[..n]) {
        assert forall j :: 0 <= j < n ==> keys[j] == keys[..n][j];
        assert decode(keys[n]).BadSignature? || Decides(decode, keys, n);
      } else {
        var i: nat :| Decides(decode, keys[..n], i);
        assert forall j :: 0 <= j <= i ==> keys[j] == keys[..n][j];
        assert Decides(decode, keys, i);
      }
    }
  }

  /** A list of keys has one verdict. */
  lemma VerdictIsUnique(decode: Key -> Decoded, mapping: Mapping, keys: seq<Key>,
                        r: Result<TokenClaims, Failure>, r': Result<TokenClaims, Failure>)
    requires IsVerdictOf(decode, mapping, keys, r) && IsVerdictOf(decode, mapping, keys, r')
    ensures r == r'
  {
    SomeKeyDecidesOrNone(decode, keys);
    if !NoneDecides(decode, keys) {
      var i: nat :| Decides(decode, keys, i);
      assert r == Verdict(mapping, decode(keys[i])) == r';
    }
  }

  /** Only a list that no key of decides fails on the signature. */
  lemma SignatureFailureMeansNoKey(decode: Key -> Decoded, mapping: Mapping, keys: seq<Key>, r: Result<TokenClaims, Failure>)
    requires IsVerdictOf(decode, mapping, keys, r)
    ensures r == Err(INVALID_SIGNATURE) <==> NoneDecides(decode, keys)
  {
    SomeKeyDecidesOrNone(decode, keys);
    if !NoneDecides(decode, keys) {
      var i: nat :| Decides(decode, keys, i);
      assert r == Verdict(mapping, decode(keys[i]));
    }
  }

  /** Trying one list and then, only if no key of it decides, another is trying the two as one list. */
  lemma RetryIsOneLongerList(decode: Key -> Decoded, mapping: Mapping, cached: seq<Key>, refreshed: seq<Key>,
                             first: Result<TokenClaims, Failure>, second: Result<TokenClaims, Failure>)
    requires IsVerdictOf(decode, mapping, cached, first) && IsVerdictOf(decode, mapping, refreshed, second)
    ensures IsVerdictOf(decode, mapping, cached + refreshed, if first == Err(INVALID_SIGNATURE) then second else first)
  {
    var both, n := cached + refreshed, |cached|;
    SignatureFailureMeansNoKey(decode, mapping, cached, first);
    assert forall j :: 0 <= j < n ==> both[j] == cached[j];
    assert forall j :: 0 <= j < |refreshed| ==> both[n + j] == refreshed[j];
    if NoneDecides(decode, cached) {
      forall i: nat | Decides(decode, both, i) ensures second == Verdict(mapping, decode(both[i])) {
        assert i >= n;
        assert Decides(decode, refreshed, i - n);
      }
      if NoneDecides(decode, both) {
        assert NoneDecides(decode, refreshed);
      }
    } else {
      SomeKeyDecidesOrNone(decode, cached);
      var k: nat :| Decides(decode, cached, k);
      forall i: nat | Decides(decode, both, i) ensures first == Verdict(mapping, decode(both[i])) {
        assert decode(both[k]) == decode(cached[k]);
        assert i == k;
      }
      assert !decode(both[k]).BadSignature?;
    }
  }

  /**
   The refresh is asked for exactly when no cached key decides, and the outcome is the verdict of both lists in a row;
   a failed key request is the outcome itself.
   */
  ghost predicate Validates(decode: Key -> Decoded, mapping: Mapping, cached: Result<seq<Key>, Failure>,
                            refreshed: Result<seq<Key>, Failure>, r: Result<TokenClaims, Failure>, refreshes: nat) {
    && (cached.Err? ==> r == Err(cached.error) && refreshes == 0)
    && (cached.Ok? ==> refreshes == if NoneDecides(decode, cached.value) then 1 else 0)
    && (cached.Ok? && refreshes == 0 ==> IsVerdictOf(decode, mapping, cached.value, r))
    && (refreshes == 1 && refreshed.Err? ==> r == Err(refreshed.error))
    && (refreshes == 1 && refreshed.Ok? ==> IsVerdictOf(decode, mapping, cached.value + refreshed.value, r))
  }

  /** `validate_token`: `cached` and `refreshed` answer the ordinary and the forced key request. */
  method ValidateToken(decode: Key -> Decoded, mapping: Mapping, cached: Result<seq<Key>, Failure>,
                       refreshed: Result<seq<Key>, Failure>)
    returns (r: Result<TokenClaims, Failure>, refreshes: nat)
    ensures Validates(decode, mapping, cached, refreshed, r, refreshes)
  {
    if cached.Err? {
      return Err(cached.error), 0;
    }
    var first := DecodeWithKeys(decode, mapping, cached.value);
    SignatureFailureMeansNoKey(decode, mapping, cached.value, first);
    if first != Err(INVALID_SIGNATURE) {
      return first, 0;
    }
    if refreshed.Err? {
      return Err(refreshed.error), 1;
    }
    r := DecodeWithKeys(decode, mapping, refreshed.value);
    RetryIsOneLongerList(decode, mapping, cached.value, refreshed.value, first, r);
    refreshes := 1;
  }

  // ------------------------------------------------------------------
  // On top of the key cache
  // ------------------------------------------------------------------

  /** What a finished task of the key cache gives its caller. */
  function Answer(s: State, t: TaskId): Result<seq<Key>, Failure>
    requires t < |s.tasks|
  {
    if s.tasks[t].pc.Returned? && s.tasks[t].pc.list < |s.lists| then Ok(s.lists[s.tasks[t].pc.list]) else Err(FetchFailed)
  }

  /** The two key requests of a validation, an ordinary one and a forced one, both answered. */
  predicate BothAnswered(s: State, t: TaskId, v: TaskId) {
    && t < |s.tasks| && !s.tasks[t].force && s.tasks[t].pc.Returned?
    && v < |s.tasks| && s.tasks[v].force && s.tasks[v].pc.Returned?
  }

  /**
   A validation over any run of the key cache: the keys tried first are not empty and were fetched less than the TTL
   before or by the task itself; if none of them decides, the keys tried next are those the retry fetched itself, and
   the outcome is the verdict of the two lists in a row.
   */
  lemma RetryTriesItsOwnFetch(clock: real, ttl: int, steps: seq<Step>, t: TaskId, v: TaskId, decode: Key -> Decoded,
                              mapping: Mapping, r: Result<TokenClaims, Failure>, refreshes: nat)
    requires Run(clock, ttl, steps).Some? && BothAnswered(Run(clock, ttl, steps).value, t, v)
    requires var s := Run(clock, ttl, steps).value; Validates(decode, mapping, Answer(s, t), Answer(s, v), r, refreshes)
    ensures var s := Run(clock, ttl, steps).value;
            var pc := s.tasks[t].pc;
            && pc.list < |s.lists|
            && var keys := s.lists[pc.list];
            && keys != []
            && (exists i: nat :: i < |s.fetches| && s.fetches[i].list == pc.list
                 && (s.fetches[i].task == t || 0.0 <= pc.at - s.fetches[i].at < ttl as real))
            && (!NoneDecides(decode, keys) ==> IsVerdictOf(decode, mapping, keys, r))
            && (NoneDecides(decode, keys) ==>
                  exists i: nat :: i < |s.fetches| && s.fetches[i].task == v && s.fetches[i].list < |s.lists|
                    && IsVerdictOf(decode, mapping, keys + s.lists[s.fetches[i].list], r))
  {
    ReturnedKeysAreFresh(clock, ttl, steps, t);
    ReturnedKeysAreFresh(clock, ttl, steps, v);
  }

  /** A rejection says what the first deciding key found. */
  lemma RejectionsSayWhy(decode: Key -> Decoded, mapping: Mapping, keys: seq<Key>, i: nat, r: Result<TokenClaims, Failure>)
    requires IsVerdictOf(decode, mapping, keys, r) && Decides(decode, keys, i)
    ensures decode(keys[i]).Expired? ==> r == Err(Invalid("expired"))
    ensures decode(keys[i]).Immature? ==> r == Err(Invalid("not_yet_valid"))
    ensures decode(keys[i]).BadIssuer? ==> r == Err(Invalid("invalid_issuer"))
    ensures decode(keys[i]).BadAudience? ==> r == Err(Invalid("invalid_audience"))
    ensures decode(keys[i]).Undecodable? ==> r == Err(Invalid("invalid_token"))
    ensures r == Err(Invalid("missing_claim"))
       <==> || decode(keys[i]).ClaimMissing?
            || (decode(keys[i]).Claims?
                && match Get(decode(keys[i]).fields, mapping.userId) case Some(id) => !id.Truthy() case None => true)
  {
    assert r == Verdict(mapping, decode(keys[i]));
    assert "expired" != "missing_claim" && "not_yet_valid" != "missing_claim";
    assert |"invalid_issuer"| != |"missing_claim"| && |"invalid_audience"| != |"missing_claim"|;
    assert "invalid_token"[0] != "missing_claim"[0];
    assert "not_yet_valid"[0] != "missing_claim"[0];
  }

  /**
   A token accepted after any rotation was decoded by a key of one of the two lists; its user id is the mapped claim and not
   empty, its email the mapped claim, and its groups the mapped claim if that is a list, and none if not.
   */
  lemma AcceptedTokensAreSigned(decode: Key -> Decoded, mapping: Mapping, keys: seq<Key>, claims: TokenClaims)
    requires IsVerdictOf(decode, mapping, keys, Ok(claims))
    ensures exists key :: key in keys && decode(key) == Claims(claims.raw)
    ensures Get(claims.raw, mapping.userId) == Some(claims.userId) && Get(claims.raw, mapping.email) == claims.email
    ensures claims.userId !in {JNull, JBool(false), JInt(0), JString(""), JArray([]), JObject([])}
    ensures match Get(claims.raw, mapping.groups)
            case Some(JArray(items)) => claims.groups == items
            case _ => claims.groups == []
  {
    SomeKeyDecidesOrNone(decode, keys);
    var i: nat :| Decides(decode, keys, i);
    assert Verdict(mapping, decode(keys[i])) == Ok(claims);
    assert keys[i] in keys;
  }
}
