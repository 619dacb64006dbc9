/**
 The Microsoft signing-key cache of internal/loginproviders/microsoft_keys.go. Times are nanoseconds;
 parsing a token or a key document and checking an RSA signature are the caller's.
 */
module SigningKeys {
  import opened Values

  const SECOND := 1_000_000_000
  const MINUTE := 60 * SECOND
  const DAY := 24 * 60 * MINUTE

  // ---- key documents -------------------------------------------------------

  /** One entry of the "keys" array: what parsing it as a key and as an issuer scope yields. */
  datatype RawKey =
    | Unparsable
    | Parsed(kid: string, issuer: string, rsa: bool, valid: bool, bits: nat, use: string, algorithm: string, material: int)

  predicate Usable(key: RawKey) {
    && key.Parsed? && key.rsa && key.valid && key.bits >= 2048
    && key.kid != "" && key.issuer != ""
    && (key.use == "" || key.use == "sig")
    && (key.algorithm == "" || key.algorithm == "RS256")
  }

  function UsableKeys(document: seq<RawKey>): (keys: seq<RawKey>)
    ensures forall key :: key in keys <==> key in document && Usable(key)
  {
    if document == [] then []
    else
      var n := |document| - 1;
      UsableKeys(document[..n]) + if Usable(document[n]) then [document[n]] else []
  }

  lemma {:induction false} UsableKeysConcat(a: seq<RawKey>, b: seq<RawKey>)
    ensures UsableKeys(a + b) == UsableKeys(a) + UsableKeys(b)
    decreases |b|
  {
    if b == [] {
      assert a + b == a;
    } else {
      var n, ab := |b| - 1, a + b;
      var last := if Usable(b[n]) then [b[n]] else [];
      assert ab[..|ab| - 1] == a + b[..n];
      assert UsableKeys(ab) == UsableKeys(a + b[..n]) + last;
      UsableKeysConcat(a, b[..n]);
      assert UsableKeys(b) == UsableKeys(b[..n]) + last;
    }
  }

  /** The filter looks at one key at a time, in order: an RSA key of at least 2048 bits, with an id and an
      issuer, for signing with RS256 or not limited otherwise. */
  lemma UsableKeysByOne(a: seq<RawKey>, key: RawKey, b: seq<RawKey>)
    ensures UsableKeys(a + [key] + b) == UsableKeys(a) + UsableKeys([key]) + UsableKeys(b)
    ensures UsableKeys([key]) ==
            if key.Parsed? && key.rsa && key.valid && key.bits >= 2048 && key.kid != "" && key.issuer != ""
               && key.use in {"", "sig"} && key.algorithm in {"", "RS256"}
            then [key] else []
  {
    UsableKeysConcat(a, [key]);
    UsableKeysConcat(a + [key], b);
    assert [key][..0] == [];
  }

  /** A document replaces the cached keys only whole: one malformed key rejects all of it. */
  predicate Acceptable(document: seq<RawKey>) {
    0 < |document| <= 512 && Unparsable !in document && exists key :: key in document && Usable(key)
  }

  datatype Fetched = Unreachable | Document(keys: seq<RawKey>)

  predicate Refreshes(fetched: Fetched) {
    fetched.Document? && Acceptable(fetched.keys)
  }

  // ---- the cache -----------------------------------------------------------

  datatype KeyCache = KeyCache(keys: seq<RawKey>, lastSuccess: int, lastAttempt: Option<int>)

  predicate Current(c: KeyCache, now: int) {
    c.keys != [] && now - c.lastSuccess < DAY
  }

  predicate CoolingDown(c: KeyCache, now: int) {
    c.lastAttempt.Some? && now - c.lastAttempt.value < MINUTE
  }

  /** What a refresh decides under the lock before it fetches. */
  datatype Decision = Serve | Refuse | Fetch

  function Decide(c: KeyCache, now: int, force: bool): (d: Decision)
    ensures d.Serve? <==> Current(c, now) && (!force || CoolingDown(c, now))
    ensures d.Fetch? <==> !CoolingDown(c, now) && (force || !Current(c, now))
  {
    if !force && Current(c, now) then Serve
    else if CoolingDown(c, now) then (if Current(c, now) then Serve else Refuse)
    else Fetch
  }

  function Attempted(c: KeyCache, now: int, d: Decision): KeyCache {
    if d.Fetch? then c.(lastAttempt := Some(now)) else c
  }

  function Refreshed(c: KeyCache, now: int, fetched: Fetched): KeyCache {
    if Refreshes(fetched) then c.(keys := UsableKeys(fetched.keys), lastSuccess := now) else c
  }

  lemma UsableKeysThen(document: seq<RawKey>, i: nat)
    requires i < |document|
    ensures UsableKeys(document[..i + 1]) == UsableKeys(document[..i]) + if Usable(document[i]) then [document[i]] else []
    ensures Unparsable in document[..i + 1] <==> Unparsable in document[..i] || document[i].Unparsable?
  {
    assert document[..i + 1] == document[..i] + [document[i]];
  }

  /** A well-sized, parsable document is acceptable exactly when some key is left. */
  lemma AcceptableIs(document: seq<RawKey>)
    requires 0 < |document| <= 512 && Unparsable !in document
    ensures Acceptable(document) <==> UsableKeys(document) != []
  {
    var keys := UsableKeys(document);
    if keys != [] {
      assert keys[0] in keys;
    }
  }

  /** The loop over a fetched document: all or nothing. */
  method ReadDocument(document: seq<RawKey>) returns (updated: Option<seq<RawKey>>)
    ensures updated.Some? <==> Acceptable(document)
    ensures updated.Some? <==>
            && 0 < |document| <= 512 && (forall i :: 0 <= i < |document| ==> document[i].Parsed?)
            && exists key :: key in document && key.Parsed? && key.rsa && key.valid && key.bits >= 2048 && key.kid != "" && key.issuer != ""
                             && key.use in {"", "sig"} && key.algorithm in {"", "RS256"}
    ensures updated.Some? ==> updated.value == UsableKeys(document) && updated.value != []
  {
    if |document| == 0 || |document| > 512 {
      return None;
    }
    var keys := [];
    for i := 0 to |document|
      invariant keys == UsableKeys(document[..i])
      invariant Unparsable !in document[..i]
    {
      if document[i].Unparsable? {
        return None;
      }
      UsableKeysThen(document, i);
      if Usable(document[i]) {
        keys := keys + [document[i]];
      }
    }
    assert document[..|document|] == document;
    AcceptableIs(document);
    return if |keys| == 0 then None else Some(keys);
  }

  class MicrosoftKeys {
    var keys: seq<RawKey>
    var lastSuccess: int
    var lastAttempt: Option<int>

    function Contents(): KeyCache
      reads this
    {
      KeyCache(keys, lastSuccess, lastAttempt)
    }

    constructor ()
      ensures Contents().keys == [] && Contents().lastAttempt == None
    {
      keys, lastSuccess, lastAttempt := [], 0, None;
    }

    /** The read-locked fast path. */
    method Peek(now: int, force: bool) returns (list: Option<seq<RawKey>>)
      ensures list == if Current(Contents(), now) && !force then Some(keys) else None
      ensures list == if !force && keys != [] && now - lastSuccess < 86_400_000_000_000 then Some(keys) else None
    {
      var isFresh := |keys| > 0 && now - lastSuccess < DAY;
      if isFresh && !force {
        return Some(keys);
      }
      return None;
    }

    method BeginRefresh(now: int, force: bool) returns (d: Decision)
      modifies this
      ensures d == Decide(old(Contents()), now, force)
      ensures Contents() == Attempted(old(Contents()), now, d)
      ensures keys == old(keys) && lastSuccess == old(lastSuccess)
      ensures lastAttempt == if d.Fetch? then Some(now) else old(lastAttempt)
      ensures var isFresh := old(keys) != [] && now - old(lastSuccess) < 86_400_000_000_000;
              var cooling := old(lastAttempt).Some? && now - old(lastAttempt).value < 60_000_000_000;
              d == if isFresh && (!force || cooling) then Serve else if cooling then Refuse else Fetch
    {
      if !force && |keys| > 0 && now - lastSuccess < DAY {
        return Serve;
      }
      if lastAttempt.Some? && now - lastAttempt.value < MINUTE {
        if |keys| > 0 && now - lastSuccess < DAY {
          return Serve;
        }
        return Refuse;
      }
      lastAttempt := Some(now);
      return Fetch;
    }

    method FinishRefresh(now: int, fetched: Fetched) returns (list: Option<seq<RawKey>>)
      modifies this
      ensures Contents() == Refreshed(old(Contents()), now, fetched)
      ensures list == if Refreshes(fetched) then Some(UsableKeys(fetched.keys)) else None
      ensures lastAttempt == old(lastAttempt)
      ensures if list.Some? then keys == list.value && lastSuccess == now else keys == old(keys) && lastSuccess == old(lastSuccess)
      ensures list.Some? <==>
              && fetched.Document? && 0 < |fetched.keys| <= 512
              && (forall i :: 0 <= i < |fetched.keys| ==> fetched.keys[i].Parsed?)
              && exists key :: key in fetched.keys && key.Parsed? && key.rsa && key.valid && key.bits >= 2048
                               && key.kid != "" && key.issuer != "" && key.use in {"", "sig"} && key.algorithm in {"", "RS256"}
    {
      if fetched.Unreachable? {
        return None;
      }
      list := ReadDocument(fetched.keys);
      if list.Some? {
        keys, lastSuccess := list.value, now;
      }
    }

    /** One caller alone: `peeked`, `begun` and `finished` are the clock at its three looks at it. */
    method Load(force: bool, peeked: int, begun: int, finished: int, fetched: Fetched) returns (list: Option<seq<RawKey>>)
      modifies this
      ensures var c := old(Contents());
              if Current(c, peeked) && !force then Contents() == c && list == Some(c.keys)
              else match Decide(c, begun, force)
                case Serve => Contents() == c && list == Some(c.keys)
                case Refuse => Contents() == c && list == None
                case Fetch =>
                  && Contents() == Refreshed(c.(lastAttempt := Some(begun)), finished, fetched)
                  && list == if Refreshes(fetched) then Some(Contents().keys) else None
    {
      list := Peek(peeked, force);
      if list.Some? {
        return;
      }
      var d := BeginRefresh(begun, force);
      match d {
        case Serve => return Some(keys);
        case Refuse => return None;
        case Fetch => list := FinishRefresh(finished, fetched);
      }
    }
  }

  // ---- verifying a token ---------------------------------------------------

  const ISSUER_TEMPLATE := "https://login.microsoftonline.com/{tenantid}/v2.0"

  /** A parsed token: its signatures' key ids, and the payload each key's signature check yields. */
  datatype Token = Token(kids: seq<string>, check: RawKey -> Option<string>)

  predicate WellFormed(token: Token) {
    |token.kids| == 1 && token.kids[0] != ""
  }

  /** The key may sign for this issuer and the token names it (section 4.1.4 of RFC 7515). */
  predicate Permitted(key: RawKey, kid: string, issuer: string) {
    key.Parsed? && key.kid == kid && (key.issuer == ISSUER_TEMPLATE || key.issuer == issuer)
  }

  predicate Verifies(token: Token, kid: string, issuer: string, key: RawKey) {
    Permitted(key, kid, issuer) && token.check(key).Some?
  }

  predicate HasKid(keys: seq<RawKey>, kid: string) {
    exists key :: key in keys && key.Parsed? && key.kid == kid
  }

  predicate SomeVerifies(token: Token, kid: string, issuer: string, keys: seq<RawKey>) {
    exists key :: key in keys && Verifies(token, kid, issuer, key)
  }

  method Verify(token: Token, kid: string, issuer: string, keys: seq<RawKey>) returns (payload: Option<string>)
    requires forall key :: key in keys ==> key.Parsed?
    ensures payload.Some? <==> SomeVerifies(token, kid, issuer, keys)
    ensures payload.Some? ==> exists key :: key in keys && Verifies(token, kid, issuer, key) && token.check(key) == payload
    ensures payload.Some? <==>
            exists i :: 0 <= i < |keys| && keys[i].kid == kid
                        && (keys[i].issuer == "https://login.microsoftonline.com/{tenantid}/v2.0" || keys[i].issuer == issuer)
                        && token.check(keys[i]).Some?
    ensures payload.Some? ==>
            exists i :: 0 <= i < |keys| && payload == token.check(keys[i])
                        && keys[i].kid == kid
                        && (keys[i].issuer == "https://login.microsoftonline.com/{tenantid}/v2.0" || keys[i].issuer == issuer)
                        && forall j :: 0 <= j < i ==> !Verifies(token, kid, issuer, keys[j])
  {
    for i := 0 to |keys|
      invariant forall j :: 0 <= j < i ==> !Verifies(token, kid, issuer, keys[j])
    {
      assert keys[i] in keys;
      if keys[i].kid != kid || (keys[i].issuer != ISSUER_TEMPLATE && keys[i].issuer != issuer) {
        continue;
      }
      payload := token.check(keys[i]);
      if payload.Some? {
        assert Verifies(token, kid, issuer, keys[i]);
        return;
      }
    }
    return None;
  }

  predicate Listed(list: Option<seq<RawKey>>) {
    list.Some? ==> forall key :: key in list.value ==> key.Parsed?
  }

  /** The lists that may vouch for the token: the first, and the second only if a second load is made. */
  predicate Vouched(token: Token, kid: string, issuer: string, list: Option<seq<RawKey>>) {
    list.Some? && SomeVerifies(token, kid, issuer, list.value)
  }

  predicate NeedsRotation(kid: string, first: Option<seq<RawKey>>) {
    first.Some? && !HasKid(first.value, kid)
  }

  /** `first` and `second` are the answers of the unforced and the forced load; `loads` counts those
      made. A payload is accepted exactly when a listed key of that id and a permitted issuer
      verifies it, and the forced load is made exactly when the first list lacks the id. */
  method VerifySignature(token: Token, issuer: string, first: Option<seq<RawKey>>, second: Option<seq<RawKey>>)
    returns (payload: Option<string>, loads: nat)
    requires Listed(first) && Listed(second)
    ensures !WellFormed(token) ==> payload == None && loads == 0
    ensures WellFormed(token) ==> loads == if NeedsRotation(token.kids[0], first) then 2 else 1
    ensures WellFormed(token) ==>
              var kid := token.kids[0];
              payload.Some? <==> Vouched(token, kid, issuer, if NeedsRotation(kid, first) then second else first)
    ensures payload.Some? ==>
              exists key :: Verifies(token, token.kids[0], issuer, key) && token.check(key) == payload &&
                            key in (if loads == 1 then first else second).value
    ensures loads <= 2
    ensures |token.kids| != 1 || token.kids[0] == "" <==> loads == 0
    ensures loads == 2 <==> |token.kids| == 1 && token.kids[0] != "" && first.Some? &&
                            forall i :: 0 <= i < |first.value| ==> first.value[i].kid != token.kids[0]
    ensures payload.Some? <==>
            && loads > 0 && (if loads == 1 then first else second).Some?
            && var list := (if loads == 1 then first else second).value;
               exists i :: 0 <= i < |list| && list[i].kid == token.kids[0]
                           && (list[i].issuer == "https://login.microsoftonline.com/{tenantid}/v2.0" || list[i].issuer == issuer)
                           && token.check(list[i]).Some?
  {
    if |token.kids| != 1 || token.kids[0] == "" {
      return None, 0;
    }
    var kid := token.kids[0];
    if first.None? {
      return None, 1;
    }
    payload := Verify(token, kid, issuer, first.value);
    if payload.Some? {
      return payload, 1;
    }
    for i := 0 to |first.value|
      invariant forall j :: 0 <= j < i ==> first.value[j].kid != kid
    {
      assert first.value[i] in first.value;
      if first.value[i].kid == kid {
        return None, 1;
      }
    }
    assert !HasKid(first.value, kid);
    if second.None? {
      return None, 2;
    }
    payload := Verify(token, kid, issuer, second.value);
    return payload, 2;
  }
}
