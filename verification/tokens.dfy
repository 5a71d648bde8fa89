/**
 * Remote-control pairing: a one-shot 8-character pairing token that
 * expires after 24 hours is exchanged for a 32-character access token;
 * access tokens are kept as one comma-joined string in the preferences
 * store. The store is a map field, the clock a parameter and the secure
 * random source a nondeterministic choice.
 */
module Tokens {
  import opened Optional

  // ---------------------------------------------------------------------------
  // Token text
  // ---------------------------------------------------------------------------

  const Alphabet: string := "ABCDEFGHIJKLMNOPQRSTUVWXYZ0123456789"
  const PairingTokenLength: nat := 8
  const AccessTokenLength: nat := 32
  /** 24 hours in milliseconds. */
  const PairingTokenLifetime: int := 24 * 60 * 60 * 1000

  predicate TokenText(t: string) {
    forall i :: 0 <= i < |t| ==> t[i] in Alphabet
  }

  /** The token spelled by a sequence of draws from `nextInt(36)`. */
  function TokenOf(draws: seq<nat>): (t: string)
    requires forall i :: 0 <= i < |draws| ==> draws[i] < |Alphabet|
    ensures |t| == |draws| && TokenText(t)
  {
    seq(|draws|, i requires 0 <= i < |draws| => Alphabet[draws[i]])
  }

  /** `generateRandomToken(length)`: `length` characters drawn from A-Z and 0-9. */
  method GenerateRandomToken(length: nat) returns (token: string)
    ensures |token| == length && TokenText(token)
  {
    ghost var zeros: seq<nat> := seq(length, _ => 0);
    assert |zeros| == length && forall i :: 0 <= i < length ==> zeros[i] < |Alphabet|;
    var draws: seq<nat> :| |draws| == length && forall i :: 0 <= i < length ==> draws[i] < |Alphabet|;
    token := TokenOf(draws);
  }

  // ---------------------------------------------------------------------------
  // The comma-joined access-token list
  // ---------------------------------------------------------------------------

  predicate CommaFree(s: string) {
    forall i :: 0 <= i < |s| ==> s[i] != ','
  }

  predicate AllCommaFree(xs: seq<string>) {
    forall i :: 0 <= i < |xs| ==> CommaFree(xs[i])
  }

  /** A token drawn from the alphabet never contains a comma. */
  lemma TokenTextIsCommaFree(t: string)
    requires TokenText(t)
    ensures CommaFree(t)
  {
    forall i | 0 <= i < |t|
      ensures t[i] != ','
    {
      assert t[i] in Alphabet;
    }
  }

  /** `split(",")`: the pieces between commas, empty ones included; never an empty list. */
  function Split(s: string): (parts: seq<string>)
    ensures |parts| >= 1 && AllCommaFree(parts)
    decreases |s|
  {
    if |s| == 0 then [""]
    else if s[0] == ',' then [""] + Split(s[1..])
    else
      var rest := Split(s[1..]);
      [[s[0]] + rest[0]] + rest[1..]
  }

  /** `joinToString(",")`. */
  function Join(xs: seq<string>): string
    decreases |xs|
  {
    if xs == [] then ""
    else if |xs| == 1 then xs[0]
    else xs[0] + "," + Join(xs[1..])
  }

  /** A comma-free word followed by a comma splits off as the first piece. */
  lemma {:induction false} SplitAfterWord(w: string, rest: string)
    requires CommaFree(w)
    ensures Split(w + "," + rest) == [w] + Split(rest)
    ensures Split(w) == [w]
    decreases |w|
  {
    if |w| == 0 {
      assert w + "," + rest == [','] + rest;
      assert ([','] + rest)[1..] == rest;
    } else {
      assert (w + "," + rest)[1..] == w[1..] + "," + rest;
      SplitAfterWord(w[1..], rest);
      assert [w[0]] + w[1..] == w;
    }
  }

  /** Joining a non-empty list of comma-free tokens and splitting again gives the same list. */
  lemma {:induction false} SplitJoin(xs: seq<string>)
    requires |xs| >= 1 && AllCommaFree(xs)
    ensures Split(Join(xs)) == xs
    decreases |xs|
  {
    if |xs| == 1 {
      SplitAfterWord(xs[0], "");
    } else {
      SplitJoin(xs[1..]);
      SplitAfterWord(xs[0], Join(xs[1..]));
      assert [xs[0]] + xs[1..] == xs;
    }
  }

  /** Splitting a string and joining the pieces gives the string back. */
  lemma {:induction false} JoinSplit(s: string)
    ensures Join(Split(s)) == s
    decreases |s|
  {
    if |s| == 0 {
    } else if s[0] == ',' {
      JoinSplit(s[1..]);
      JoinAfterEmpty(Split(s[1..]));
      assert "," + s[1..] == s;
    } else {
      JoinSplit(s[1..]);
      JoinPrepend(s[0], Split(s[1..]));
      assert [s[0]] + s[1..] == s;
    }
  }

  /** A leading empty piece joins as a leading comma. */
  lemma JoinAfterEmpty(rest: seq<string>)
    requires |rest| >= 1
    ensures Join([""] + rest) == "," + Join(rest)
  {
    assert ([""] + rest)[1..] == rest;
  }

  /** Extending the first piece by a character extends the joined text by it. */
  lemma JoinPrepend(c: char, rest: seq<string>)
    requires |rest| >= 1
    ensures Join([[c] + rest[0]] + rest[1..]) == [c] + Join(rest)
  {
    var parts := [[c] + rest[0]] + rest[1..];
    if |rest| > 1 {
      assert parts[1..] == rest[1..];
    }
  }

  /** An empty token set is saved as "", which reads back as the set holding the empty token. */
  lemma EmptySetReadsBackAsEmptyToken()
    ensures Split(Join([])) == [""]
  {
  }

  /** Kotlin's `toSet()` on a list: first occurrences, in order. */
  function Dedup(xs: seq<string>): (r: seq<string>)
    ensures forall x :: x in r <==> x in xs
    ensures forall i, j :: 0 <= i < j < |r| ==> r[i] != r[j]
    ensures AllCommaFree(xs) ==> AllCommaFree(r)
    decreases |xs|
  {
    if xs == [] then []
    else
      var d := Dedup(xs[..|xs| - 1]);
      if xs[|xs| - 1] in d then d else d + [xs[|xs| - 1]]
  }

  /** `MutableSet.add`: appended when absent. */
  function AddIfAbsent(xs: seq<string>, t: string): (r: seq<string>)
    ensures forall x :: x in r <==> x in xs || x == t
  {
    if t in xs then xs else xs + [t]
  }

  // ---------------------------------------------------------------------------
  // The preferences store
  // ---------------------------------------------------------------------------

  /** A stored preference value. */
  datatype Pref = PString(s: string) | PLong(v: int)

  const KeyPairingToken: string := "pairing_token"
  const KeyPairingExpiry: string := "pairing_token_expiry"
  const KeyAccessTokens: string := "access_tokens"

  /** Each key holds the kind of value the manager writes under it. */
  predicate WellTyped(prefs: map<string, Pref>) {
    (KeyPairingToken in prefs ==> prefs[KeyPairingToken].PString?) &&
    (KeyPairingExpiry in prefs ==> prefs[KeyPairingExpiry].PLong?) &&
    (KeyAccessTokens in prefs ==> prefs[KeyAccessTokens].PString?)
  }

  /** A stored pairing token is one the manager generated. */
  predicate PairingTokenWellFormed(prefs: map<string, Pref>)
    requires WellTyped(prefs)
  {
    KeyPairingToken in prefs ==>
      |prefs[KeyPairingToken].s| == PairingTokenLength && TokenText(prefs[KeyPairingToken].s)
  }

  /** `getString(KEY_PAIRING_TOKEN, null)`. */
  function StoredPairingToken(prefs: map<string, Pref>): Option<string>
    requires WellTyped(prefs)
  {
    if KeyPairingToken in prefs then Some(prefs[KeyPairingToken].s) else None
  }

  /** `getLong(KEY_PAIRING_TOKEN_expiry, 0)`. */
  function StoredExpiry(prefs: map<string, Pref>): int
    requires WellTyped(prefs)
  {
    if KeyPairingExpiry in prefs then prefs[KeyPairingExpiry].v else 0
  }

  /** `getAccessTokens()` as the list `toSet()` iterates: the split stored string, deduplicated. */
  function AccessTokenList(prefs: map<string, Pref>): (r: seq<string>)
    requires WellTyped(prefs)
    ensures AllCommaFree(r)
  {
    if KeyAccessTokens in prefs then Dedup(Split(prefs[KeyAccessTokens].s)) else []
  }

  /** The set `validateAccessToken` checks against. */
  function AccessTokens(prefs: map<string, Pref>): set<string>
    requires WellTyped(prefs)
  {
    set x | x in AccessTokenList(prefs)
  }

  /** The store after a pairing token is generated at time `now`. */
  function WithPairingToken(prefs: map<string, Pref>, token: string, now: int): map<string, Pref> {
    prefs[KeyPairingToken := PString(token)][KeyPairingExpiry := PLong(now + PairingTokenLifetime)]
  }

  /** Whether a stored pairing token is still usable at `now`. */
  predicate PairingTokenLive(prefs: map<string, Pref>, now: int)
    requires WellTyped(prefs)
  {
    StoredPairingToken(prefs).Some? && now <= StoredExpiry(prefs)
  }

  /** The store after a successful pairing issued `accessToken`. */
  function Paired(prefs: map<string, Pref>, accessToken: string): (r: map<string, Pref>)
    requires WellTyped(prefs)
    ensures WellTyped(r)
  {
    var saved := Join(AddIfAbsent(AccessTokenList(prefs), accessToken));
    prefs[KeyAccessTokens := PString(saved)] - {KeyPairingToken, KeyPairingExpiry}
  }

  /**
   * A successful pairing adds exactly the new access token to the set and
   * removes the pairing token and its expiry, so it works only once.
   */
  lemma PairingAddsExactlyOneToken(prefs: map<string, Pref>, accessToken: string)
    requires WellTyped(prefs) && TokenText(accessToken)
    ensures AccessTokens(Paired(prefs, accessToken)) == AccessTokens(prefs) + {accessToken}
    ensures StoredPairingToken(Paired(prefs, accessToken)) == None
    ensures KeyPairingExpiry !in Paired(prefs, accessToken)
  {
    var xs := AddIfAbsent(AccessTokenList(prefs), accessToken);
    TokenTextIsCommaFree(accessToken);
    assert AllCommaFree(xs);
    SplitJoin(xs);
    var p := Paired(prefs, accessToken);
    assert p[KeyAccessTokens].s == Join(xs);
    assert AccessTokenList(p) == Dedup(xs);
  }

  /** The store after `revokeAllTokens`. */
  function Revoked(prefs: map<string, Pref>): (r: map<string, Pref>)
    ensures WellTyped(prefs) ==> WellTyped(r)
  {
    prefs - {KeyPairingToken, KeyPairingExpiry, KeyAccessTokens}
  }

  /** After revoking, no access token validates and no pairing token is stored. */
  lemma RevokedHoldsNothing(prefs: map<string, Pref>, t: string)
    requires WellTyped(prefs)
    ensures t !in AccessTokens(Revoked(prefs))
    ensures StoredPairingToken(Revoked(prefs)) == None && StoredExpiry(Revoked(prefs)) == 0
  {
  }

  // ---------------------------------------------------------------------------
  // The manager
  // ---------------------------------------------------------------------------

  class TokenManager {
    var prefs: map<string, Pref>

    ghost predicate Valid()
      reads this
    {
      WellTyped(prefs) && PairingTokenWellFormed(prefs)
    }

    constructor (initial: map<string, Pref>)
      requires WellTyped(initial) && PairingTokenWellFormed(initial)
      ensures Valid() && prefs == initial
    {
      prefs := initial;
    }

    /** Stores a new 8-character pairing token that expires 24 hours after `now`. */
    method GeneratePairingToken(now: int) returns (token: string)
      requires Valid()
      modifies this
      ensures Valid()
      ensures |token| == PairingTokenLength && TokenText(token)
      ensures prefs == WithPairingToken(old(prefs), token, now)
    {
      token := GenerateRandomToken(PairingTokenLength);
      prefs := prefs[KeyPairingToken := PString(token)][KeyPairingExpiry := PLong(now + PairingTokenLifetime)];
    }

    /** The stored token while it is live at `now`; otherwise a newly generated one. */
    method GetPairingToken(now: int) returns (token: string)
      requires Valid()
      modifies this
      ensures Valid() && |token| == PairingTokenLength && TokenText(token)
      ensures old(PairingTokenLive(prefs, now)) ==>
        token == old(StoredPairingToken(prefs)).value && prefs == old(prefs)
      ensures !old(PairingTokenLive(prefs, now)) ==>
        |token| == PairingTokenLength && TokenText(token) && prefs == WithPairingToken(old(prefs), token, now)
    {
      var stored := StoredPairingToken(prefs);
      var expiryTime := StoredExpiry(prefs);
      if stored.None? || now > expiryTime {
        token := GeneratePairingToken(now);
        return;
      }
      token := stored.value;
    }

    method RegeneratePairingToken(now: int) returns (token: string)
      requires Valid()
      modifies this
      ensures Valid()
      ensures |token| == PairingTokenLength && TokenText(token)
      ensures prefs == WithPairingToken(old(prefs), token, now)
    {
      token := GeneratePairingToken(now);
    }

    /**
     * Exchanges a pairing token for a new 32-character access token. The
     * comparison is against `getPairingToken`, which first replaces a
     * missing or expired token; a mismatch issues nothing and leaves the
     * access tokens as they were.
     */
    method ValidatePairingToken(pairingToken: string, now: int) returns (r: Option<string>)
      requires Valid()
      modifies this
      ensures Valid()
      ensures AccessTokens(prefs) == old(AccessTokens(prefs)) + (if r.Some? then {r.value} else {})
      ensures r.Some? ==>
        |r.value| == AccessTokenLength && TokenText(r.value) && StoredPairingToken(prefs) == None
      ensures r.Some? ==> |pairingToken| == PairingTokenLength
      ensures old(PairingTokenLive(prefs, now)) && pairingToken != old(StoredPairingToken(prefs)).value ==>
        r == None && prefs == old(prefs)
      ensures old(PairingTokenLive(prefs, now)) && pairingToken == old(StoredPairingToken(prefs)).value ==>
        r.Some? && prefs == Paired(old(prefs), r.value)
      ensures !old(PairingTokenLive(prefs, now)) ==>
        exists t :: |t| == PairingTokenLength && TokenText(t) &&
          (r.None? ==> pairingToken != t && prefs == WithPairingToken(old(prefs), t, now)) &&
          (r.Some? ==> pairingToken == t && prefs == Paired(WithPairingToken(old(prefs), t, now), r.value))
    {
      var storedToken := GetPairingToken(now);
      if storedToken != pairingToken {
        assert AccessTokenList(prefs) == old(AccessTokenList(prefs));
        if !old(PairingTokenLive(prefs, now)) {
          assert |storedToken| == PairingTokenLength && TokenText(storedToken);
        }
        return None;
      }
      var accessToken := GenerateRandomToken(AccessTokenLength);
      ghost var before := prefs;
      assert AccessTokens(before) == old(AccessTokens(prefs));
      var tokens := AddIfAbsent(AccessTokenList(prefs), accessToken);
      prefs := prefs[KeyAccessTokens := PString(Join(tokens))];
      prefs := prefs - {KeyPairingToken, KeyPairingExpiry};
      assert prefs == Paired(before, accessToken);
      PairingAddsExactlyOneToken(before, accessToken);
      r := Some(accessToken);
    }

    /** Exactly membership in the stored set. */
    method ValidateAccessToken(token: string) returns (r: bool)
      requires Valid()
      ensures r <==> token in AccessTokens(prefs)
    {
      var tokens := AccessTokenList(prefs);
      r := token in tokens;
    }

    /** Removes the pairing token, its expiry and every access token. */
    method RevokeAllTokens()
      requires Valid()
      modifies this
      ensures Valid() && prefs == Revoked(old(prefs))
    {
      prefs := prefs - {KeyPairingToken, KeyPairingExpiry, KeyAccessTokens};
    }
  }
}
