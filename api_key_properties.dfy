/** Properties of the API-key lifecycle that relate several operations:
    usage accounting over repeated validation, idempotent revocation, and
    the expiry boundary. */
module ApiKeyProperties {
  import opened Base
  import opened ApiKey

  /** How many of a run of validations passed, and the store they leave. */
  datatype Tally = Tally(successes: nat, keys: KeyStore)

  /** Validates `key` once at each instant of `nows`, in order, threading
      the store from one call to the next. */
  function ValidateEach(keys: KeyStore, key: string, nows: seq<int>): (r: Tally)
    ensures r.successes <= |nows|
    ensures r.keys.Keys == keys.Keys
    decreases |nows|
  {
    if nows == [] then Tally(0, keys)
    else
      var first := Validated(keys, key, nows[0]);
      var rest := ValidateEach(first.keys, key, nows[1..]);
      Tally(rest.successes + (if first.ok then 1 else 0), rest.keys)
  }

  /** Each passing validation adds exactly one to the usage count and a
      failing one adds nothing; no other key is touched. */
  lemma {:induction false} UsageCountsSuccesses(keys: KeyStore, key: string, nows: seq<int>)
    requires key in keys
    ensures ValidateEach(keys, key, nows).keys[key].usageCount == keys[key].usageCount + ValidateEach(keys, key, nows).successes
    ensures forall k | k in keys && k != key :: ValidateEach(keys, key, nows).keys[k] == keys[k]
    decreases |nows|
  {
    if nows != [] {
      var first := Validated(keys, key, nows[0]);
      UsageCountsSuccesses(first.keys, key, nows[1..]);
    }
  }

  /** An active key validated only at instants up to its expiry passes
      every time, stays active and was last used at the last instant. */
  lemma {:induction false} ActiveKeyPassesEachTime(keys: KeyStore, key: string, nows: seq<int>)
    requires key in keys && keys[key].isActive
    requires forall i | 0 <= i < |nows| :: nows[i] <= keys[key].expiresAt
    ensures ValidateEach(keys, key, nows).successes == |nows|
    ensures ValidateEach(keys, key, nows).keys[key].isActive
    ensures ValidateEach(keys, key, nows).keys[key].expiresAt == keys[key].expiresAt
    ensures nows != [] ==> ValidateEach(keys, key, nows).keys[key].lastUsed == Some(nows[|nows| - 1])
    decreases |nows|
  {
    if nows != [] {
      var first := Validated(keys, key, nows[0]);
      assert forall i | 0 <= i < |nows[1..]| :: nows[1..][i] == nows[i + 1];
      ActiveKeyPassesEachTime(first.keys, key, nows[1..]);
      if |nows| > 1 {
        assert nows[1..][|nows[1..]| - 1] == nows[|nows| - 1];
      }
    }
  }

  /** A freshly issued key validated N times before it expires has usage
      count N. */
  lemma FreshKeyUsageCount(keys: KeyStore, suffix: string, issuedAt: int, expiresInDays: Option<int>, nows: seq<int>)
    requires KeyPrefix + suffix !in keys
    requires forall i | 0 <= i < |nows| :: nows[i] <= ExpiryOf(issuedAt, expiresInDays)
    ensures var issued := Issued(keys, suffix, issuedAt, expiresInDays);
      ValidateEach(issued.keys, issued.key, nows).keys[issued.key].usageCount == |nows|
  {
    var issued := Issued(keys, suffix, issuedAt, expiresInDays);
    ActiveKeyPassesEachTime(issued.keys, issued.key, nows);
    UsageCountsSuccesses(issued.keys, issued.key, nows);
  }

  /** Revoking twice gives the same answer and the same store as revoking
      once. */
  lemma RevokeIdempotent(keys: KeyStore, key: string)
    ensures Revoked(Revoked(keys, key).keys, key) == Revoked(keys, key)
  {
  }

  /** A key issued with zero days still validates at the instant of issue,
      because expiry is tested with a strict comparison; one second later it
      is rejected. */
  lemma ZeroDayKeyBoundary(keys: KeyStore, suffix: string, now: int)
    requires KeyPrefix + suffix !in keys
    ensures var issued := Issued(keys, suffix, now, Some(0));
      Validated(issued.keys, issued.key, now).ok && !Validated(issued.keys, issued.key, now + 1).ok
  {
  }

  /** Once a validation has found a key expired, the key never validates
      again, whatever instant a later call sees. */
  lemma ExpiredKeyStaysRejected(keys: KeyStore, key: string, now: int, later: int)
    requires key in keys && now > keys[key].expiresAt
    ensures !Validated(Validated(keys, key, now).keys, key, later).ok
  {
  }

  /** A key is listed as active exactly when validating it at the same
      instant would pass. */
  lemma ListedIffValidates(keys: KeyStore, key: string, now: int)
    ensures key in ListActiveKeys(keys, now) <==> Validated(keys, key, now).ok
  {
  }
}
