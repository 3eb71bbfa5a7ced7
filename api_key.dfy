/** The API-key lifecycle manager of src/api/security/api_key.py.

    The store is a map from key text to its lifecycle record. The pure
    functions below say what each operation does to a store; the class
    APIKeyManager performs the same operations step by step on its field,
    and each method is proved to agree with its function. The clock
    (`datetime.utcnow()`) becomes the parameter `now`, in seconds, and the
    random part of a new key (`secrets.token_urlsafe(32)`) becomes the
    parameter `suffix`. */
module ApiKey {
  import opened Base

  /** Every key the manager issues starts with this text. */
  const KeyPrefix: string := "bua_"

  /** Lifetime of a key when the caller passes None. */
  const DefaultDays: int := 30

  /** `timedelta(days = 1)` in the seconds of `now`. */
  const SecondsPerDay: int := 86400

  /** Lifecycle record of one key. */
  datatype KeyInfo = KeyInfo(
    createdAt: int,
    expiresAt: int,
    isActive: bool,
    lastUsed: Option<int>,
    usageCount: nat)

  type KeyStore = map<string, KeyInfo>

  /** The key validates at `now`: it is present, active and not past its
      expiry. The comparison is strict, so at the expiry instant itself the
      key still validates. */
  predicate IsValidAt(keys: KeyStore, key: string, now: int)
  {
    key in keys && keys[key].isActive && now <= keys[key].expiresAt
  }

  /** What every operation keeps: each key carries the prefix, and a key has
      a last-use time exactly when it has been used at least once. */
  ghost predicate WellFormed(keys: KeyStore)
  {
    forall k | k in keys :: KeyPrefix <= k && (keys[k].lastUsed.None? <==> keys[k].usageCount == 0)
  }

  /** The expiry instant of a key issued at `now`. */
  function ExpiryOf(now: int, expiresInDays: Option<int>): int
  {
    var days := if expiresInDays.None? then DefaultDays else expiresInDays.value;
    now + days * SecondsPerDay
  }

  /** A store after an operation that also answers yes or no. */
  datatype Check = Check(ok: bool, keys: KeyStore)

  /** A store after issuing `key`. */
  datatype Issue = Issue(key: string, keys: KeyStore)

  /** A store after a rotation, with the new key if one was issued. */
  datatype Rotation = Rotation(newKey: Option<string>, keys: KeyStore)

  /** generate_key: one new, active, unused entry; nothing else changes. */
  function Issued(keys: KeyStore, suffix: string, now: int, expiresInDays: Option<int>): (r: Issue)
    requires KeyPrefix + suffix !in keys
    ensures r.key == KeyPrefix + suffix && KeyPrefix <= r.key
    ensures r.key !in keys && r.keys.Keys == keys.Keys + {r.key} && |r.keys| == |keys| + 1
    ensures forall k | k in keys :: r.keys[k] == keys[k]
    ensures r.keys[r.key].isActive && r.keys[r.key].usageCount == 0 && r.keys[r.key].lastUsed.None?
    ensures r.keys[r.key].createdAt == now
    ensures expiresInDays.None? ==> r.keys[r.key].expiresAt == now + 30 * 86400
    ensures expiresInDays.Some? ==> r.keys[r.key].expiresAt == now + expiresInDays.value * 86400
    ensures WellFormed(keys) ==> WellFormed(r.keys)
  {
    var key := KeyPrefix + suffix;
    var info := KeyInfo(now, ExpiryOf(now, expiresInDays), true, None, 0);
    var keys' := keys[key := info];
    assert keys'.Keys == keys.Keys + {key};
    Issue(key, keys')
  }

  /** validate_key: answers whether the key validates at `now`. A passing
      check records the use; a key found past its expiry is deactivated;
      an unknown or inactive key leaves the store as it was. */
  function Validated(keys: KeyStore, key: string, now: int): (r: Check)
    ensures r.ok <==> IsValidAt(keys, key, now)
    ensures r.keys.Keys == keys.Keys
    ensures forall k | k in keys && k != key :: r.keys[k] == keys[k]
    ensures key !in keys || !keys[key].isActive ==> r.keys == keys
    ensures key in keys ==> r.keys[key].createdAt == keys[key].createdAt && r.keys[key].expiresAt == keys[key].expiresAt
    ensures r.ok ==> r.keys[key].isActive && r.keys[key].lastUsed == Some(now)
    ensures r.ok ==> r.keys[key].usageCount == keys[key].usageCount + 1
    ensures !r.ok && key in keys ==> !r.keys[key].isActive
    ensures !r.ok && key in keys ==> r.keys[key].usageCount == keys[key].usageCount && r.keys[key].lastUsed == keys[key].lastUsed
    ensures WellFormed(keys) ==> WellFormed(r.keys)
  {
    if key !in keys then Check(false, keys)
    else
      var info := keys[key];
      if !info.isActive then Check(false, keys)
      else if now > info.expiresAt then Check(false, keys[key := info.(isActive := false)])
      else Check(true, keys[key := info.(lastUsed := Some(now), usageCount := info.usageCount + 1)])
  }

  /** revoke_key: answers whether the key exists; an existing key becomes
      inactive and keeps everything else. */
  function Revoked(keys: KeyStore, key: string): (r: Check)
    ensures r.ok <==> key in keys
    ensures r.keys.Keys == keys.Keys
    ensures forall k | k in keys && k != key :: r.keys[k] == keys[k]
    ensures key in keys ==> r.keys[key] == keys[key].(isActive := false)
    ensures forall now :: !IsValidAt(r.keys, key, now)
    ensures !r.ok ==> r.keys == keys
    ensures WellFormed(keys) ==> WellFormed(r.keys)
  {
    if key in keys then Check(true, keys[key := keys[key].(isActive := false)])
    else Check(false, keys)
  }

  /** rotate_key: validate the old key, then issue a new key with the default
      lifetime, then revoke the old key. */
  function Rotated(keys: KeyStore, oldKey: string, suffix: string, now: int): (r: Rotation)
    requires KeyPrefix + suffix !in keys
    ensures r.newKey.Some? <==> IsValidAt(keys, oldKey, now)
    ensures r.newKey.Some? ==>
      && r.newKey.value == KeyPrefix + suffix
      && r.newKey.value != oldKey
      && r.keys.Keys == keys.Keys + {r.newKey.value}
      && |r.keys| == |keys| + 1
      && !IsValidAt(r.keys, oldKey, now)
      && IsValidAt(r.keys, r.newKey.value, now)
      && r.keys[r.newKey.value].usageCount == 0
      && r.keys[oldKey].usageCount == keys[oldKey].usageCount + 1
      && !r.keys[oldKey].isActive
      && r.keys[oldKey].lastUsed == Some(now)
      && r.keys[oldKey].createdAt == keys[oldKey].createdAt
      && r.keys[oldKey].expiresAt == keys[oldKey].expiresAt
      && r.keys[r.newKey.value] == KeyInfo(now, now + DefaultDays * SecondsPerDay, true, None, 0)
    ensures r.newKey.None? ==> r.keys.Keys == keys.Keys && !IsValidAt(r.keys, oldKey, now)
    ensures r.newKey.None? ==> r.keys == Validated(keys, oldKey, now).keys
    ensures r.newKey.None? && oldKey in keys ==>
      && r.keys[oldKey].usageCount == keys[oldKey].usageCount
      && r.keys[oldKey].lastUsed == keys[oldKey].lastUsed
      && r.keys[oldKey].createdAt == keys[oldKey].createdAt
      && r.keys[oldKey].expiresAt == keys[oldKey].expiresAt
    ensures forall k | k in keys && k != oldKey :: r.keys[k] == keys[k]
    ensures WellFormed(keys) ==> WellFormed(r.keys)
  {
    var checked := Validated(keys, oldKey, now);
    if checked.ok then
      var issued := Issued(checked.keys, suffix, now, None);
      var revoked := Revoked(issued.keys, oldKey);
      Rotation(Some(issued.key), revoked.keys)
    else
      Rotation(None, checked.keys)
  }

  /** get_key_info: the stored record, or 404 for an unknown key. */
  function GetKeyInfo(keys: KeyStore, key: string): (r: Result<KeyInfo, HttpError>)
    ensures r.Ok? <==> key in keys
    ensures r.Ok? ==> r.value == keys[key]
    ensures r.Err? ==> r.error == HttpError(404, "API key not found")
  {
    if key in keys then Ok(keys[key]) else Err(HttpError(404, "API key not found"))
  }

  /** list_active_keys: exactly the entries that validate at `now`, with
      their records; the active flag is not trusted alone, the expiry is
      compared again. */
  function ListActiveKeys(keys: KeyStore, now: int): (r: KeyStore)
    ensures forall k :: k in r <==> IsValidAt(keys, k, now)
    ensures forall k | k in r :: k in keys && r[k] == keys[k]
  {
    map k | k in keys && keys[k].isActive && now <= keys[k].expiresAt :: keys[k]
  }

  /** The manager object: `api_keys` is updated in place by its methods. */
  class APIKeyManager {
    var apiKeys: KeyStore

    ghost predicate Valid()
      reads this
    {
      WellFormed(apiKeys)
    }

    constructor ()
      ensures Valid() && apiKeys == map[]
    {
      apiKeys := map[];
    }

    method GenerateKey(expiresInDays: Option<int>, suffix: string, now: int) returns (key: string)
      requires Valid()
      requires KeyPrefix + suffix !in apiKeys
      modifies this
      ensures Valid()
      ensures Issue(key, apiKeys) == Issued(old(apiKeys), suffix, now, expiresInDays)
    {
      key := KeyPrefix + suffix;
      var days := if expiresInDays.None? then DefaultDays else expiresInDays.value;
      var expiration := now + days * SecondsPerDay;
      apiKeys := apiKeys[key := KeyInfo(now, expiration, true, None, 0)];
    }

    method ValidateKey(apiKey: string, now: int) returns (ok: bool)
      requires Valid()
      modifies this
      ensures Valid()
      ensures Check(ok, apiKeys) == Validated(old(apiKeys), apiKey, now)
    {
      if apiKey !in apiKeys {
        return false;
      }
      var keyData := apiKeys[apiKey];
      if !keyData.isActive {
        return false;
      }
      if now > keyData.expiresAt {
        apiKeys := apiKeys[apiKey := keyData.(isActive := false)];
        return false;
      }
      keyData := keyData.(lastUsed := Some(now));
      keyData := keyData.(usageCount := keyData.usageCount + 1);
      apiKeys := apiKeys[apiKey := keyData];
      return true;
    }

    method RevokeKey(apiKey: string) returns (ok: bool)
      requires Valid()
      modifies this
      ensures Valid()
      ensures Check(ok, apiKeys) == Revoked(old(apiKeys), apiKey)
    {
      if apiKey in apiKeys {
        apiKeys := apiKeys[apiKey := apiKeys[apiKey].(isActive := false)];
        return true;
      }
      return false;
    }

    method RotateKey(oldKey: string, suffix: string, now: int) returns (newKey: Option<string>)
      requires Valid()
      requires KeyPrefix + suffix !in apiKeys
      modifies this
      ensures Valid()
      ensures Rotation(newKey, apiKeys) == Rotated(old(apiKeys), oldKey, suffix, now)
    {
      var ok := ValidateKey(oldKey, now);
      if ok {
        var key := GenerateKey(None, suffix, now);
        var _ := RevokeKey(oldKey);
        return Some(key);
      }
      return None;
    }
  }

  /** get_api_key: the request gate. A key that fails validation is
      rejected with 403; validation's side effects on the store happen
      either way. */
  method GetApiKey(manager: APIKeyManager, apiKey: string, now: int) returns (r: Result<string, HttpError>)
    requires manager.Valid()
    modifies manager
    ensures manager.Valid()
    ensures Check(r.Ok?, manager.apiKeys) == Validated(old(manager.apiKeys), apiKey, now)
    ensures r.Ok? ==> r.value == apiKey
    ensures r.Err? ==> r.error == HttpError(403, "Invalid or expired API key")
  {
    var ok := manager.ValidateKey(apiKey, now);
    if !ok {
      return Err(HttpError(403, "Invalid or expired API key"));
    }
    return Ok(apiKey);
  }
}
