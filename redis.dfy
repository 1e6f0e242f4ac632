/**
 * The session store adapter of apps/backend/src/redis/redis.service.ts: a
 * key-value store whose every key is namespaced under `auth:`, each entry
 * living for the number of seconds given when it was written (Redis `SET
 * key value EX seconds`). Redis's own clock is the parameter `now`, in whole
 * seconds; an entry written at time `t` with `EX s` is readable while
 * `now < t + s` and gone afterwards.
 */
module Redis {
  import opened Wrappers

  const Prefix: string := "auth:"

  /** The key under which the service stores the logical key `key`. */
  function StoredKey(key: string): string {
    Prefix + key
  }

  /** Distinct logical keys never share a stored key. */
  lemma StoredKeyInjective(a: string, b: string)
    ensures StoredKey(a) == StoredKey(b) ==> a == b
  {
    if StoredKey(a) == StoredKey(b) {
      assert a == StoredKey(a)[|Prefix|..];
      assert b == StoredKey(b)[|Prefix|..];
    }
  }

  /** One stored value with its absolute expiry instant. */
  datatype Entry = Entry(value: string, expiresAt: int)

  type Entries = map<string, Entry>

  /** `redis.get`: the live value stored for `key` at time `now`, or `null`. */
  function Read(entries: Entries, key: string, now: int): (r: Option<string>)
    ensures r.Some? <==> StoredKey(key) in entries && now < entries[StoredKey(key)].expiresAt
    ensures r.Some? ==> r.value == entries[StoredKey(key)].value
  {
    var k := StoredKey(key);
    if k in entries && now < entries[k].expiresAt then Some(entries[k].value) else None
  }

  /** `redis.set(key, value, 'EX', seconds)` at time `now`. */
  function Write(entries: Entries, key: string, value: string, seconds: int, now: int): (e: Entries)
    ensures e.Keys == entries.Keys + {StoredKey(key)}
    ensures e[StoredKey(key)] == Entry(value, now + seconds)
    ensures forall k :: k in entries && k != StoredKey(key) ==> e[k] == entries[k]
  {
    entries[StoredKey(key) := Entry(value, now + seconds)]
  }

  /** `redis.del(key)`; deleting an absent key is not an error. */
  function Delete(entries: Entries, key: string): (e: Entries)
    ensures e.Keys == entries.Keys - {StoredKey(key)}
    ensures forall k :: k in e ==> e[k] == entries[k]
  {
    entries - {StoredKey(key)}
  }

  /** A value written with a positive lifetime reads back until it expires, then reads as `null`. */
  lemma ReadAfterWrite(entries: Entries, key: string, value: string, seconds: int, now: int, later: int)
    ensures Read(Write(entries, key, value, seconds, now), key, later)
         == if later < now + seconds then Some(value) else None
  {
  }

  /** After a delete the key reads as `null`, at any time. */
  lemma ReadAfterDelete(entries: Entries, key: string, now: int)
    ensures Read(Delete(entries, key), key, now) == None
  {
  }

  /** Writing or deleting one key leaves every other key's reading unchanged. */
  lemma OtherKeysUntouched(entries: Entries, key: string, other: string, value: string, seconds: int, now: int, t: int)
    requires key != other
    ensures Read(Write(entries, key, value, seconds, now), other, t) == Read(entries, other, t)
    ensures Read(Delete(entries, key), other, t) == Read(entries, other, t)
  {
    StoredKeyInjective(key, other);
  }

  /** The store, with the three operations of the service. */
  class RedisService {
    var entries: Entries

    constructor ()
      ensures entries == map[]
    {
      entries := map[];
    }

    /** Stores `token` under `auth:<key>` for `expiresIn` seconds, replacing any previous value. */
    method SetToken(key: string, token: string, expiresIn: int, now: int)
      requires expiresIn > 0 // Redis refuses a non-positive `EX`
      modifies this
      ensures entries == Write(old(entries), key, token, expiresIn, now)
    {
      entries := entries[StoredKey(key) := Entry(token, now + expiresIn)];
    }

    /** The live value stored under `auth:<key>`, or `null`. */
    method GetToken(key: string, now: int) returns (r: Option<string>)
      ensures r == Read(entries, key, now)
    {
      var k := StoredKey(key);
      if k in entries && now < entries[k].expiresAt {
        r := Some(entries[k].value);
      } else {
        r := None;
      }
    }

    /** Deletes `auth:<key>`. */
    method RemoveToken(key: string)
      modifies this
      ensures entries == Delete(old(entries), key)
    {
      entries := entries - {StoredKey(key)};
    }
  }
}
