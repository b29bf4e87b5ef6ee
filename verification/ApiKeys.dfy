/**
 The gate that verifies API keys under its caches (`orgExists`, `verifyApiKey`, packages/auth/src/api-key.ts), in one
 isolate. KeyRuns.dfy is about any number of them with lookups in flight.
 */
module ApiKeys {
  import opened Plan
  import opened OrgCaches

  const VERIFIED_KEY_TTL_MS := 30000
  const MAX_CACHED_KEYS := 1024
  const KNOWN := "listed"

  /** What a key's text names: its org, its id and the hash of the whole text. */
  datatype Presented = Presented(org: string, keyId: string, hash: string)

  /** An org's stored key. */
  datatype Stored = Stored(hash: string, expiresAt: Option<int>)

  datatype KeyId = KeyId(org: string, id: string)

  /** `ApiKeyStore.check`: stored with this hash and not expired at `now`. */
  predicate Live(keys: map<KeyId, Stored>, presented: Presented, now: int) {
    var id := KeyId(presented.org, presented.keyId);
    && id in keys && keys[id].hash == presented.hash
    && (keys[id].expiresAt.Some? ==> now < keys[id].expiresAt.value)
  }

  function UntilOf(now: int, expiresAt: Option<int>): int {
    if expiresAt.Some? && expiresAt.value < now + VERIFIED_KEY_TTL_MS then expiresAt.value
    else now + VERIFIED_KEY_TTL_MS
  }

  /** Whether an isolate trusts at `now` that an org is listed. */
  predicate Trusted(known: Fifo<int>, org: string, now: int) {
    (org, KNOWN) in known.values && now < known.values[(org, KNOWN)]
  }

  datatype CachedKey = CachedKey(keyId: KeyId, until: int)

  /** What an isolate trusts of the registry after asking whether it lists an org; `listed` is the answer. */
  function KnownAfter(known: Fifo<int>, org: string, now: int, listed: bool): Fifo<int> {
    if Trusted(known, org, now) then known
    else if listed then Put(known, None, (org, KNOWN), now + VERIFIED_KEY_TTL_MS)
    else Remove(known, (org, KNOWN))
  }

  /**
   A presented key is accepted from the cache, or else exactly as a live key of an org that is trusted or listed, cached
   until it must be asked again, at the latest when the key expires; a refusal leaves nothing cached.
   */
  ghost predicate Verifies(
    verified: Fifo<CachedKey>, known: Fifo<int>, presented: Presented, now: int, listed: bool,
    keys: map<KeyId, Stored>, key: Option<KeyId>, verified': Fifo<CachedKey>, known': Fifo<int>)
  {
    var at := (presented.org, presented.hash);
    var cached := Find(verified, at);
    if cached.Some? && now < cached.value.until then
      key == Some(cached.value.keyId) && verified' == verified && known' == known
    else
      && known' == KnownAfter(known, presented.org, now, listed)
      && (key.Some? <==> (Trusted(known, presented.org, now) || listed) && Live(keys, presented, now))
      && (key.Some? ==> key.value == KeyId(presented.org, presented.keyId))
      && verified' ==
         if key.None? || key.value !in keys then Remove(verified, at)
         else
           Put(Remove(verified, at), Some(MAX_CACHED_KEYS), at,
             CachedKey(key.value, UntilOf(now, keys[key.value].expiresAt)))
  }

  /** Whether the cache vouches at `now` for what is presented. */
  predicate Holds(verified: Fifo<CachedKey>, presented: Presented, now: int) {
    var at := (presented.org, presented.hash);
    at in verified.values && now < verified.values[at].until
  }

  class Gate {
    const verified: OrgCache<CachedKey>
    const knownOrgs: OrgCache<int>

    ghost predicate Valid()
      reads this, verified, knownOrgs
    {
      && (verified as object) != (knownOrgs as object)
      && verified.Valid() && verified.max == Some(1024)
      && knownOrgs.Valid() && knownOrgs.max == None
    }

    constructor ()
      ensures Valid() && fresh(verified) && fresh(knownOrgs)
    {
      verified := new OrgCache(Some(MAX_CACHED_KEYS));
      knownOrgs := new OrgCache(None);
    }

    /** Whether the registry lists `org`, asked only while it is not trusted; `listed` is what it would answer. */
    method OrgExists(org: string, now: int, listed: bool) returns (exists_: bool, asked: bool)
      requires Valid() && IsOrg(org)
      modifies knownOrgs
      ensures Valid()
      ensures asked <==> !Trusted(old(knownOrgs.fifo), org, now)
      ensures exists_ <==> !asked || listed
      ensures knownOrgs.fifo == KnownAfter(old(knownOrgs.fifo), org, now, listed)
      ensures !asked ==> knownOrgs.fifo == old(knownOrgs.fifo)
      ensures asked ==> forall later :: Trusted(knownOrgs.fifo, org, later) <==> listed && later < now + 30000
    {
      var until := knownOrgs.Get(org, KNOWN);
      if until.Some? && now < until.value {
        return true, false;
      }
      if !listed {
        knownOrgs.Delete(org, KNOWN);
        return false, true;
      }
      knownOrgs.Set(org, KNOWN, now + VERIFIED_KEY_TTL_MS);
      return true, true;
    }

    /** Whether a presented key is accepted, and as which key; `keys` is what the orgs' stores hold. */
    method VerifyApiKey(presented: Presented, now: int, listed: bool, keys: map<KeyId, Stored>)
      returns (key: Option<KeyId>)
      requires Valid() && IsOrg(presented.org)
      modifies verified, knownOrgs
      ensures Valid()
      ensures Verifies(
                old(verified.fifo), old(knownOrgs.fifo), presented, now, listed, keys, key,
                verified.fifo, knownOrgs.fifo)
      ensures var id := KeyId(presented.org, presented.keyId);
              !Holds(old(verified.fifo), presented, now) ==>
                && (key.Some? <==>
                      && (Trusted(old(knownOrgs.fifo), presented.org, now) || listed)
                      && id in keys && keys[id].hash == presented.hash
                      && (keys[id].expiresAt.None? || now < keys[id].expiresAt.value))
                && (key.Some? ==> key == Some(id))
                && (key.Some? ==> forall later :: Holds(verified.fifo, presented, later) <==>
                      later < now + 30000 && (keys[id].expiresAt.None? || later < keys[id].expiresAt.value))
                && (key.None? ==> forall later :: !Holds(verified.fifo, presented, later))
    {
      var cached := verified.Get(presented.org, presented.hash);
      if cached.Some? && now < cached.value.until {
        return Some(cached.value.keyId);
      }
      verified.Delete(presented.org, presented.hash);
      var found, _ := OrgExists(presented.org, now, listed);
      if !found {
        return None;
      }
      if !Live(keys, presented, now) {
        return None;
      }
      var id := KeyId(presented.org, presented.keyId);
      verified.Set(presented.org, presented.hash, CachedKey(id, UntilOf(now, keys[id].expiresAt)));
      return Some(id);
    }
  }
}
