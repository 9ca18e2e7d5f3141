/**
 * Refresh responses kept for the grace window (server/src/oauth/sealed.ts).
 *
 * The cipher is an ideal box: what was sealed under a key opens under that key
 * and no other, because the key is the box's associated data.
 */
module SealedStore {
  import opened Basics
  import opened OAuthTables

  datatype Key = Key(clientId: string, token: Secret)

  datatype Box = Box(key: Key, body: Issued)

  datatype Entry = Entry(sealed: Box, expiresAt: Time)

  type Entries = map<Key, Entry>

  function Open(key: Key, box: Box): Option<Issued> {
    if box.key == key then Some(box.body) else None
  }

  function Swept(entries: Entries, now: Time): Entries {
    map k | k in entries && entries[k].expiresAt > now :: entries[k]
  }

  function SealIn(entries: Entries, key: Key, body: Issued, ttl: Time, now: Time): Entries {
    Swept(entries, now)[key := Entry(Box(key, body), now + ttl)]
  }

  function UnsealIn(entries: Entries, key: Key, now: Time): Option<Issued> {
    if key !in entries || entries[key].expiresAt <= now then None
    else Open(key, entries[key].sealed)
  }

  function AfterUnseal(entries: Entries, key: Key, now: Time): Entries {
    if key in entries && entries[key].expiresAt <= now then entries - {key} else entries
  }

  /** Every box sits under the key it was sealed with. */
  ghost predicate BoxesInPlace(entries: Entries) {
    forall k :: k in entries ==> entries[k].sealed.key == k
  }

  /**
   * A sealed body is what unseal answers with, for that key only and for exactly
   * the time it was sealed for, whatever else was in the store.
   */
  lemma SealThenUnseal(entries: Entries, key: Key, other: Key, body: Issued, ttl: Time, sealedAt: Time, at: Time)
    requires BoxesInPlace(entries) && sealedAt <= at
    ensures var sealed := SealIn(entries, key, body, ttl, sealedAt);
            && BoxesInPlace(sealed)
            && UnsealIn(sealed, key, at) == (if at < sealedAt + ttl then Some(body) else None)
            && (other != key ==> UnsealIn(sealed, other, at) == UnsealIn(entries, other, at))
  {
  }

  /** Reading deletes only what no later read could have returned. */
  lemma UnsealForgetsNothing(entries: Entries, key: Key, other: Key, now: Time, later: Time)
    requires now <= later
    ensures UnsealIn(AfterUnseal(entries, key, now), other, later) == UnsealIn(entries, other, later)
  {
  }

  class MemorySealedResponses {
    var entries: Entries

    ghost predicate Valid() reads this { BoxesInPlace(entries) }

    constructor ()
      ensures Valid() && entries == map[]
    {
      entries := map[];
    }

    method Seal(key: Key, body: Issued, ttl: Time, now: Time)
      requires Valid()
      modifies this
      ensures Valid() && entries == SealIn(old(entries), key, body, ttl, now)
    {
      Sweep(now);
      entries := entries[key := Entry(Box(key, body), now + ttl)];
    }

    method Unseal(key: Key, now: Time) returns (body: Option<Issued>)
      requires Valid()
      modifies this
      ensures Valid() && entries == AfterUnseal(old(entries), key, now)
      ensures body == UnsealIn(old(entries), key, now)
      ensures body.Some? <==> key in old(entries) && now < old(entries)[key].expiresAt
    {
      if key !in entries { return None; }
      var entry := entries[key];
      if entry.expiresAt <= now {
        entries := entries - {key};
        return None;
      }
      return Open(key, entry.sealed);
    }

    method Sweep(now: Time)
      requires Valid()
      modifies this
      ensures Valid() && entries == Swept(old(entries), now)
    {
      var pending := entries.Keys;
      ghost var was := entries;
      while pending != {}
        invariant pending <= was.Keys
        invariant entries == map k | k in was && (k in pending || was[k].expiresAt > now) :: was[k]
        decreases pending
      {
        var key :| key in pending;
        if entries[key].expiresAt <= now { entries := entries - {key}; }
        pending := pending - {key};
      }
    }
  }
}
