/** Identifiers that may be presented once within their time to live (server/src/security/replay.ts). */
module ReplayStores {
  import opened Basics

  const SWEEP_ABOVE: nat := 10000

  /** When each claimed key may be claimed again. */
  type Seen = map<string, Time>

  function Swept(seen: Seen, now: Time): Seen { map k | k in seen && seen[k] > now :: seen[k] }

  function Crowded(seen: Seen, now: Time): Seen { if |seen| > SWEEP_ABOVE then Swept(seen, now) else seen }

  predicate Free(seen: Seen, key: string, now: Time) { key !in seen || seen[key] <= now }

  /** claim: what it answers, and what it leaves. */
  function Claimed(seen: Seen, key: string, ttl: Time, now: Time): Seen {
    var crowded := Crowded(seen, now);
    if Free(crowded, key, now) then crowded[key := now + ttl] else crowded
  }

  class MemoryReplayStore {
    var seen: Seen

    constructor ()
      ensures seen == map[]
    {
      seen := map[];
    }

    method Claim(key: string, ttlSeconds: nat, now: Time) returns (first: bool)
      modifies this
      ensures first == Free(old(seen), key, now)
      ensures seen == Claimed(old(seen), key, ttlSeconds * SECOND, now)
    {
      if |seen| > SWEEP_ABOVE { Sweep(now); }
      if key in seen && seen[key] > now { return false; }
      seen := seen[key := now + ttlSeconds * SECOND];
      return true;
    }

    method Sweep(now: Time)
      modifies this
      ensures seen == Swept(old(seen), now)
    {
      var pending := seen.Keys;
      ghost var was := seen;
      while pending != {}
        invariant pending <= was.Keys
        invariant seen == map k | k in was && (k in pending || was[k] > now) :: was[k]
        decreases pending
      {
        var key :| key in pending;
        if seen[key] <= now { seen := seen - {key}; }
        pending := pending - {key};
      }
    }
  }

  /** A claim holds its key for exactly its time to live, and sweeping frees nobody's key early. */
  lemma ClaimHolds(seen: Seen, key: string, other: string, ttl: Time, now: Time, later: Time)
    requires now <= later && ttl >= 0
    ensures Free(seen, key, now) ==> (Free(Claimed(seen, key, ttl, now), key, later) <==> later >= now + ttl)
    ensures other != key || !Free(seen, key, now) ==>
      (Free(Claimed(seen, key, ttl, now), other, later) <==> Free(seen, other, later))
  {
  }
}
