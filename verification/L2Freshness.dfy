// What the L2 tier keeps about an object, and how much of its lifetime is left when it is read back.
module L2Freshness {
  import opened Wrappers
  import opened CacheEntries

  // The decoded content of an L2 value; `stampMs` is the wall clock when it was written.
  datatype Stored<+P> = Stored(payload: P, ttlSeconds: nat, swrSeconds: nat, stampMs: nat)

  function ElapsedMs<P>(b: Stored<P>, wallMs: nat): nat {
    if wallMs > b.stampMs then wallMs - b.stampMs else 0
  }

  // The end of RedisL2Cache::get: drop what has outlived its ttl, restart the clock of the rest with
  // the whole seconds it has left. Unsigned 64-bit arithmetic throughout.
  function Revive<P>(b: Stored<P>, wallMs: nat, steadyNow: int): Option<CacheEntry<P>> {
    var elapsed := ElapsedMs(b, wallMs);
    if elapsed >= ToU64(b.ttlSeconds * 1000) then None
    else
      var remaining := ToU64(b.ttlSeconds - elapsed / 1000);
      Some(CacheEntry(b.payload, steadyNow, if remaining == 0 then 1 else remaining, b.swrSeconds))
  }

  // What freshness promises of an object that is read back: `wallNs` and `steadyNow` are read at the same moment
  // and the clocks advance together, so at steady time `at` so much time has passed since the L2 stamp.
  function SinceStamp<P>(b: Stored<P>, wallNs: nat, steadyNow: int, at: int): int {
    wallNs + (at - steadyNow) - b.stampMs * NS_PER_MS
  }

  // The object is dropped only when its lifetime is over; otherwise it is fresh in L1 for at least its ttl and for
  // less than ttl + 1 second, counted from its stamp.
  predicate InWindow<P>(b: Stored<P>, wallNs: nat, steadyNow: int, at: int) {
    var since := SinceStamp(b, wallNs, steadyNow, at);
    match Revive(b, wallNs / NS_PER_MS, steadyNow)
    case None => since >= b.ttlSeconds * NS_PER_SECOND
    case Some(e) =>
      && (since < b.ttlSeconds * NS_PER_SECOND ==> IsFresh(e, at))
      && (since >= (b.ttlSeconds + 1) * NS_PER_SECOND ==> !IsFresh(e, at))
  }

  // The range in which the age of an entry can be computed, 146 years.
  const HORIZON: int := 0x4000_0000_0000_0000

  predicate Within(steadyNow: int, at: int) {
    steadyNow <= at < steadyNow + HORIZON
  }

  // The readings of the two clocks by a process whose wall clock is not behind the stamp.
  predicate Readable<P>(b: Stored<P>, wallNs: nat, steadyNow: int, at: int) {
    b.stampMs * NS_PER_MS <= wallNs && Within(steadyNow, at)
  }

  lemma PromotionWindow<P>(b: Stored<P>, wallNs: nat, steadyNow: int, at: int)
    requires b.ttlSeconds * 1000 < U64 && Readable(b, wallNs, steadyNow, at)
    ensures InWindow(b, wallNs, steadyNow, at)
  {
    var wallMs := wallNs / NS_PER_MS;
    var part := wallNs % NS_PER_MS;
    assert wallNs == wallMs * NS_PER_MS + part;
    var elapsed := ElapsedMs(b, wallMs);
    assert elapsed == wallMs - b.stampMs;
    if elapsed < b.ttlSeconds * 1000 {
      var gone := elapsed / 1000;
      assert elapsed == gone * 1000 + elapsed % 1000;
      var e := Revive(b, wallMs, steadyNow).value;
      assert e.ttlSeconds == b.ttlSeconds - gone;
      var d := at - steadyNow;
      assert AgeSeconds(e.storedAt, at) == d / NS_PER_SECOND;
      assert d == (d / NS_PER_SECOND) * NS_PER_SECOND + d % NS_PER_SECOND;
      assert IsFresh(e, at) <==> d < e.ttlSeconds * NS_PER_SECOND;
    }
  }

  // When ttl * 1000 wraps around, the object is dropped that much too early.
  lemma DroppedEarly<P>(b: Stored<P>, steadyNow: int) returns (wallNs: nat)
    requires U64 <= b.ttlSeconds * 1000
    ensures Readable(b, wallNs, steadyNow, steadyNow) && !InWindow(b, wallNs, steadyNow, steadyNow)
  {
    var early := ToU64(b.ttlSeconds * 1000);
    assert early < b.ttlSeconds * 1000;
    wallNs := (b.stampMs + early) * NS_PER_MS;
    assert wallNs / NS_PER_MS == b.stampMs + early;
    assert SinceStamp(b, wallNs, steadyNow, steadyNow) == early * NS_PER_MS;
  }

  // A process whose wall clock is behind the stamp counts nothing as elapsed. The object is then used for its lifetime
  // from the reading on, and dropped before its lifetime since the stamp is over: such a reading gives the window only
  // to objects that outlive the horizon.
  lemma ReadingExactly<P>(b: Stored<P>, wallNs: nat, steadyNow: int)
    requires b.ttlSeconds * 1000 < U64
    ensures (forall at: int :: Within(steadyNow, at) ==> InWindow(b, wallNs, steadyNow, at))
            <==> b.stampMs * NS_PER_MS <= wallNs || HORIZON <= b.ttlSeconds * NS_PER_SECOND
  {
    if b.stampMs * NS_PER_MS <= wallNs {
      forall at: int | Within(steadyNow, at) ensures InWindow(b, wallNs, steadyNow, at) {
        PromotionWindow(b, wallNs, steadyNow, at);
      }
    } else {
      assert wallNs / NS_PER_MS < b.stampMs && ElapsedMs(b, wallNs / NS_PER_MS) == 0;
      if HORIZON <= b.ttlSeconds * NS_PER_SECOND {
        forall at: int | Within(steadyNow, at) ensures InWindow(b, wallNs, steadyNow, at) {
          UsedFromReading(b, wallNs, steadyNow, at);
        }
      } else {
        var at := steadyNow + b.ttlSeconds * NS_PER_SECOND;
        UsedFromReading(b, wallNs, steadyNow, at);
        assert Within(steadyNow, at) && !InWindow(b, wallNs, steadyNow, at);
      }
    }
  }

  lemma UsedFromReading<P>(b: Stored<P>, wallNs: nat, steadyNow: int, at: int)
    requires b.ttlSeconds * 1000 < U64 && Within(steadyNow, at) && wallNs < b.stampMs * NS_PER_MS
    ensures match Revive(b, wallNs / NS_PER_MS, steadyNow)
            case None => b.ttlSeconds == 0
            case Some(e) => IsFresh(e, at) <==> at - steadyNow < b.ttlSeconds * NS_PER_SECOND
  {
    assert wallNs / NS_PER_MS < b.stampMs && ElapsedMs(b, wallNs / NS_PER_MS) == 0;
    if b.ttlSeconds > 0 {
      var e := Revive(b, wallNs / NS_PER_MS, steadyNow).value;
      assert e.ttlSeconds == b.ttlSeconds && e.storedAt == steadyNow;
      var d := at - steadyNow;
      assert AgeSeconds(e.storedAt, at) == d / NS_PER_SECOND;
      assert d == (d / NS_PER_SECOND) * NS_PER_SECOND + d % NS_PER_SECOND;
    }
  }

  // The window holds for all readings at or after the stamp exactly when the lifetime in milliseconds does not wrap
  // around.
  lemma WindowExactly<P>(b: Stored<P>)
    ensures b.ttlSeconds * 1000 < U64 <==>
            forall wallNs: nat, steadyNow: int, at: int :: Readable(b, wallNs, steadyNow, at) ==>
              InWindow(b, wallNs, steadyNow, at)
  {
    if b.ttlSeconds * 1000 < U64 {
      forall wallNs: nat, steadyNow: int, at: int | Readable(b, wallNs, steadyNow, at)
        ensures InWindow(b, wallNs, steadyNow, at)
      {
        PromotionWindow(b, wallNs, steadyNow, at);
      }
    } else {
      var wallNs := DroppedEarly(b, 0);
    }
  }

  // The grace period survives: a revived object can be served stale for its whole lifetime and grace period, and for
  // less than a second more, counted from its stamp.
  lemma StaleWindow<P>(b: Stored<P>, wallNs: nat, steadyNow: int, at: int)
    requires (b.ttlSeconds + b.swrSeconds) * 1000 < U64 && Readable(b, wallNs, steadyNow, at)
    ensures var since := SinceStamp(b, wallNs, steadyNow, at);
            match Revive(b, wallNs / NS_PER_MS, steadyNow)
            case None => true
            case Some(e) =>
              && e.payload == b.payload
              && (since < (b.ttlSeconds + b.swrSeconds) * NS_PER_SECOND ==> IsServeableStale(e, at))
              && (since >= (b.ttlSeconds + b.swrSeconds + 1) * NS_PER_SECOND ==> !IsServeableStale(e, at))
  {
    var wallMs := wallNs / NS_PER_MS;
    assert wallNs == wallMs * NS_PER_MS + wallNs % NS_PER_MS;
    var elapsed := ElapsedMs(b, wallMs);
    if elapsed < b.ttlSeconds * 1000 {
      assert elapsed == (elapsed / 1000) * 1000 + elapsed % 1000;
      var e := Revive(b, wallMs, steadyNow).value;
      assert e.ttlSeconds == b.ttlSeconds - elapsed / 1000;
      var d := at - steadyNow;
      assert AgeSeconds(e.storedAt, at) == d / NS_PER_SECOND;
      assert d == (d / NS_PER_SECOND) * NS_PER_SECOND + d % NS_PER_SECOND;
      assert IsServeableStale(e, at) <==> d < (e.ttlSeconds + e.swrSeconds) * NS_PER_SECOND;
    }
  }
}
