// A cached response with its lifetime, and the two freshness tests of the proxy.
module CacheEntries {
  // Time points are nanosecond counts; the seconds and milliseconds the code compares are obtained by
  // std::chrono::duration_cast, which truncates toward zero.

  const U64: nat := 0x1_0000_0000_0000_0000

  const NS_PER_SECOND: int := 1_000_000_000
  const NS_PER_MS: int := 1_000_000

  // The payload is generic: the byte-level components store a full HTTP payload, the request protocol
  // stores a response that remembers which version of the origin's content it carries.
  datatype CacheEntry<+P> = CacheEntry(payload: P, storedAt: int, ttlSeconds: nat, swrSeconds: nat)

  // Integer division as C++ does it: toward zero.
  function TruncDiv(x: int, d: int): int
    requires d > 0
  {
    if x >= 0 then x / d else -((-x) / d)
  }

  function Max(x: int, y: int): int {
    if x >= y then x else y
  }

  // static_cast<uint64_t> of a signed value.
  function ToU64(x: int): nat {
    if 0 <= x < U64 then x else x % U64
  }

  function AgeSeconds(storedAt: int, now: int): nat {
    ToU64(TruncDiv(now - storedAt, NS_PER_SECOND))
  }

  predicate IsFresh<P>(e: CacheEntry<P>, now: int) {
    AgeSeconds(e.storedAt, now) < e.ttlSeconds
  }

  predicate IsServeableStale<P>(e: CacheEntry<P>, now: int) {
    AgeSeconds(e.storedAt, now) < ToU64(e.ttlSeconds + e.swrSeconds)
  }

  // What the two casts amount to on clock readings a process can make: an entry is usable in an
  // open window that starts one second before it was stored (a reader may have taken its time
  // stamp just before the writer did) and ends when its whole lifetime has passed.
  lemma FreshWindow<P>(e: CacheEntry<P>, now: int)
    requires -0x4000_0000_0000_0000 < now - e.storedAt < 0x4000_0000_0000_0000
    requires e.ttlSeconds + e.swrSeconds < 0x8000_0000_0000_0000
    ensures IsFresh(e, now) <==>
            -NS_PER_SECOND < now - e.storedAt < e.ttlSeconds * NS_PER_SECOND
            && e.ttlSeconds > 0
    ensures IsServeableStale(e, now) <==>
            -NS_PER_SECOND < now - e.storedAt < (e.ttlSeconds + e.swrSeconds) * NS_PER_SECOND
            && e.ttlSeconds + e.swrSeconds > 0
  {
    var d := now - e.storedAt;
    if d <= -NS_PER_SECOND {
      assert TruncDiv(d, NS_PER_SECOND) <= -1;
    } else if d < 0 {
      assert TruncDiv(d, NS_PER_SECOND) == 0;
    }
  }
}
