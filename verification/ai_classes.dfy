/**
 * The two stateful parts of `enhanced_ai_system.py`: `Safety`, whose rate
 * limiter keeps one bucket of timestamps per key, and `ContextMemory`, the
 * rolling list of messages. Each method is proved against `EnhancedSpec`.
 */
module EnhancedAi {
  import opened Wrappers
  import opened EnhancedSpec

  class Safety {
    /** Calls allowed per key in any minute; at least 1. */
    var maxPerMinute: int
    /** `_buckets`: key to the times of its recent allowed calls. */
    var buckets: map<string, seq<real>>
    var deterministic: bool

    /** The quota is at least 1 and no bucket exceeds it. */
    ghost predicate Valid()
      reads this
    {
      maxPerMinute >= 1 && forall k :: k in buckets ==> |buckets[k]| <= maxPerMinute
    }

    /** `__init__`: the quota is clamped to at least 1. */
    constructor(maxPerMinute: int, deterministic: bool)
      ensures Valid()
      ensures this.maxPerMinute == if maxPerMinute < 1 then 1 else maxPerMinute
      ensures buckets == map[] && this.deterministic == deterministic
    {
      this.maxPerMinute := if maxPerMinute < 1 then 1 else maxPerMinute;
      buckets := map[];
      this.deterministic := deterministic;
    }

    /** The bucket of a key, empty when it has none yet. */
    function BucketOf(key: string): seq<real>
      reads this
    {
      if key in buckets then buckets[key] else []
    }

    /** `rate_limit` at time `now`. */
    method RateLimit(key: string, now: real) returns (ok: bool)
      requires Valid()
      modifies this
      ensures Valid()
      ensures ok == Allowed(old(BucketOf(key)), now, maxPerMinute)
      ensures buckets == old(buckets)[key := Bucket(old(BucketOf(key)), now, maxPerMinute)]
      ensures maxPerMinute == old(maxPerMinute) && deterministic == old(deterministic)
    {
      var arr := BucketOf(key);
      BucketBounded(arr, now, maxPerMinute);
      var recent := Recent(arr, now);
      if |recent| >= maxPerMinute {
        assert recent + [] == recent;
        buckets := buckets[key := recent];
        return false;
      }
      buckets := buckets[key := recent + [now]];
      return true;
    }
  }

  class ContextMemory {
    /** At least 4. */
    var maxItems: int
    var items: seq<MemoryItem>

    ghost predicate Valid()
      reads this
    {
      maxItems >= 4 && |items| <= maxItems
    }

    /** `__init__`: the capacity is clamped to at least 4. */
    constructor(maxItems: int)
      ensures Valid() && items == []
      ensures this.maxItems == if maxItems < 4 then 4 else maxItems
    {
      this.maxItems := if maxItems < 4 then 4 else maxItems;
      items := [];
    }

    /** `add` at time `now`. */
    method Add(role: string, text: string, now: real)
      requires Valid()
      modifies this
      ensures Valid()
      ensures items == Added(old(items), maxItems, MemoryItem(role, text, now))
      ensures maxItems == old(maxItems)
    {
      var item := MemoryItem(role, text, now);
      AddedBounded(items, maxItems, item);
      if text == [] {
        return;
      }
      items := items + [item];
      if |items| > maxItems {
        items := items[|items| / 2..];
      }
    }

    /** `clear`. */
    method Clear()
      modifies this
      ensures items == [] && maxItems == old(maxItems)
    {
      items := [];
    }
  }
}
