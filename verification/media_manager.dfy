/**
 * `MediaManager` (`wsapp_gui/media_manager.py`): the logo cache, its TTL and
 * the two sizes, changed in place by the settings setters and by storing a
 * fetched logo. Each method is proved against `MediaSpec`.
 */
module MediaManagers {
  import opened Wrappers
  import opened MediaSpec

  class MediaManager {
    /** Size of the logos in lists. */
    var maxLogoPx: int
    /** Size of the logo in the detail view. */
    var detailLogoPx: int
    /** `_ttl`: seconds a cached logo is served without fetching. */
    var ttl: real
    /** `_logo_cache`: cleaned symbol to stored logo. */
    var logoCache: map<string, Entry>
    /** `_logo_cache_ts`: cleaned symbol to the time its logo was stored. */
    var logoCacheTs: map<string, real>

    /**
     * `__init__`, with the text of `MEDIA_CACHE_TTL_SEC` (empty when unset)
     * and its numeric value when it has one.
     */
    constructor(maxLogoPx: int, detailLogoPx: Option<int>, ttlSec: Option<real>, envTtl: string, envValue: Option<real>)
      ensures this.maxLogoPx == maxLogoPx
      ensures this.detailLogoPx == DetailPx(maxLogoPx, detailLogoPx)
      ensures ttl == InitialTtl(envTtl, envValue, ttlSec)
      ensures logoCache == map[] && logoCacheTs == map[]
    {
      this.maxLogoPx := maxLogoPx;
      this.detailLogoPx := DetailPx(maxLogoPx, detailLogoPx);
      ttl := InitialTtl(envTtl, envValue, ttlSec);
      logoCache := map[];
      logoCacheTs := map[];
    }

    /** `set_ttl`, with `float(ttl_sec)`, or None when the conversion raises and nothing changes. */
    method SetTtl(ttlSec: Option<real>)
      modifies this
      ensures ttl == if ttlSec.Some? then ClampTtl(ttlSec.value) else old(ttl)
      ensures maxLogoPx == old(maxLogoPx) && detailLogoPx == old(detailLogoPx)
      ensures logoCache == old(logoCache) && logoCacheTs == old(logoCacheTs)
    {
      if ttlSec.Some? {
        ttl := if ttlSec.value < 0.0 then 0.0 else ttlSec.value;
      }
    }

    /** `set_detail_logo_px`, with `int(px)`, or None when the conversion raises and nothing changes. */
    method SetDetailLogoPx(px: Option<int>)
      modifies this
      ensures detailLogoPx == if px.Some? then ClampDetailPx(px.value) else old(detailLogoPx)
      ensures maxLogoPx == old(maxLogoPx) && ttl == old(ttl)
      ensures logoCache == old(logoCache) && logoCacheTs == old(logoCacheTs)
    {
      if px.Some? {
        detailLogoPx := if px.value < 16 then 16 else px.value;
      }
    }

    /** The synchronous part of `get_logo_async` at time `now`: it reads the cache and changes nothing. */
    method GetLogoAsync(symbol: string, now: real) returns (action: LogoAction)
      ensures action == LogoRequest(logoCache, logoCacheTs, ttl, symbol, now)
    {
      var sym := Clean(symbol);
      if sym == [] {
        return NoSymbol;
      }
      var ts := if sym in logoCacheTs then logoCacheTs[sym] else 0.0;
      if sym in logoCache && now - ts < ttl {
        return Served(logoCache[sym].image);
      }
      return Fetch(sym);
    }

    /** `_store_logo` at time `now`: the entry and its time stamp are stored under the symbol. */
    method StoreLogo(symbol: string, e: Entry, now: real)
      modifies this
      ensures logoCache == old(logoCache)[symbol := e] && logoCacheTs == old(logoCacheTs)[symbol := now]
      ensures maxLogoPx == old(maxLogoPx) && detailLogoPx == old(detailLogoPx) && ttl == old(ttl)
    {
      logoCache := logoCache[symbol := e];
      logoCacheTs := logoCacheTs[symbol := now];
    }
  }
}
