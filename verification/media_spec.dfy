/**
 * The pure rules of `wsapp_gui/media_manager.py`: how a ticker is split into
 * the symbol and market code of the EODHD logo service, the list of logo URLs
 * tried in turn, and the cache-hit rule of `get_logo_async`.
 */
module MediaSpec {
  import opened Wrappers
  import opened Text

  /** `_MARKET_MAP.get(suffix, 'US')`: the EODHD market code of an exchange suffix, `US` for an unknown one. */
  function MarketOf(suffix: string): string {
    match suffix
    case "TO" => "CA"
    case "V" => "CA"
    case "CN" => "CA"
    case "L" => "UK"
    case "DE" => "DE"
    case "PA" => "FR"
    case "AS" => "NL"
    case "BR" => "BE"
    case "MI" => "IT"
    case "SW" => "CH"
    case "MC" => "ES"
    case "HK" => "HK"
    case _ => "US"
  }

  /** The symbol and market code a logo is looked up under. */
  datatype Listing = Listing(base: string, market: string)

  /** `(symbol or '').upper().strip()`: the cleaned symbol. */
  function Clean(symbol: string): string {
    Strip(Upper(symbol))
  }

  /**
   * `_normalize_for_eodhd`: the cleaned symbol up to its first '.', and the
   * market of the suffix after it (`US` when there is no '.' or the suffix is
   * unknown).
   */
  function Normalize(symbol: string): (r: Listing)
    ensures var sym := Clean(symbol);
      && '.' !in r.base
      && |r.base| <= |sym| && r.base == sym[..|r.base|]
      && ('.' !in sym ==> r.base == sym && r.market == "US")
      && ('.' in sym ==> |r.base| < |sym| && sym[|r.base|] == '.' && r.market == MarketOf(sym[|r.base| + 1..]))
  {
    var sym := Clean(symbol);
    match SplitOnce(sym, '.')
    case None => Listing(sym, "US")
    case Some((base, suffix)) =>
      SplitPieces(sym, base, suffix);
      Listing(base, MarketOf(suffix))
  }

  /** The pieces around the first '.' of `sym` are its prefix before the '.' and its rest after it. */
  lemma SplitPieces(sym: string, base: string, suffix: string)
    requires sym == base + ['.'] + suffix
    ensures |base| < |sym| && sym[|base|] == '.'
    ensures sym[..|base|] == base && sym[|base| + 1..] == suffix
  {
    assert sym[..|base|] == base;
    assert sym[|base| + 1..] == suffix;
  }

  /** A clean ticker `base.suffix` is listed under `base` on the market of `suffix`. */
  lemma NormalizeListing(base: string, suffix: string)
    requires base != [] && '.' !in base && !IsSpace(base[0]) && Upper(base) == base
    requires suffix != [] && !IsSpace(suffix[|suffix| - 1]) && Upper(suffix) == suffix
    ensures Normalize(base + "." + suffix) == Listing(base, MarketOf(suffix))
  {
    var s := base + "." + suffix;
    assert s == base + ['.'] + suffix;
    UpperAppend(base, ['.'] + suffix);
    UpperAppend(['.'], suffix);
    assert Upper(['.']) == ['.'];
    assert Upper(s) == s;
    assert s[0] == base[0] && s[|s| - 1] == suffix[|suffix| - 1];
    StripEnds(s);
    SplitOnceAt(base, '.', suffix);
  }

  const EodhdPrefix := "https://eodhd.com/img/logos/"
  const IexPrefix := "https://storage.googleapis.com/iex/api/logos/"
  const FinnhubPrefix := "https://finnhub.io/api/logo?symbol="

  function EodhdUrl(l: Listing): (u: string)
    ensures |u| > 8 && u[8] == 'e'
  {
    EodhdPrefix + l.market + "/" + l.base + ".png"
  }

  function IexUrl(base: string): (u: string)
    ensures |u| > 8 && u[8] == 's'
  {
    IexPrefix + base + ".png"
  }

  /** `_finnhub_logo`, which uses the symbol as given, uppercased but not stripped. */
  function FinnhubUrl(symbol: string, key: string): (u: string)
    ensures |u| > 8 && u[8] == 'f'
  {
    FinnhubPrefix + Upper(symbol) + "&token=" + key
  }

  /**
   * `_logo_candidates` once the symbol is normalised to `l`, with the value
   * of `FINNHUB_API_KEY` (empty when the variable is unset or empty).
   */
  function Candidates(l: Listing, symbol: string, finnhubKey: string): (r: seq<string>)
    ensures |r| == 1 + (if l.market == "US" then 1 else 0) + (if finnhubKey != "" then 1 else 0)
    ensures r[0] == EodhdUrl(l)
    ensures l.market == "US" ==> r[1] == IexUrl(l.base)
    ensures finnhubKey != "" ==> r[|r| - 1] == FinnhubUrl(symbol, finnhubKey)
  {
    [EodhdUrl(l)]
      + (if l.market == "US" then [IexUrl(l.base)] else [])
      + (if finnhubKey != "" then [FinnhubUrl(symbol, finnhubKey)] else [])
  }

  /** `_logo_candidates`. */
  function LogoCandidates(symbol: string, finnhubKey: string): seq<string> {
    Candidates(Normalize(symbol), symbol, finnhubKey)
  }

  /**
   * EODHD is always tried first; the IEX URL is tried exactly when the market
   * is `US`, and the Finnhub URL exactly when the key is set.
   */
  lemma CandidatesByService(l: Listing, symbol: string, finnhubKey: string)
    ensures var r := Candidates(l, symbol, finnhubKey);
      && (IexUrl(l.base) in r <==> l.market == "US")
      && (FinnhubUrl(symbol, finnhubKey) in r <==> finnhubKey != "")
  {
    var r := Candidates(l, symbol, finnhubKey);
    var iex := IexUrl(l.base);
    var fh := FinnhubUrl(symbol, finnhubKey);
    if l.market == "US" {
      assert r[1] == iex;
    } else {
      assert forall i :: 0 <= i < |r| ==> r[i][8] != 's';
    }
    if finnhubKey != "" {
      assert r[|r| - 1] == fh;
    } else {
      assert forall i :: 0 <= i < |r| ==> r[i][8] != 'f';
    }
  }

  /** A cached logo: the image built from it, if any, and its bytes and size. */
  datatype Entry = Entry(image: Option<nat>, content: seq<bv8>, width: int, height: int)

  /** What `get_logo_async` does: call back with None, serve the cached image, or start a fetch of the cleaned symbol. */
  datatype LogoAction = NoSymbol | Served(image: Option<nat>) | Fetch(symbol: string)

  /** The time stamp of a symbol, 0 when it has none. */
  function StampOf(stamps: map<string, real>, symbol: string): real {
    if symbol in stamps then stamps[symbol] else 0.0
  }

  /** The cache-hit rule of `get_logo_async`. */
  function LogoRequest(cache: map<string, Entry>, stamps: map<string, real>, ttl: real, symbol: string, now: real): (r: LogoAction)
  {
    var sym := Clean(symbol);
    if sym == [] then NoSymbol
    else if sym in cache && now - StampOf(stamps, sym) < ttl then Served(cache[sym].image)
    else Fetch(sym)
  }

  /**
   * An empty symbol is answered with None; a cached entry younger than the
   * TTL is served without fetching; anything else is fetched, under the
   * cleaned symbol.
   */
  lemma LogoRequestCases(cache: map<string, Entry>, stamps: map<string, real>, ttl: real, symbol: string, now: real)
    ensures var r := LogoRequest(cache, stamps, ttl, symbol, now);
      var sym := Clean(symbol);
      && (r.NoSymbol? <==> sym == [])
      && (r.Served? <==> sym != [] && sym in cache && now - StampOf(stamps, sym) < ttl)
      && (r.Served? ==> r.image == cache[sym].image)
      && (r.Fetch? ==> r.symbol == sym)
  {
  }

  /** A logo stored at `at` is served to any request for it within the TTL. */
  lemma StoredServed(cache: map<string, Entry>, stamps: map<string, real>, ttl: real, symbol: string, e: Entry, at: real, now: real)
    requires Clean(symbol) != [] && now - at < ttl
    ensures LogoRequest(cache[Clean(symbol) := e], stamps[Clean(symbol) := at], ttl, symbol, now) == Served(e.image)
  {
  }

  /** `max(0.0, ttl)`. */
  function ClampTtl(ttl: real): (r: real)
    ensures r >= 0.0 && r >= ttl
    ensures ttl >= 0.0 ==> r == ttl
  {
    if ttl < 0.0 then 0.0 else ttl
  }

  /** `max(16, px)`. */
  function ClampDetailPx(px: int): (r: int)
    ensures r >= 16 && r >= px
    ensures px >= 16 ==> r == px
  {
    if px < 16 then 16 else px
  }

  /** `detail_logo_px or max(64, max_logo_px)`: an absent or zero size falls back to the larger of 64 and the list size. */
  function DetailPx(maxLogoPx: int, detail: Option<int>): (r: int)
    ensures detail.Some? && detail.value != 0 ==> r == detail.value
    ensures detail.None? || detail.value == 0 ==> r >= 64 && r >= maxLogoPx && (r == 64 || r == maxLogoPx)
  {
    if detail.Some? && detail.value != 0 then detail.value
    else if maxLogoPx > 64 then maxLogoPx else 64
  }

  /**
   * The initial TTL: `MEDIA_CACHE_TTL_SEC` when it is set and non-empty (its
   * numeric value, or the 3600 s default when it is not a number), else the
   * constructor's argument, else 3600 s.
   */
  function InitialTtl(envTtl: string, envValue: Option<real>, ttlSec: Option<real>): (r: real)
    ensures envTtl != "" && envValue.Some? ==> r == envValue.value
    ensures envTtl == "" && ttlSec.Some? ==> r == ttlSec.value
    ensures (envTtl != "" && envValue.None?) || (envTtl == "" && ttlSec.None?) ==> r == 3600.0
  {
    if envTtl != "" then envValue.GetOr(3600.0)
    else ttlSec.GetOr(3600.0)
  }
}
