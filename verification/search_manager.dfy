/**
 * `SearchManager` (`wsapp_gui/search_manager.py`): the query validation of
 * `search_securities` and the result cache it reads and fills, keyed by the
 * lowercased query. Each method is proved against `SearchCacheSpec`.
 */
module SearchManagers {
  import opened Wrappers
  import opened Text
  import opened SearchCacheSpec

  /** What the API call of the search worker gave back. */
  datatype Fetched = Rows(rows: seq<Row>) | NotAList | Raised(message: string)

  /** What a search shows: a refusal, cached rows, fetched rows, or the error of the fetch. */
  datatype Outcome = Rejected(status: string) | FromCache(rows: seq<Row>) | Found(rows: seq<Row>) | Failed(message: string)

  const EmptyQuery := "Veuillez entrer un terme de recherche"
  const ShortQuery := "Le terme de recherche doit contenir au moins 2 caractères"
  const NotConnected := "Non connecté à l'API"

  /** The rows the worker caches: a result that is not a list counts as no rows; an exception caches nothing. */
  function Returned(f: Fetched): (r: Option<seq<Row>>)
    ensures r.None? <==> f.Raised?
    ensures f.NotAList? ==> r == Some([])
  {
    match f
    case Rows(rows) => Some(rows)
    case NotAList => Some([])
    case Raised(_) => None
  }

  /** Why a query is refused before the cache is consulted, if it is. */
  function Refusal(query: string, connected: bool): (r: Option<string>)
    ensures r.None? <==> |query| >= 2 && connected
  {
    if query == [] then Some(EmptyQuery)
    else if |query| < 2 then Some(ShortQuery)
    else if !connected then Some(NotConnected)
    else None
  }

  class SearchManager {
    /** `_search_cache`: lowercased query to results and the time they were stored. */
    var searchCache: Dict
    /** `_last_query`: the last query sent to the API. */
    var lastQuery: string

    /** The cache is a well-formed dict of at most `Capacity` queries. */
    ghost predicate Valid()
      reads this
    {
      WellFormed(searchCache) && |searchCache.order| <= Capacity
    }

    constructor()
      ensures Valid() && searchCache.entries == map[] && lastQuery == ""
    {
      searchCache := Dict([], map[]);
      lastQuery := "";
    }

    /** `_is_cache_valid`. */
    method IsCacheValid(query: string, now: real) returns (ok: bool)
      ensures ok == Fresh(searchCache, query, now)
    {
      if query !in searchCache.entries {
        return false;
      }
      ok := now - searchCache.entries[query].stamp < Ttl;
    }

    /** `_get_cached_results`. */
    method GetCachedResults(query: string, now: real) returns (r: Option<seq<Row>>)
      ensures r == Lookup(searchCache, query, now)
    {
      var valid := IsCacheValid(query, now);
      if valid {
        return Some(searchCache.entries[query].results);
      }
      return None;
    }

    /** `_cache_results`: stores, then evicts the oldest query when more than `Capacity` are held. */
    method CacheResults(query: string, results: seq<Row>, now: real)
      requires Valid()
      modifies this
      ensures Valid()
      ensures searchCache == Cached(old(searchCache), query, results, now)
      ensures lastQuery == old(lastQuery)
    {
      searchCache := Put(searchCache, query, Entry(results, now));
      if |searchCache.order| > Capacity {
        var oldest := OldestIn(searchCache, |searchCache.order|);
        searchCache := Remove(searchCache, oldest);
      }
      CachedBounded(old(searchCache), query, results, now);
    }

    /**
     * `search_securities` with the text of the search box, whether the API is
     * connected, the current time, and the worker's fetch with the time it
     * finished: a refused query touches nothing, a fresh cache entry of the
     * lowercased query is served as is, and otherwise the fetched rows are
     * cached under the lowercased query.
     */
    method SearchSecurities(text: string, connected: bool, now: real, fetched: Fetched, doneAt: real)
      returns (out: Outcome)
      requires Valid()
      modifies this
      ensures Valid()
      ensures var query := Strip(text);
        && (out.Rejected? <==> Refusal(query, connected).Some?)
        && (out.Rejected? ==> out.status == Refusal(query, connected).value)
        && (out.FromCache? <==> !out.Rejected? && Fresh(old(searchCache), Lower(query), now))
        && (out.FromCache? ==> out.rows == old(searchCache).entries[Lower(query)].results)
        && (out.Failed? <==> !out.Rejected? && !out.FromCache? && fetched.Raised?)
        && (out.Found? ==> out.rows == Returned(fetched).value)
      ensures var query := Strip(text);
        if out.Rejected? || out.FromCache? then searchCache == old(searchCache) && lastQuery == old(lastQuery)
        else
          && lastQuery == query
          && searchCache == (if out.Failed? then old(searchCache)
                             else Cached(old(searchCache), Lower(query), Returned(fetched).value, doneAt))
    {
      var query := Strip(text);
      if query == [] {
        return Rejected(EmptyQuery);
      }
      if |query| < 2 {
        return Rejected(ShortQuery);
      }
      if !connected {
        return Rejected(NotConnected);
      }
      var cached := GetCachedResults(Lower(query), now);
      if cached.Some? {
        return FromCache(cached.value);
      }
      lastQuery := query;
      match fetched
      case Raised(message) =>
        out := Failed(message);
      case NotAList =>
        CacheResults(Lower(query), [], doneAt);
        out := Found([]);
      case Rows(rows) =>
        CacheResults(Lower(query), rows, doneAt);
        out := Found(rows);
    }
  }
}
