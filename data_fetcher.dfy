/**
 * The client's GET cache (DataFetcher.js): a list of fetched results, looked
 * up by url and parameters, with an age check written as
 * `timestamp - now > 300 * 1000`.
 */
module DataFetcher {
  import opened JsValues
  import opened Sequences

  /** URL parameters; `deepEqual` on them is equality. */
  type Parameters = map<string, JsValue>

  datatype CacheEntry<D> = CacheEntry(url: string, parameters: Parameters, data: D, timestamp: int)

  /** The validity the constructor sets. */
  const ValidSeconds: int := 300

  /** The first entry for this url and these parameters. */
  function FirstMatch<D>(entries: seq<CacheEntry<D>>, url: string, parameters: Parameters): (r: Option<nat>)
    ensures r.None? <==> forall k :: 0 <= k < |entries| ==> !(entries[k].url == url && entries[k].parameters == parameters)
    ensures r.Some? ==> r.value < |entries| && entries[r.value].url == url && entries[r.value].parameters == parameters
    ensures r.Some? ==> forall k :: 0 <= k < r.value ==> !(entries[k].url == url && entries[k].parameters == parameters)
  {
    FirstFailure(entries, (e: CacheEntry<D>) => !(e.url == url && e.parameters == parameters), 0)
  }

  /** The age test as written: the entry's timestamp minus the current time
      exceeds the validity. */
  predicate Expired<D>(entry: CacheEntry<D>, now: int, validSeconds: int)
  {
    entry.timestamp - now > validSeconds * 1000
  }

  /** `s.splice(start, count)` on the array: `count` elements removed from
      `start`, or as many as there are. */
  function Spliced<T>(s: seq<T>, start: nat, count: nat): (r: seq<T>)
    requires start <= |s|
    ensures |r| == |s| - (if start + count <= |s| then count else |s| - start)
    ensures r[..start] == s[..start]
    ensures count == 0 ==> r == s
  {
    var stop := if start + count <= |s| then start + count else |s|;
    assert (s[..start] + s[stop..])[..start] == s[..start];
    s[..start] + s[stop..]
  }

  /** An entry stamped no later than `now` is never expired: its age as
      written is not positive. */
  lemma PastEntriesNeverExpire<D>(entries: seq<CacheEntry<D>>, now: int, validSeconds: int)
    requires validSeconds >= 0
    requires forall k :: 0 <= k < |entries| ==> entries[k].timestamp <= now
    ensures forall k :: 0 <= k < |entries| ==> !Expired(entries[k], now, validSeconds)
  {
  }

  /** The age test evidently intended: the entry is older than the
      validity. */
  predicate ExpiredAsIntended<D>(entry: CacheEntry<D>, now: int, validSeconds: int)
  {
    now - entry.timestamp > validSeconds * 1000
  }

  /** An answer of the cache and the entries it keeps. */
  datatype Lookup<D> = Lookup(result: Option<CacheEntry<D>>, kept: seq<CacheEntry<D>>)

  /** The lookup evidently intended: the first matching entry is served
      while it is young enough; once too old, it alone is removed
      (`splice(i, 1)`) and the caller fetches again. */
  function IntendedLookup<D>(entries: seq<CacheEntry<D>>, url: string, parameters: Parameters, now: int, validSeconds: int)
    : (r: Lookup<D>)
    ensures FirstMatch(entries, url, parameters).None? ==> r == Lookup(None, entries)
    ensures r.result.Some? ==> r.result.value.url == url && r.result.value.parameters == parameters
    ensures r.result.Some? ==> !ExpiredAsIntended(r.result.value, now, validSeconds)
  {
    match FirstMatch(entries, url, parameters)
    case None => Lookup(None, entries)
    case Some(i) =>
      if ExpiredAsIntended(entries[i], now, validSeconds) then Lookup(None, Spliced(entries, i, 1))
      else Lookup(Some(entries[i]), entries)
  }

  /** An entry older than the validity is not served: it is removed, with
      nothing else, and the next lookup misses it. */
  lemma IntendedLookupRefetchesOld<D>(entries: seq<CacheEntry<D>>, url: string, parameters: Parameters, now: int, validSeconds: int)
    requires FirstMatch(entries, url, parameters).Some?
    requires ExpiredAsIntended(entries[FirstMatch(entries, url, parameters).value], now, validSeconds)
    ensures var i := FirstMatch(entries, url, parameters).value;
      var r := IntendedLookup(entries, url, parameters, now, validSeconds);
      && r.result == None
      && |r.kept| == |entries| - 1
      && r.kept == entries[..i] + entries[i + 1..]
  {
    var i := FirstMatch(entries, url, parameters).value;
    assert Spliced(entries, i, 1) == entries[..i] + entries[i + 1..];
  }

  /** An entry at most the validity old is served and the cache is kept. */
  lemma IntendedLookupServesYoung<D>(entries: seq<CacheEntry<D>>, url: string, parameters: Parameters, now: int, validSeconds: int)
    requires FirstMatch(entries, url, parameters).Some?
    requires now - entries[FirstMatch(entries, url, parameters).value].timestamp <= validSeconds * 1000
    ensures var i := FirstMatch(entries, url, parameters).value;
      IntendedLookup(entries, url, parameters, now, validSeconds) == Lookup(Some(entries[i]), entries)
  {
  }

  /** As written, an entry cached an hour ago is still fresh, while the
      intended test finds it expired after 300 seconds. */
  lemma StaleEntryServedAsWritten<D>(e: CacheEntry<D>, now: int)
    requires e.timestamp == now - 3600 * 1000
    ensures !Expired(e, now, ValidSeconds)
    ensures ExpiredAsIntended(e, now, ValidSeconds)
  {
  }

  /** Appending never changes which entry a lookup finds first, so a url
      whose first entry is found keeps being answered from that entry. */
  lemma {:induction false} FirstMatchStable<D>(entries: seq<CacheEntry<D>>, e: CacheEntry<D>, url: string, parameters: Parameters)
    requires FirstMatch(entries, url, parameters).Some?
    ensures FirstMatch(entries + [e], url, parameters) == FirstMatch(entries, url, parameters)
  {
    var i := FirstMatch(entries, url, parameters).value;
    var s := entries + [e];
    assert s[i] == entries[i];
    assert forall k :: 0 <= k < i ==> s[k] == entries[k];
  }

  class DataFetcher<D> {
    var cachedResults: seq<CacheEntry<D>>
    const cacheValidDurationInSeconds: int

    /** A new fetcher: empty cache, 300 seconds validity. */
    constructor ()
      ensures cachedResults == [] && cacheValidDurationInSeconds == ValidSeconds
    {
      cachedResults := [];
      cacheValidDurationInSeconds := ValidSeconds;
    }

    /** getCachedResultForUrl at time `now`: the first matching entry,
        unless the age test fires, in which case `splice(i, i)` runs and
        the answer is None. */
    method GetCachedResultForUrl(url: string, parameters: Parameters, now: int) returns (result: Option<CacheEntry<D>>)
      modifies this
      ensures var found := FirstMatch(old(cachedResults), url, parameters);
        match found
        case None => result == None && cachedResults == old(cachedResults)
        case Some(i) =>
          if Expired(old(cachedResults)[i], now, cacheValidDurationInSeconds) then
            result == None && cachedResults == Spliced(old(cachedResults), i, i)
          else
            result == Some(old(cachedResults)[i]) && cachedResults == old(cachedResults)
    {
      var i := 0;
      while i < |cachedResults|
        invariant 0 <= i <= |cachedResults|
        invariant cachedResults == old(cachedResults)
        invariant forall k :: 0 <= k < i ==> !(cachedResults[k].url == url && cachedResults[k].parameters == parameters)
      {
        if cachedResults[i].url == url && cachedResults[i].parameters == parameters {
          var millisecondsSinceCached := cachedResults[i].timestamp - now;
          if millisecondsSinceCached > cacheValidDurationInSeconds * 1000 {
            cachedResults := Spliced(cachedResults, i, i);
            return None;
          } else {
            return Some(cachedResults[i]);
          }
        }
        i := i + 1;
      }
      return None;
    }

    /** get at time `now`. On a miss the response is `fetched`, received at
        time `receivedAt`, and is appended to the cache when `cacheResult`
        holds; on a hit the cached data is returned and nothing is fetched. */
    method Get(url: string, parameters: Parameters, cacheResult: bool, now: int, fetched: D, receivedAt: int)
      returns (data: D, fromCache: bool)
      modifies this
      ensures var found := FirstMatch(old(cachedResults), url, parameters);
        var hit := found.Some? && !Expired(old(cachedResults)[found.value], now, cacheValidDurationInSeconds);
        && fromCache == hit
        && (hit ==> data == old(cachedResults)[found.value].data && cachedResults == old(cachedResults))
        && (!hit ==> data == fetched)
      ensures !fromCache ==>
        var found := FirstMatch(old(cachedResults), url, parameters);
        var kept := if found.None? then old(cachedResults) else Spliced(old(cachedResults), found.value, found.value);
        cachedResults == kept + (if cacheResult then [CacheEntry(url, parameters, fetched, receivedAt)] else [])
    {
      var cachedResult := GetCachedResultForUrl(url, parameters, now);
      if cachedResult.None? {
        if cacheResult {
          cachedResults := cachedResults + [CacheEntry(url, parameters, fetched, receivedAt)];
        }
        return fetched, false;
      }
      return cachedResult.value.data, true;
    }
  }

  /** After a miss that caches its result, the next lookup for the same
      url and parameters finds the new entry. */
  lemma AppendedEntryIsFound<D>(entries: seq<CacheEntry<D>>, url: string, parameters: Parameters, data: D, timestamp: int)
    requires FirstMatch(entries, url, parameters).None?
    ensures FirstMatch(entries + [CacheEntry(url, parameters, data, timestamp)], url, parameters) == Some(|entries|)
  {
    var s := entries + [CacheEntry(url, parameters, data, timestamp)];
    assert forall k :: 0 <= k < |entries| ==> s[k] == entries[k];
    assert s[|entries|].url == url && s[|entries|].parameters == parameters;
    var found := FirstMatch(s, url, parameters);
    assert found.Some?;
    assert found.value >= |entries|;
  }

  /** At index 0, `splice(i, i)` removes nothing: an expired first entry
      stays in the cache. At index 2 of five entries it removes two. */
  lemma SpliceRemovesIndexCount<T>(s: seq<T>)
    requires |s| == 5
    ensures Spliced(s, 0, 0) == s
    ensures Spliced(s, 2, 2) == s[..2] + s[4..]
  {
  }
}
