/** The timed cache of provider answers (gateway/scaling/function_cache.go, function_meta.go). */
module FunctionCaches {

  import opened Wrappers
  import opened Service
  import opened ServiceName

  /** What one `Set` stored and when it did. Times are nanoseconds. */
  datatype SetEvent = SetEvent(pair: Pair, at: int, response: ServiceQueryResponse)

  datatype Entry = Entry(lastRefresh: int, response: ServiceQueryResponse)

  /** The cache that a sequence of `Set` calls leaves behind. */
  function Replay(history: seq<SetEvent>): map<string, Entry> {
    if history == [] then map[]
    else
      var last := history[|history| - 1];
      Replay(history[..|history| - 1])[CacheKey(last.pair) := Entry(last.at, last.response)]
  }

  lemma ReplayAppend(history: seq<SetEvent>, e: SetEvent)
    ensures Replay(history + [e]) == Replay(history)[CacheKey(e.pair) := Entry(e.at, e.response)]
  {
    assert (history + [e])[..|history|] == history;
  }

  /** What `Get` answers from the entries of a cache. */
  function Lookup(entries: map<string, Entry>, key: string, expiry: int, now: int): (ServiceQueryResponse, bool) {
    if key in entries then (entries[key].response, !(now > entries[key].lastRefresh + expiry))
    else (EMPTY_RESPONSE, false)
  }

  /** The reference: the last `Set` for a pair, in a history that knows nothing of keys. */
  function LatestSet(history: seq<SetEvent>, pair: Pair): (r: Option<SetEvent>)
    ensures r.Some? ==> r.value in history && r.value.pair == pair
    ensures r.None? ==> forall e :: e in history ==> e.pair != pair
  {
    if history == [] then None
    else
      var last := history[|history| - 1];
      if last.pair == pair then Some(last) else LatestSet(history[..|history| - 1], pair)
  }

  predicate Fresh(history: seq<SetEvent>, pair: Pair, expiry: int, now: int) {
    var latest := LatestSet(history, pair);
    latest.Some? && now <= latest.value.at + expiry
  }

  /** No `Set` was for a function whose key is that of `pair` although it is another one. */
  ghost predicate Unconfused(history: seq<SetEvent>, pair: Pair) {
    forall e :: e in history ==> !Shifted(e.pair, pair) && !Shifted(pair, e.pair)
  }

  /**
   What the cache promises: a lookup hits exactly when the latest `Set` for that very pair is at
   most `expiry` old, it gives the value of that `Set`, also when it has expired, and it gives the
   empty response when there was none.
   */
  ghost predicate Refines(history: seq<SetEvent>, pair: Pair, expiry: int, now: int) {
    var (response, hit) := Lookup(Replay(history), CacheKey(pair), expiry, now);
    && (hit <==> Fresh(history, pair, expiry, now))
    && response == (match LatestSet(history, pair)
                    case Some(e) => e.response
                    case None => EMPTY_RESPONSE)
  }

  /** The cache refines the plain history, as long as no function with the same key was stored. */
  lemma {:induction false} CacheRefinesHistory(history: seq<SetEvent>, pair: Pair, expiry: int, now: int)
    requires Unconfused(history, pair)
    ensures Refines(history, pair, expiry, now)
    decreases |history|
  {
    if history != [] {
      var n := |history| - 1;
      assert history[n] in history;
      KeysCollide(history[n].pair, pair);
      CacheRefinesHistory(history[..n], pair, expiry, now);
    }
  }

  /** One `Set` for a function with the same key is answered, although nothing was stored for this one. */
  lemma ShiftedIsAnswered(p: Pair, q: Pair, response: ServiceQueryResponse, expiry: nat)
    requires Shifted(p, q) || Shifted(q, p)
    ensures var history := [SetEvent(p, 0, response)];
            && Lookup(Replay(history), CacheKey(q), expiry, expiry) == (response, true)
            && LatestSet(history, q) == None
            && !Refines(history, q, expiry, expiry)
  {
    KeysCollide(p, q);
    assert p != q;
    assert [SetEvent(p, 0, response)][..0] == [];
  }

  ghost predicate HistoryOf(history: seq<SetEvent>, pairs: iset<Pair>) {
    forall e :: e in history ==> e.pair in pairs
  }

  ghost predicate AlwaysRefines(pairs: iset<Pair>) {
    forall history, pair, expiry, now :: HistoryOf(history, pairs) && pair in pairs ==> Refines(history, pair, expiry, now)
  }

  /**
   For the functions of a set, the cache refines every history at every time exactly when no two of
   them place the split of one text at different dots.
   */
  lemma RefinesExactlyWhenKeysApart(pairs: iset<Pair>)
    ensures AlwaysRefines(pairs) <==> KeysApart(pairs)
  {
    if KeysApart(pairs) {
      forall history, pair, expiry, now | HistoryOf(history, pairs) && pair in pairs
        ensures Refines(history, pair, expiry, now)
      {
        CacheRefinesHistory(history, pair, expiry, now);
      }
    } else {
      var p, q :| p in pairs && q in pairs && Shifted(p, q);
      var history := [SetEvent(p, 0, EMPTY_RESPONSE)];
      ShiftedIsAnswered(p, q, EMPTY_RESPONSE, 0);
      assert HistoryOf(history, pairs);
    }
  }

  /**
   A `Set` for one pair leaves the answer for another alone exactly when their keys differ, that is
   when the pairs differ and neither is the other with its split at another dot.
   */
  lemma SetElsewhere(history: seq<SetEvent>, e: SetEvent, pair: Pair, expiry: int, now: int)
    ensures var before := Lookup(Replay(history), CacheKey(pair), expiry, now);
            var after := Lookup(Replay(history + [e]), CacheKey(pair), expiry, now);
            after == if pair == e.pair || Shifted(pair, e.pair) || Shifted(e.pair, pair)
                     then (e.response, now <= e.at + expiry) else before
  {
    assert (history + [e])[..|history|] == history;
    KeysCollide(pair, e.pair);
  }

  /** `FunctionMeta`, whose two fields `Set` overwrites. */
  class FunctionMeta {
    var lastRefresh: int
    var response: ServiceQueryResponse

    constructor ()
      ensures lastRefresh == 0 && response == EMPTY_RESPONSE
    {
      lastRefresh, response := 0, EMPTY_RESPONSE;
    }

    /** `time.Now().After(fm.LastRefresh.Add(expiry))`. */
    predicate Expired(expiry: int, now: int)
      reads this
    {
      now > lastRefresh + expiry
    }
  }

  class FunctionCache {
    var cache: map<string, FunctionMeta>
    const expiry: int
    ghost var history: seq<SetEvent>
    ghost var entries: map<string, Entry>
    ghost var Repr: set<object>

    /** The map holds the entry of a key. */
    ghost predicate Agrees(key: string)
      reads this, Repr
    {
      && (key in cache <==> key in entries)
      && (key in cache ==>
            && cache[key] in Repr && cache[key] as object != this
            && entries[key] == Entry(cache[key].lastRefresh, cache[key].response))
    }

    ghost predicate Apart(k1: string, k2: string)
      reads this
    {
      k1 in cache && k2 in cache && k1 != k2 ==> cache[k1] != cache[k2]
    }

    /** Different keys have different entries in the map. */
    ghost predicate Kept()
      reads this, Repr
      ensures Kept() ==> this in Repr
    {
      && this in Repr
      && (forall key :: Agrees(key))
      && (forall k1, k2 :: Apart(k1, k2))
    }

    /** The map holds what the calls of `Set` stored. */
    ghost predicate Valid()
      reads this, Repr
      ensures Valid() ==> this in Repr
    {
      Kept() && entries == Replay(history)
    }

    constructor (cacheExpiry: int)
      ensures Valid() && history == [] && expiry == cacheExpiry && fresh(Repr)
    {
      cache, expiry, history, entries, Repr := map[], cacheExpiry, [], map[], {this};
    }

    /** `now` is what the clock shows inside the lock. */
    method Set(pair: Pair, queryRes: ServiceQueryResponse, now: int)
      requires Valid()
      modifies Repr
      ensures Valid() && fresh(Repr - old(Repr))
      ensures history == old(history) + [SetEvent(pair, now, queryRes)]
    {
      ghost var e := SetEvent(pair, now, queryRes);
      ReplayAppend(history, e);
      Put(CacheKey(pair), queryRes, now, e);
    }

    /** The entry of a key, made when there is none, is overwritten in place; `e` goes on record. */
    method Put(key: string, queryRes: ServiceQueryResponse, now: int, ghost e: SetEvent)
      requires Kept()
      modifies Repr
      ensures Kept() && fresh(Repr - old(Repr)) && history == old(history) + [e]
      ensures entries == old(entries)[key := Entry(now, queryRes)]
    {
      assert Agrees(key);
      var meta := Locate(key);
      meta.lastRefresh := now;
      meta.response := queryRes;
      entries, history := entries[key := Entry(now, queryRes)], history + [e];
      forall k ensures Agrees(k) {
        assert old(Agrees(k)) && old(Agrees(key)) && old(Apart(k, key));
      }
      forall k1, k2 ensures Apart(k1, k2) {
        assert old(Apart(k1, k2)) && old(Agrees(k1)) && old(Agrees(k2));
      }
    }

    /** The entry of a key, which is made when the map has none. */
    method Locate(key: string) returns (meta: FunctionMeta)
      modifies this
      ensures history == old(history) && entries == old(entries)
      ensures key in old(cache) ==> cache == old(cache) && Repr == old(Repr) && meta == cache[key]
      ensures key !in old(cache) ==> cache == old(cache)[key := meta] && Repr == old(Repr) + {meta} && fresh(meta)
    {
      if key !in cache {
        meta := new FunctionMeta();
        cache := cache[key := meta];
        Repr := Repr + {meta};
      }
      meta := cache[key];
    }

    method Get(pair: Pair, now: int) returns (queryRes: ServiceQueryResponse, hit: bool)
      requires Valid()
      ensures (queryRes, hit) == Lookup(Replay(history), CacheKey(pair), expiry, now)
    {
      queryRes, hit := EMPTY_RESPONSE, false;
      var key := CacheKey(pair);
      assert Agrees(key);
      if key in cache {
        queryRes := cache[key].response;
        hit := !cache[key].Expired(expiry, now);
      }
    }
  }
}
