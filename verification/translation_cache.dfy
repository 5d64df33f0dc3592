/** The translation cache of `query_manager.go`: a compiled statement is
    looked up first, translated by the driver only on a miss, and stored only
    when the translation succeeds. The cache is a plain map from statement text
    to translation; the driver's `Translate` is a function parameter. */
module TranslationCache {
  import opened Wrappers
  import opened Driver

  /** What one lookup returns, the cache it leaves behind, and whether the
      driver's `Translate` was called. */
  datatype Handled<T> = Handled(result: Result<T, Error>, cache: map<string, T>, translated: bool)

  /** `handleTranslationCache`. */
  function Handle<T>(cache: map<string, T>, stmt: string, translate: string -> Result<T, Error>): (r: Handled<T>)
    ensures r.translated <==> stmt !in cache
    ensures stmt in cache ==> r.result == Ok(cache[stmt]) && r.cache == cache
    ensures stmt !in cache ==> r.result == translate(stmt)
    ensures r.result.Err? ==> r.cache == cache
    ensures r.result.Ok? ==> r.cache == cache[stmt := r.result.value]
  {
    if stmt in cache then Handled(Ok(cache[stmt]), cache, false)
    else
      match translate(stmt)
      case Err(e) => Handled(Err(e), cache, true)
      case Ok(t) => Handled(Ok(t), cache[stmt := t], true)
  }

  /** Every cached entry is what the driver would translate its key to. */
  ghost predicate Coherent<T>(cache: map<string, T>, translate: string -> Result<T, Error>) {
    forall s :: s in cache ==> translate(s) == Ok(cache[s])
  }

  /** Caching is invisible: with a coherent cache, a lookup answers what the
      driver itself answers, and the cache stays coherent. */
  lemma HandleTransparent<T>(cache: map<string, T>, stmt: string, translate: string -> Result<T, Error>)
    requires Coherent(cache, translate)
    ensures Handle(cache, stmt, translate).result == translate(stmt)
    ensures Coherent(Handle(cache, stmt, translate).cache, translate)
  {
    var r := Handle(cache, stmt, translate);
    forall s | s in r.cache
      ensures translate(s) == Ok(r.cache[s])
    {
      if s != stmt || stmt in cache {
        assert s in cache;
      }
    }
  }

  /** A hit never consults the driver and leaves the cache as it was; a miss
      consults it once and grows the cache by at most the looked-up key. */
  lemma HandleKeys<T>(cache: map<string, T>, stmt: string, translate: string -> Result<T, Error>)
    ensures var r := Handle(cache, stmt, translate);
      cache.Keys <= r.cache.Keys <= cache.Keys + {stmt}
      && (forall s :: s in cache ==> r.cache[s] == cache[s])
  {
  }

  /** Once a statement has translated, looking it up again is a hit that
      returns the same translation without calling the driver. */
  lemma HandleThenHit<T>(cache: map<string, T>, stmt: string, translate: string -> Result<T, Error>)
    requires Handle(cache, stmt, translate).result.Ok?
    ensures var h := Handle(cache, stmt, translate);
      var again := Handle(h.cache, stmt, translate);
      !again.translated && again.result == h.result && again.cache == h.cache
  {
  }

  // ---------------------------------------------------------------------
  // Eviction

  /** The time-and-size-bounded cache may drop any entries at any time; what
      remains is a sub-map of what was there. */
  function Evict<T>(cache: map<string, T>, keep: set<string>): (r: map<string, T>)
    ensures r.Keys == cache.Keys * keep
    ensures forall s :: s in r ==> r[s] == cache[s]
  {
    map s | s in cache && s in keep :: cache[s]
  }

  /** Dropping entries keeps the cache coherent, so lookups stay transparent. */
  lemma EvictCoherent<T>(cache: map<string, T>, keep: set<string>, translate: string -> Result<T, Error>)
    requires Coherent(cache, translate)
    ensures Coherent(Evict(cache, keep), translate)
  {
  }

  // ---------------------------------------------------------------------
  // A run of lookups

  /** What a run of lookups returns, in order, and the driver calls it made. */
  datatype Run<T> = Run(results: seq<Result<T, Error>>, cache: map<string, T>, translations: nat)

  function HandleAll<T>(cache: map<string, T>, stmts: seq<string>, translate: string -> Result<T, Error>): (r: Run<T>)
    ensures |r.results| == |stmts|
    ensures r.translations <= |stmts|
    ensures cache.Keys <= r.cache.Keys
    decreases |stmts|
  {
    if stmts == [] then Run([], cache, 0)
    else
      var h := Handle(cache, stmts[0], translate);
      var rest := HandleAll(h.cache, stmts[1..], translate);
      Run([h.result] + rest.results, rest.cache, rest.translations + if h.translated then 1 else 0)
  }

  /** The statements of `stmts` that `cache` does not hold. */
  function Missing<T>(cache: map<string, T>, stmts: seq<string>): set<string> {
    set s | s in stmts && s !in cache
  }

  lemma MissingHit<T>(cache: map<string, T>, s0: string, rest: seq<string>)
    requires s0 in cache
    ensures Missing(cache, [s0] + rest) == Missing(cache, rest)
  {
    assert forall s :: s in [s0] + rest <==> s == s0 || s in rest;
  }

  lemma MissingMiss<T>(cache: map<string, T>, s0: string, t: T, rest: seq<string>)
    requires s0 !in cache
    ensures Missing(cache, [s0] + rest) == Missing(cache[s0 := t], rest) + {s0}
    ensures s0 !in Missing(cache[s0 := t], rest)
  {
    assert forall s :: s in [s0] + rest <==> s == s0 || s in rest;
  }

  /** When the driver translates every statement of the run, each statement the
      cache lacks is translated exactly once, however often it repeats. */
  lemma {:induction false} TranslatedOnce<T>(cache: map<string, T>, stmts: seq<string>, translate: string -> Result<T, Error>)
    requires forall i :: 0 <= i < |stmts| ==> translate(stmts[i]).Ok?
    ensures HandleAll(cache, stmts, translate).translations == |Missing(cache, stmts)|
    decreases |stmts|
  {
    if stmts != [] {
      var s0, rest := stmts[0], stmts[1..];
      var h := Handle(cache, s0, translate);
      assert stmts == [s0] + rest;
      forall i | 0 <= i < |rest|
        ensures translate(rest[i]).Ok?
      {
        assert rest[i] == stmts[i + 1];
      }
      TranslatedOnce(h.cache, rest, translate);
      if s0 in cache {
        MissingHit(cache, s0, rest);
      } else {
        MissingMiss(cache, s0, h.result.value, rest);
      }
    }
  }

  /** A run over a coherent cache answers, statement by statement, what the
      driver answers. */
  lemma {:induction false} HandleAllTransparent<T>(cache: map<string, T>, stmts: seq<string>, translate: string -> Result<T, Error>)
    requires Coherent(cache, translate)
    ensures var r := HandleAll(cache, stmts, translate);
      (forall i :: 0 <= i < |stmts| ==> r.results[i] == translate(stmts[i])) && Coherent(r.cache, translate)
    decreases |stmts|
  {
    if stmts != [] {
      var h := Handle(cache, stmts[0], translate);
      HandleTransparent(cache, stmts[0], translate);
      HandleAllTransparent(h.cache, stmts[1..], translate);
      var r := HandleAll(cache, stmts, translate);
      forall i | 0 < i < |stmts|
        ensures r.results[i] == translate(stmts[i])
      {
        assert r.results[i] == HandleAll(h.cache, stmts[1..], translate).results[i - 1];
        assert stmts[i] == stmts[1..][i - 1];
      }
    }
  }

  /** A run in which the cache may drop entries before every lookup: before
      the i-th lookup only the keys in `keeps[i]` survive. */
  function HandleAllEvicting<T>(cache: map<string, T>, stmts: seq<string>, keeps: seq<set<string>>, translate: string -> Result<T, Error>): (r: Run<T>)
    requires |keeps| == |stmts|
    ensures |r.results| == |stmts|
    decreases |stmts|
  {
    if stmts == [] then Run([], cache, 0)
    else
      var h := Handle(Evict(cache, keeps[0]), stmts[0], translate);
      var rest := HandleAllEvicting(h.cache, stmts[1..], keeps[1..], translate);
      Run([h.result] + rest.results, rest.cache, rest.translations + if h.translated then 1 else 0)
  }

  /** Whatever the cache drops and when, a run over a coherent cache answers
      what the driver answers. */
  lemma {:induction false} EvictingTransparent<T>(cache: map<string, T>, stmts: seq<string>, keeps: seq<set<string>>, translate: string -> Result<T, Error>)
    requires |keeps| == |stmts| && Coherent(cache, translate)
    ensures var r := HandleAllEvicting(cache, stmts, keeps, translate);
      (forall i :: 0 <= i < |stmts| ==> r.results[i] == translate(stmts[i])) && Coherent(r.cache, translate)
    decreases |stmts|
  {
    if stmts != [] {
      var kept := Evict(cache, keeps[0]);
      EvictCoherent(cache, keeps[0], translate);
      var h := Handle(kept, stmts[0], translate);
      HandleTransparent(kept, stmts[0], translate);
      EvictingTransparent(h.cache, stmts[1..], keeps[1..], translate);
      var r := HandleAllEvicting(cache, stmts, keeps, translate);
      forall i | 0 < i < |stmts|
        ensures r.results[i] == translate(stmts[i])
      {
        assert r.results[i] == HandleAllEvicting(h.cache, stmts[1..], keeps[1..], translate).results[i - 1];
        assert stmts[i] == stmts[1..][i - 1];
      }
    }
  }
}
