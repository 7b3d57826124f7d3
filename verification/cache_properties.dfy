/** Properties of the graph cache over one lookup and over a sequence of
    lookups on the same decoder: hits never build and ignore the intrinsic
    provider, failures leave no trace, entries are never replaced, and a method
    is built to completion at most once. */
module CacheProperties {
  import opened Wrappers
  import opened Graphs
  import opened CachingDecoder

  /** One call of the consumer: the method it wants a graph for and the
      intrinsic bytecode provider it passes along. */
  datatype Request = Request(m: Method, intrinsicBytecodeProvider: Option<BytecodeProvider>)

  function Step(d: CachingPEGraphDecoder, req: Request): Lookup {
    LookupEncodedGraph(d, req.m, req.intrinsicBytecodeProvider)
  }

  /** Every entry of `c` is in `c'` with the same graph. */
  ghost predicate Extends(c: Cache, c': Cache) {
    forall k | k in c :: k in c' && c'[k] == c[k]
  }

  /** The decoder after serving `requests` one after another, none of them
      reentrant. A failed lookup aborts only the compilation that asked; the
      decoder goes on serving the next request. */
  function Run(d: CachingPEGraphDecoder, requests: seq<Request>): (r: CachingPEGraphDecoder)
    ensures r.config == d.config
    ensures Extends(d.graphCache, r.graphCache)
    decreases |requests|
  {
    if requests == [] then d else Run(Step(d, requests[0]).decoder, requests[1..])
  }

  /** How many lookups of `m` during the run called the graph builder. */
  function BuildAttempts(d: CachingPEGraphDecoder, requests: seq<Request>, m: Method): nat
    decreases |requests|
  {
    if requests == [] then 0
    else
      var l := Step(d, requests[0]);
      (if requests[0].m == m && l.calls != [] then 1 else 0) + BuildAttempts(l.decoder, requests[1..], m)
  }

  /** How many lookups during the run stored a graph under `m`. */
  function Stores(d: CachingPEGraphDecoder, requests: seq<Request>, m: Method): nat
    decreases |requests|
  {
    if requests == [] then 0
    else
      var l := Step(d, requests[0]);
      (if m !in d.graphCache && m in l.decoder.graphCache then 1 else 0) + Stores(l.decoder, requests[1..], m)
  }

  /** The methods among `requests` that have bytecodes. */
  function BuildableRequested(requests: seq<Request>): set<Method> {
    set i | 0 <= i < |requests| && requests[i].m.hasBytecodes :: requests[i].m
  }

  // ---------------------------------------------------------------------------
  // One lookup
  // ---------------------------------------------------------------------------

  /** A hit does not depend on the intrinsic provider: the cache is keyed by
      the method alone, so every provider gets the stored graph, no phase runs
      and the cache is unchanged. */
  lemma HitIgnoresIntrinsicProvider(d: CachingPEGraphDecoder, m: Method, p1: Option<BytecodeProvider>, p2: Option<BytecodeProvider>)
    requires m in d.graphCache
    ensures LookupEncodedGraph(d, m, p1) == LookupEncodedGraph(d, m, p2)
    ensures LookupEncodedGraph(d, m, p1).answer == Success(Some(d.graphCache[m]))
    ensures LookupEncodedGraph(d, m, p1).calls == []
  {
  }

  /** Once a lookup of `m` has returned a graph, looking `m` up again, with
      any intrinsic provider, returns that same graph without building and
      without changing the cache. */
  lemma RepeatedLookupHits(d: CachingPEGraphDecoder, m: Method, p1: Option<BytecodeProvider>, p2: Option<BytecodeProvider>)
    requires LookupEncodedGraph(d, m, p1).answer.Success?
    requires LookupEncodedGraph(d, m, p1).answer.value.Some?
    ensures
      var first := LookupEncodedGraph(d, m, p1);
      LookupEncodedGraph(first.decoder, m, p2) == Lookup(first.decoder, first.answer, [])
  {
  }

  /** A failed build leaves no trace: the decoder is exactly as before, so a
      later lookup of the same method, with any provider and even with the
      phases repaired, behaves as if the failed one had never happened: it runs
      the graph builder again, and when the repaired builder, canonicalizer
      and encoder all succeed it returns the encoded graph and caches it. */
  lemma FailureLeavesNoTrace(d: CachingPEGraphDecoder, m: Method, p: Option<BytecodeProvider>, q: Option<BytecodeProvider>, repaired: Pipeline,
                             built: StructuredGraph, canonical: StructuredGraph, g: EncodedGraph)
    requires LookupEncodedGraph(d, m, p).answer.Failure?
    ensures LookupEncodedGraph(d, m, p).decoder == d
    ensures
      var retry := LookupEncodedGraph(d, m, p).decoder.(config := d.config.(pipeline := repaired));
      && m !in retry.graphCache
      && LookupEncodedGraph(retry, m, q).calls != []
      && LookupEncodedGraph(retry, m, q).calls[0].BuildGraph?
    ensures
      var retry := LookupEncodedGraph(d, m, p).decoder.(config := d.config.(pipeline := repaired));
      && repaired.graphBuilder(InitialIntrinsicContext(m, q), NewGraph(m, d.config.allowAssumptions)) == Success(built)
      && repaired.canonicalizer(built) == Success(canonical)
      && repaired.encoder(canonical, d.config.architecture) == Success(g)
      ==>
      && LookupEncodedGraph(retry, m, q).answer == Success(Some(g))
      && LookupEncodedGraph(retry, m, q).decoder.graphCache == d.graphCache[m := g]
  {
  }

  /** When the graph builder fails, neither the canonicalizer nor the encoder
      runs, the builder's fault reaches the caller, and nothing is stored. */
  lemma BuilderFailureStopsBuild(d: CachingPEGraphDecoder, m: Method, p: Option<BytecodeProvider>)
    requires m !in d.graphCache && m.hasBytecodes
    requires d.config.pipeline.graphBuilder(InitialIntrinsicContext(m, p), NewGraph(m, d.config.allowAssumptions)).Failure?
    ensures
      var r := LookupEncodedGraph(d, m, p);
      && r.calls == [BuildGraph(InitialIntrinsicContext(m, p), NewGraph(m, d.config.allowAssumptions))]
      && r.answer == Failure(d.config.pipeline.graphBuilder(InitialIntrinsicContext(m, p), NewGraph(m, d.config.allowAssumptions)).error)
      && r.decoder == d
  {
  }

  /** When the canonicalizer fails on the builder's output, the encoder never
      runs, the canonicalizer's fault reaches the caller, and nothing is
      stored. */
  lemma CanonicalizerFailureStopsBuild(d: CachingPEGraphDecoder, m: Method, p: Option<BytecodeProvider>, built: StructuredGraph)
    requires m !in d.graphCache && m.hasBytecodes
    requires d.config.pipeline.graphBuilder(InitialIntrinsicContext(m, p), NewGraph(m, d.config.allowAssumptions)) == Success(built)
    requires d.config.pipeline.canonicalizer(built).Failure?
    ensures
      var r := LookupEncodedGraph(d, m, p);
      && r.calls == [BuildGraph(InitialIntrinsicContext(m, p), NewGraph(m, d.config.allowAssumptions)), Canonicalize(built)]
      && r.answer == Failure(d.config.pipeline.canonicalizer(built).error)
      && r.decoder == d
  {
  }

  /** When the encoder fails on the canonicalizer's output, all three phases
      ran, the encoder's fault reaches the caller, and nothing is stored. */
  lemma EncoderFailureStopsBuild(d: CachingPEGraphDecoder, m: Method, p: Option<BytecodeProvider>, built: StructuredGraph, canonical: StructuredGraph)
    requires m !in d.graphCache && m.hasBytecodes
    requires d.config.pipeline.graphBuilder(InitialIntrinsicContext(m, p), NewGraph(m, d.config.allowAssumptions)) == Success(built)
    requires d.config.pipeline.canonicalizer(built) == Success(canonical)
    requires d.config.pipeline.encoder(canonical, d.config.architecture).Failure?
    ensures
      var r := LookupEncodedGraph(d, m, p);
      && r.calls == [BuildGraph(InitialIntrinsicContext(m, p), NewGraph(m, d.config.allowAssumptions)), Canonicalize(built), Encode(canonical, d.config.architecture)]
      && r.answer == Failure(d.config.pipeline.encoder(canonical, d.config.architecture).error)
      && r.decoder == d
  {
  }

  /** A miss on a method with bytecodes whose three phases all succeed
      returns the encoder's graph and adds exactly that entry to the cache. */
  lemma SuccessfulMissStores(d: CachingPEGraphDecoder, m: Method, p: Option<BytecodeProvider>, built: StructuredGraph, canonical: StructuredGraph, g: EncodedGraph)
    requires m !in d.graphCache && m.hasBytecodes
    requires d.config.pipeline.graphBuilder(InitialIntrinsicContext(m, p), NewGraph(m, d.config.allowAssumptions)) == Success(built)
    requires d.config.pipeline.canonicalizer(built) == Success(canonical)
    requires d.config.pipeline.encoder(canonical, d.config.architecture) == Success(g)
    ensures
      var r := LookupEncodedGraph(d, m, p);
      && r.calls == [BuildGraph(InitialIntrinsicContext(m, p), NewGraph(m, d.config.allowAssumptions)), Canonicalize(built), Encode(canonical, d.config.architecture)]
      && r.answer == Success(Some(g))
      && r.decoder.graphCache == d.graphCache[m := g]
      && r.decoder.config == d.config
  {
  }

  /** Two decoders with the same configuration that both miss on `m` build
      it alike: same phase calls, same answer, and on success the same graph
      stored, whatever else either cache holds. */
  lemma MissIndependentOfCache(d1: CachingPEGraphDecoder, d2: CachingPEGraphDecoder, m: Method, p: Option<BytecodeProvider>)
    requires d1.config == d2.config
    requires m !in d1.graphCache && m !in d2.graphCache
    ensures LookupEncodedGraph(d1, m, p).answer == LookupEncodedGraph(d2, m, p).answer
    ensures LookupEncodedGraph(d1, m, p).calls == LookupEncodedGraph(d2, m, p).calls
    ensures LookupEncodedGraph(d1, m, p).answer.Success? && LookupEncodedGraph(d1, m, p).answer.value.Some? ==>
              LookupEncodedGraph(d1, m, p).decoder.graphCache == d1.graphCache[m := LookupEncodedGraph(d2, m, p).answer.value.value]
  {
  }

  // ---------------------------------------------------------------------------
  // A sequence of lookups
  // ---------------------------------------------------------------------------

  /** Once `m` is cached, no later lookup builds it or stores under it again,
      and its graph stays the one cached. */
  lemma {:induction false} CachedEntryIsFinal(d: CachingPEGraphDecoder, requests: seq<Request>, m: Method)
    requires m in d.graphCache
    ensures BuildAttempts(d, requests, m) == 0
    ensures Stores(d, requests, m) == 0
    ensures m in Run(d, requests).graphCache && Run(d, requests).graphCache[m] == d.graphCache[m]
    decreases |requests|
  {
    if requests != [] {
      var l := Step(d, requests[0]);
      assert m in l.decoder.graphCache && l.decoder.graphCache[m] == d.graphCache[m];
      CachedEntryIsFinal(l.decoder, requests[1..], m);
    }
  }

  /** A method whose first lookup builds it successfully is built exactly
      once over the whole run that follows, and keeps that first graph. */
  lemma {:induction false} SuccessfulBuildHappensOnce(d: CachingPEGraphDecoder, p: Option<BytecodeProvider>, rest: seq<Request>, m: Method)
    requires m !in d.graphCache
    requires LookupEncodedGraph(d, m, p).answer.Success? && LookupEncodedGraph(d, m, p).answer.value.Some?
    ensures BuildAttempts(d, [Request(m, p)] + rest, m) == 1
    ensures Run(d, [Request(m, p)] + rest).graphCache[m] == LookupEncodedGraph(d, m, p).answer.value.value
  {
    var requests := [Request(m, p)] + rest;
    assert requests[0] == Request(m, p) && requests[1..] == rest;
    var l := Step(d, requests[0]);
    CachedEntryIsFinal(l.decoder, rest, m);
  }

  /** Over any run, at most one lookup stores a graph under `m`, and none
      does when `m` was cached at the start: the graph is built to completion
      at most once per decoder. */
  lemma {:induction false} AtMostOneStore(d: CachingPEGraphDecoder, requests: seq<Request>, m: Method)
    ensures Stores(d, requests, m) <= 1
    ensures m in d.graphCache ==> Stores(d, requests, m) == 0
    decreases |requests|
  {
    if m in d.graphCache {
      CachedEntryIsFinal(d, requests, m);
    } else if requests != [] {
      var l := Step(d, requests[0]);
      AtMostOneStore(l.decoder, requests[1..], m);
    }
  }

  /** A method without bytecodes that is not cached is never built and never
      cached, however often it is looked up. */
  lemma {:induction false} NoBytecodesNeverBuilt(d: CachingPEGraphDecoder, requests: seq<Request>, m: Method)
    requires !m.hasBytecodes && m !in d.graphCache
    ensures BuildAttempts(d, requests, m) == 0
    ensures m !in Run(d, requests).graphCache
    decreases |requests|
  {
    if requests != [] {
      var l := Step(d, requests[0]);
      assert m !in l.decoder.graphCache;
      NoBytecodesNeverBuilt(l.decoder, requests[1..], m);
    }
  }

  /** The cache only ever gains methods that were looked up and have
      bytecodes. */
  lemma {:induction false} CacheGainsOnlyBuildableRequested(d: CachingPEGraphDecoder, requests: seq<Request>)
    ensures Run(d, requests).graphCache.Keys <= d.graphCache.Keys + BuildableRequested(requests)
    decreases |requests|
  {
    if requests != [] {
      var l := Step(d, requests[0]);
      CacheGainsOnlyBuildableRequested(l.decoder, requests[1..]);
      forall k | k in BuildableRequested(requests[1..])
        ensures k in BuildableRequested(requests)
      {
        var i :| 0 <= i < |requests[1..]| && requests[1..][i].m.hasBytecodes && requests[1..][i].m == k;
        assert requests[i + 1] == requests[1..][i];
      }
      if requests[0].m in l.decoder.graphCache && requests[0].m !in d.graphCache {
        assert requests[0].m.hasBytecodes;
        assert requests[0].m in BuildableRequested(requests);
      }
    }
  }

  /** A decoder starts with an empty cache, so after any run its cache holds
      only methods that were looked up and have bytecodes. */
  lemma FreshDecoderCachesOnlyRequested(config: Config, requests: seq<Request>)
    ensures NewDecoder(config).graphCache == map[]
    ensures Run(NewDecoder(config), requests).graphCache.Keys <= BuildableRequested(requests)
  {
    CacheGainsOnlyBuildableRequested(NewDecoder(config), requests);
  }
}
