/** The memoising graph supply of a partial-evaluation decoder: a per-instance
    map from method to encoded graph, filled lazily by a three-phase build
    (graph builder, canonicalizer, encoder) and consulted before any build.

    The decoder is a value: its configuration never changes and every lookup
    returns the decoder with its new cache, the answer, and the phase calls the
    lookup made. */
module CachingDecoder {
  import opened Wrappers
  import opened Graphs

  type Cache = map<Method, EncodedGraph>

  /** The decoder's final fields: the phases it builds with (standing for its
      providers, graph builder configuration and optimistic optimizations),
      whether built graphs may record assumptions, and the target architecture. */
  datatype Config = Config(pipeline: Pipeline, allowAssumptions: AllowAssumptions, architecture: Architecture)

  datatype CachingPEGraphDecoder = CachingPEGraphDecoder(config: Config, graphCache: Cache)

  /** What one lookup leaves behind: the decoder with its cache afterwards, the
      answer (`Success(None)` is Java's `null`, `Failure` an exception thrown to
      the caller), and the phase calls made, in order. */
  datatype Lookup = Lookup(decoder: CachingPEGraphDecoder, answer: Result<Option<EncodedGraph>, Fault>, calls: seq<PhaseCall>)

  /** A decoder as constructed: the configuration it is given and an empty cache. */
  function NewDecoder(config: Config): (d: CachingPEGraphDecoder)
    ensures d.config == config
    ensures d.graphCache == map[]
  {
    CachingPEGraphDecoder(config, map[])
  }

  /** The intrinsic context a build starts with: present exactly when an
      intrinsic bytecode provider is given, and then substituting `m` by
      itself, parsed from that provider, inlined after parsing. */
  function InitialIntrinsicContext(m: Method, intrinsicBytecodeProvider: Option<BytecodeProvider>): (ctx: Option<IntrinsicContext>)
    ensures ctx.Some? <==> intrinsicBytecodeProvider.Some?
    ensures ctx.Some? ==>
              && ctx.value.originalMethod == m
              && ctx.value.intrinsicMethod == m
              && ctx.value.bytecodeProvider == intrinsicBytecodeProvider.value
              && ctx.value.compilationContext == InlineAfterParsing
  {
    match intrinsicBytecodeProvider
    case None => None
    case Some(provider) => Some(IntrinsicContext(m, m, provider, InlineAfterParsing))
  }

  /** Builds the graph of `m`: the builder runs on a fresh empty graph,
      each later phase runs on the previous phase's output, the first fault
      stops the build and is propagated with the cache untouched, and only a
      build whose three phases all succeed stores its encoded graph under
      `m` and returns it. */
  function CreateGraph(d: CachingPEGraphDecoder, m: Method, intrinsicBytecodeProvider: Option<BytecodeProvider>): (r: Lookup)
    ensures r.decoder.config == d.config
    ensures 1 <= |r.calls| <= 3
    ensures r.calls[0] == BuildGraph(InitialIntrinsicContext(m, intrinsicBytecodeProvider), NewGraph(m, d.config.allowAssumptions))
    ensures forall i | 0 <= i < |r.calls| - 1 :: Feeds(d.config.pipeline, d.config.architecture, r.calls[i], r.calls[i + 1])
    ensures r.answer.Failure? <==> FaultOf(d.config.pipeline, r.calls[|r.calls| - 1]).Some?
    ensures r.answer.Failure? ==>
              && r.answer.error == FaultOf(d.config.pipeline, r.calls[|r.calls| - 1]).value
              && r.decoder == d
    ensures r.answer.Success? ==>
              && r.answer.value.Some?
              && r.calls[|r.calls| - 1].Encode?
              && d.config.pipeline.encoder(r.calls[|r.calls| - 1].graph, r.calls[|r.calls| - 1].architecture) == Success(r.answer.value.value)
              && r.decoder.graphCache == d.graphCache[m := r.answer.value.value]
  {
    var p := d.config.pipeline;
    var build := BuildGraph(InitialIntrinsicContext(m, intrinsicBytecodeProvider), NewGraph(m, d.config.allowAssumptions));
    match p.graphBuilder(build.context, build.graph)
    case Failure(e) => Lookup(d, Failure(e), [build])
    case Success(built) =>
      var canonicalize := Canonicalize(built);
      match p.canonicalizer(built)
      case Failure(e) => Lookup(d, Failure(e), [build, canonicalize])
      case Success(canonical) =>
        var encode := Encode(canonical, d.config.architecture);
        match p.encoder(canonical, d.config.architecture)
        case Failure(e) => Lookup(d, Failure(e), [build, canonicalize, encode])
        case Success(encoded) =>
          Lookup(d.(graphCache := d.graphCache[m := encoded]), Success(Some(encoded)), [build, canonicalize, encode])
  }

  /** The cache policy: a cached graph is returned as is; on a miss a method
      without bytecodes yields no graph and nothing is stored; otherwise the
      graph is built and the build's outcome is the lookup's. Only `m`'s entry can change, it changes only on a
      miss, and whatever graph is returned is the one then cached. */
  function LookupEncodedGraph(d: CachingPEGraphDecoder, m: Method, intrinsicBytecodeProvider: Option<BytecodeProvider>): (r: Lookup)
    ensures r.decoder.config == d.config
    ensures m in d.graphCache ==> r == Lookup(d, Success(Some(d.graphCache[m])), [])
    ensures m !in d.graphCache && !m.hasBytecodes ==> r == Lookup(d, Success(None), [])
    ensures m !in d.graphCache && m.hasBytecodes ==>
              && r == CreateGraph(d, m, intrinsicBytecodeProvider)
              && r.calls != [] && r.calls[0] == BuildGraph(InitialIntrinsicContext(m, intrinsicBytecodeProvider), NewGraph(m, d.config.allowAssumptions))
    ensures forall k | k != m :: (k in r.decoder.graphCache <==> k in d.graphCache)
    ensures forall k | k != m && k in d.graphCache :: r.decoder.graphCache[k] == d.graphCache[k]
    ensures r.answer.Success? && r.answer.value.Some? ==>
              m in r.decoder.graphCache && r.decoder.graphCache[m] == r.answer.value.value
    ensures r.answer.Success? && r.answer.value.None? ==> m !in r.decoder.graphCache && !m.hasBytecodes
    ensures r.answer.Failure? ==> r.decoder == d && m !in d.graphCache
  {
    if m in d.graphCache then
      Lookup(d, Success(Some(d.graphCache[m])), [])
    else if m.hasBytecodes then
      CreateGraph(d, m, intrinsicBytecodeProvider)
    else
      Lookup(d, Success(None), [])
  }
}
