# Caching partial-evaluation graph decoder, modelled in Dafny

This project models the graph cache of Graal's `CachingPEGraphDecoder`. The
cache supplies encoded IR graphs to the partial-evaluation decoder. Each
decoder instance owns a map from resolved method to encoded graph. The map
starts empty. `lookupEncodedGraph` returns the cached graph for a method when
there is one. On a miss, a method without bytecodes gets no graph (`null`) and
nothing is stored. Any other method is built by `createGraph`, which runs
three phases in a fixed order:

1. the graph builder, on a fresh graph and an optional intrinsic context;
2. one canonicalizer pass;
3. the encoder.

The encoded graph is stored under the method only after all three phases have
succeeded, and then it is returned. An exception in any phase reaches the
caller, and nothing is stored.

The model is a functional state machine:

- `Graphs` (`graphs.dfy`) holds the collaborators as datatypes. The three
  phases are function values in a `Pipeline`. `PhaseCall` records one phase
  invocation with its arguments, as a recording mock of the phases would see
  it.
- `CachingDecoder` (`caching_decoder.dfy`) holds the decoder. It is an
  immutable `Config` plus the `graphCache` map. `LookupEncodedGraph` and
  `CreateGraph` are pure. Each returns the new decoder, the answer and the
  phase calls made. A thrown exception becomes `Failure`; `null` becomes
  `Success(None)`.
- `CacheProperties` (`cache_properties.dfy`) states what one lookup and any
  sequence of lookups guarantee.
- `Wrappers` (`wrappers.dfy`) holds `Option` and `Result`.

## Model

| member | source | states |
|---|---|---|
| CachingDecoder.NewDecoder | graal/com.oracle.graal.replacements/src/com/oracle/graal/replacements/CachingPEGraphDecoder.java:59-68 | A new decoder keeps the configuration it is given, and its graph cache is empty. |
| Graphs.NewGraph | graal/com.oracle.graal.replacements/src/com/oracle/graal/replacements/CachingPEGraphDecoder.java:77 | A build starts from an empty graph for the method, with the decoder's setting for whether assumptions may be recorded. |
| CachingDecoder.InitialIntrinsicContext | graal/com.oracle.graal.replacements/src/com/oracle/graal/replacements/CachingPEGraphDecoder.java:79 | An intrinsic context exists if and only if an intrinsic bytecode provider is given. It then uses the method as both original and substitute, takes its bytecode from that provider, and uses mode inline-after-parsing. |
| CachingDecoder.CreateGraph | graal/com.oracle.graal.replacements/src/com/oracle/graal/replacements/CachingPEGraphDecoder.java:76-93 | The builder is called first, on the method's fresh empty graph with the decoder's assumption setting and the initial intrinsic context. Each later call gets the previous phase's output, in the order builder, canonicalizer, encoder. The build stops exactly when a phase faults; that fault is returned and the decoder is unchanged. On success the encoder's graph is returned and stored under the method, and no other entry changes. |
| CachingDecoder.LookupEncodedGraph | graal/com.oracle.graal.replacements/src/com/oracle/graal/replacements/CachingPEGraphDecoder.java:96-102 | A hit returns the stored graph, runs no phase and leaves the decoder unchanged. A miss on a method without bytecodes returns no graph, runs no phase and stores nothing. A miss on a method with bytecodes gives exactly the outcome of `CreateGraph`, starting with the builder call. Only the looked-up method's entry can change. A returned graph is the one then cached. A failure leaves the decoder unchanged. |
| CacheProperties.Run | graal/com.oracle.graal.replacements/src/com/oracle/graal/replacements/CachingPEGraphDecoder.java:97-99 | After any sequence of lookups the configuration is the same, and every entry cached before is still cached with the same graph: the cache only grows. |
| CacheProperties.HitIgnoresIntrinsicProvider | graal/com.oracle.graal.replacements/src/com/oracle/graal/replacements/CachingPEGraphDecoder.java:97-101 | On a hit the whole outcome is the same for every intrinsic provider: the stored graph, no phase call, the cache unchanged. The cache is keyed by method alone. |
| CacheProperties.RepeatedLookupHits | graal/com.oracle.graal.replacements/src/com/oracle/graal/replacements/CachingPEGraphDecoder.java:87-101 | After a lookup returns a graph, a second lookup of the same method with any provider returns that graph, makes no phase call and leaves the decoder as the first lookup left it. |
| CacheProperties.FailureLeavesNoTrace | graal/com.oracle.graal.replacements/src/com/oracle/graal/replacements/CachingPEGraphDecoder.java:81-91 | A failed lookup leaves the decoder exactly as it was. A later lookup of the same method, with any provider and with the phases repaired, still misses and runs the builder again. When the repaired builder, canonicalizer and encoder all succeed, that retry returns the encoded graph and caches it under the method. |
| CacheProperties.BuilderFailureStopsBuild | graal/com.oracle.graal.replacements/src/com/oracle/graal/replacements/CachingPEGraphDecoder.java:80-91 | When the builder faults on a miss, only the builder was called, its fault is the answer, and the decoder is unchanged. |
| CacheProperties.CanonicalizerFailureStopsBuild | graal/com.oracle.graal.replacements/src/com/oracle/graal/replacements/CachingPEGraphDecoder.java:83-91 | When the canonicalizer faults on the builder's output, the calls are builder then canonicalizer and the encoder never runs. The canonicalizer's fault is the answer and the decoder is unchanged. |
| CacheProperties.EncoderFailureStopsBuild | graal/com.oracle.graal.replacements/src/com/oracle/graal/replacements/CachingPEGraphDecoder.java:86-91 | When the encoder faults on the canonicalizer's output, the calls are builder, canonicalizer and encoder. The encoder's fault is the answer and the decoder is unchanged. |
| CacheProperties.SuccessfulMissStores | graal/com.oracle.graal.replacements/src/com/oracle/graal/replacements/CachingPEGraphDecoder.java:80-88 | When all three phases succeed on a miss for a method with bytecodes, the calls are builder, canonicalizer and encoder, each on the previous phase's output. The answer is the encoder's graph, and the cache gains exactly that entry under the method. |
| CacheProperties.MissIndependentOfCache | graal/com.oracle.graal.replacements/src/com/oracle/graal/replacements/CachingPEGraphDecoder.java:76-88 | Two decoders with the same configuration that both miss on a method make the same phase calls and give the same answer. On success each stores that same graph, whatever else their caches hold. |
| CacheProperties.CachedEntryIsFinal | graal/com.oracle.graal.replacements/src/com/oracle/graal/replacements/CachingPEGraphDecoder.java:97-99 | Once a method is cached, no later lookup in any sequence calls the builder for it or stores under it. Its graph stays the one cached. |
| CacheProperties.SuccessfulBuildHappensOnce | graal/com.oracle.graal.replacements/src/com/oracle/graal/replacements/CachingPEGraphDecoder.java:86-101 | If the first lookup of an uncached method returns a graph, then over that lookup and any later ones the builder is called for the method exactly once, and the method keeps that first graph. |
| CacheProperties.AtMostOneStore | graal/com.oracle.graal.replacements/src/com/oracle/graal/replacements/CachingPEGraphDecoder.java:87 | In any sequence of lookups at most one stores a graph under a given method, and none does if it was cached at the start. |
| CacheProperties.NoBytecodesNeverBuilt | graal/com.oracle.graal.replacements/src/com/oracle/graal/replacements/CachingPEGraphDecoder.java:98-101 | An uncached method without bytecodes is never built and never cached, however often it is looked up. |
| CacheProperties.CacheGainsOnlyBuildableRequested | graal/com.oracle.graal.replacements/src/com/oracle/graal/replacements/CachingPEGraphDecoder.java:98-99 | After any sequence of lookups, every cached method was either cached at the start or looked up in the sequence and has bytecodes. |
| CacheProperties.FreshDecoderCachesOnlyRequested | graal/com.oracle.graal.replacements/src/com/oracle/graal/replacements/CachingPEGraphDecoder.java:67 | A new decoder's cache is empty. After any sequence of lookups it holds only methods that were looked up and have bytecodes. |

## Left out

- Phase internals: graph parsing, canonicalization and encoding are not modelled. They are external. The decoder is configured with one function per phase.
- Providers, configuration and optimistic optimizations: the builder-instance factory (lines 70-73), the `PhaseContext` over the providers, and the constructor's wiring of the base decoder are not modelled. The phase functions are taken to capture them.
- `PEGraphDecoder`, the inherited decoding and inlining algorithm, is not part of this model.
- `Debug.scope` and `Debug.handle`: diagnostics only. The phase's fault reaches the caller unchanged, without the debug scope's dumping or wrapping.
- Reentrancy: the phases are pure functions, so a build cannot look up, or store into, the cache it is filling. The Java code allows a build to look up the same method again, which would store twice with the last store winning. That case is not modelled.
- Concurrency: the Java map is an unsynchronised `HashMap`. The model is single-threaded.
- Object identity: encoded graphs are compared by value, not by reference.
- A `null` from the encoder is not modelled. The encoder returns a graph or a fault. In Java, a stored `null` would read as a miss on the next lookup.
- `hasBytecodes` is a pure field of the method. So the Java short-circuit, which asks only on a miss, cannot be observed.
- Sequences of lookups: a failed lookup is taken to abort only the compilation that asked. The same decoder then serves the next request.
