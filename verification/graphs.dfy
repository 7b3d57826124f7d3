/** The collaborators the graph cache talks to, seen only at their interface:
    resolved methods, bytecode providers, intrinsic contexts, graphs under
    construction, encoded graphs, and the three phases of the build pipeline
    (graph builder, canonicalizer, encoder). Their internals are not modelled:
    each phase is a function value the decoder is configured with. */
module Graphs {
  import opened Wrappers

  /** A resolved Java method as the cache sees it: an identity used as the map
      key, and the one question the cache asks of it. */
  datatype Method = Method(name: string, hasBytecodes: bool)

  /** An alternative source of bytecode for a method that is substituted by an
      intrinsic. */
  datatype BytecodeProvider = BytecodeProvider(name: string)

  /** How an intrinsic body is composed into the graph being parsed. */
  datatype CompilationContext = InlineAfterParsing | InlineDuringParsing | RootCompilation

  /** Marks a graph as the body of `originalMethod` replaced by the bytecode of
      `intrinsicMethod`, drawn from `bytecodeProvider`. */
  datatype IntrinsicContext = IntrinsicContext(
    originalMethod: Method,
    intrinsicMethod: Method,
    bytecodeProvider: BytecodeProvider,
    compilationContext: CompilationContext)

  datatype AllowAssumptions = Yes | No

  /** A mutable IR graph under construction; `nodes` stands for its contents,
      which only the phases interpret. */
  datatype StructuredGraph = StructuredGraph(root: Method, allowAssumptions: AllowAssumptions, nodes: seq<nat>)

  /** The compact immutable form the encoder produces. */
  datatype EncodedGraph = EncodedGraph(encoding: seq<nat>)

  /** The target description the encoder lays graphs out for. */
  datatype Architecture = Architecture(name: string)

  /** Whatever a phase throws. */
  datatype Fault = Fault(message: string)

  /** The empty graph a build starts from, scoped to `m`. */
  function NewGraph(m: Method, allowAssumptions: AllowAssumptions): (g: StructuredGraph)
    ensures g.root == m && g.allowAssumptions == allowAssumptions
    ensures g.nodes == []
  {
    StructuredGraph(m, allowAssumptions, [])
  }

  /** The three external phases of a build. `graphBuilder` stands for a graph
      builder phase instance created with the decoder's providers, builder
      configuration and optimistic optimizations; `canonicalizer` for one
      canonicalizer pass with the decoder's providers; `encoder` for encoding a
      single graph. Being functions, none of them can reach the cache. */
  datatype Pipeline = Pipeline(
    graphBuilder: (Option<IntrinsicContext>, StructuredGraph) -> Result<StructuredGraph, Fault>,
    canonicalizer: StructuredGraph -> Result<StructuredGraph, Fault>,
    encoder: (StructuredGraph, Architecture) -> Result<EncodedGraph, Fault>)

  /** One invocation of a phase, with the arguments it was given. A build's
      list of calls is what a recording mock of the three phases would see. */
  datatype PhaseCall =
    | BuildGraph(context: Option<IntrinsicContext>, graph: StructuredGraph)
    | Canonicalize(graph: StructuredGraph)
    | Encode(graph: StructuredGraph, architecture: Architecture)

  /** The fault `call` ends with under `p`, or None when the phase succeeded. */
  function FaultOf(p: Pipeline, call: PhaseCall): Option<Fault> {
    match call
    case BuildGraph(ctx, g) =>
      (match p.graphBuilder(ctx, g) case Failure(e) => Some(e) case Success(_) => None)
    case Canonicalize(g) =>
      (match p.canonicalizer(g) case Failure(e) => Some(e) case Success(_) => None)
    case Encode(g, a) =>
      (match p.encoder(g, a) case Failure(e) => Some(e) case Success(_) => None)
  }

  /** `next` is the phase that comes after `call` in a build, and it is handed
      the graph `call` produced: the builder's output goes to the
      canonicalizer, the canonicalizer's output to the encoder, and nothing
      follows the encoder. */
  predicate Feeds(p: Pipeline, arch: Architecture, call: PhaseCall, next: PhaseCall) {
    match call
    case BuildGraph(ctx, g) => p.graphBuilder(ctx, g).Success? && next == Canonicalize(p.graphBuilder(ctx, g).value)
    case Canonicalize(g) => p.canonicalizer(g).Success? && next == Encode(p.canonicalizer(g).value, arch)
    case Encode(_, _) => false
  }
}
