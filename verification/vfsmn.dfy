/** The `vfsmn-layer` (class XconfigvFSMNLayer): a scalar FSMN memory block
    over the raw input, whose memory vector `m_t` is appended to the input
    and fed through one affine transform, a ReLU and batch-norm. */
module VFsmn {
  import opened Wrappers
  import opened Decls
  import opened Options
  import opened Memory
  import opened Layout
  import opened Layer
  import opened Names

  /** The settings of a `vfsmn-layer` line, after parsing. */
  datatype Config = Config(
    dim: int,
    lookahead: int,            // lookhead-num
    lookback: int,             // lookback-num
    stride: int,               // look-stride
    pesOptions: string,        // ng-per-element-scale-options
    affineOptions: string,     // ng-affine-options
    selfRepairScale: real,     // self-repair-scale-nonlinearity
    l2Regularize: real)        // l2-regularize

  /** The defaults a `vfsmn-layer` line starts from. */
  const Defaults: Config := Config(-1, -1, -1, 1, " max-change=0.75", " max-change=0.75 ", 0.00001, 0.0)

  /** An unset (non-positive) `dim` takes the input's dim. */
  function SetDerived(c: Config, inputDim: int): (r: Config)
    ensures r.dim == (if c.dim <= 0 then inputDim else c.dim)
    ensures r.(dim := c.dim) == c
  {
    if c.dim <= 0 then c.(dim := inputDim) else c
  }

  /** Validation after derivation: the first violated rule raises. */
  function Check(c: Config): (r: Result<Config, ConfigError>)
    ensures r.Ok? <==> c.dim > 0 && 0.0 <= c.selfRepairScale <= 1.0
    ensures r.Ok? ==> r.value == c
    ensures c.dim <= 0 ==> r == Err(InvalidDim("dim", c.dim))
    ensures r.Err? && c.dim > 0 ==> r == Err(InvalidScale("self-repair-scale-nonlinearity", c.selfRepairScale))
  {
    if c.dim <= 0 then Err(InvalidDim("dim", c.dim))
    else if c.selfRepairScale < 0.0 || c.selfRepairScale > 1.0 then
      Err(InvalidScale("self-repair-scale-nonlinearity", c.selfRepairScale))
    else Ok(c)
  }

  /** Derivation followed by validation, in the order the layer base class runs them. */
  function Configure(c: Config, inputDim: int): Result<Config, ConfigError> {
    Check(SetDerived(c, inputDim))
  }

  /** The configuration is accepted exactly when some dim is positive (the
      layer's own, else the input's) and the self-repair scale lies in
      [0, 1]; the accepted configuration differs from the given one at most
      in `dim`, which is the input dim when the given one was unset. */
  lemma ConfigureOutcome(c: Config, inputDim: int)
    ensures Configure(c, inputDim).Ok? <==> (c.dim > 0 || inputDim > 0) && 0.0 <= c.selfRepairScale <= 1.0
    ensures Configure(c, inputDim).Ok? ==>
      && Configure(c, inputDim).value.dim == (if c.dim > 0 then c.dim else inputDim)
      && Configure(c, inputDim).value.(dim := c.dim) == c
    ensures c.dim <= 0 && inputDim <= 0 ==> Configure(c, inputDim) == Err(InvalidDim("dim", inputDim))
  {
  }

  /** The defaults are accepted exactly when the input dim is positive, and
      then the layer's dim is the input's. */
  lemma DefaultsOutcome(inputDim: int)
    ensures Configure(Defaults, inputDim).Ok? <==> inputDim > 0
    ensures inputDim > 0 ==> Configure(Defaults, inputDim).value.dim == inputDim
  {
    ConfigureOutcome(Defaults, inputDim);
  }

  // ---- generation ----------------------------------------------------------

  /** The per-element-scale components, each as wide as the input. */
  function ScaleKind(input: Descriptor, c: Config): Kind {
    NaturalGradientPerElementScaleComponent(input.dim, PerElementScaleOptions(c.pesOptions), c.l2Regularize)
  }

  /** The affine transform from the input appended with `m_t` to the output. */
  function AffineKind(input: Descriptor, c: Config): Kind {
    NaturalGradientAffineComponent(2 * input.dim, c.dim, c.affineOptions, c.l2Regularize)
  }

  function Head(name: string, input: Descriptor, c: Config): seq<Decl> {
    [ Comment("### Begin vFSMN layer '" + name + "'"),
      Comment("# the transform matrix:"),
      Component(WAll, AffineKind(input, c)),
      Comment("# the diagal matrices:") ]
  }

  function Sink(input: Descriptor): seq<Decl> {
    [ Component(NoOp, NoOpComponent(input.dim)),
      Comment("# Weighting the history and future :") ]
  }

  /** `m_t` sums the history taps, then the lookahead taps named by the sum's
      own lookahead offsets. */
  function MemoryTerms(c: Config): seq<Ref> {
    SumTerms([], PastOffsets(c.lookback, c.stride), SumFutureOffsets(c.lookahead, c.stride))
  }

  const HiddenNode: Decl := Node(Hidden, WAll, Append(LayerInput, Own(Memory)))

  /** The vFSMN instance of the common skeleton: taps read the layer input directly. */
  function LayerShape(name: string, input: Descriptor, c: Config): FramedShape {
    Framing(name, input, c);
    Shape(Head(name, input, c), ScaleKind(input, c),
          PastOffsets(c.lookback, c.stride), FutureOffsets(c.lookahead, c.stride),
          Sink(input), LayerInput, false, MemoryTerms(c), HiddenNode,
          c.dim, c.selfRepairScale, "### End vFSMN layer '" + name + "'")
  }

  /** The declaration list of `generate_fsmn_config`. */
  function Generate(name: string, input: Descriptor, c: Config): seq<Decl> {
    Assemble(LayerShape(name, input, c))
  }

  // ---- the layer-specific blocks ---------------------------------------------

  lemma Framing(name: string, input: Descriptor, c: Config)
    ensures Framed(Shape(Head(name, input, c), ScaleKind(input, c),
          PastOffsets(c.lookback, c.stride), FutureOffsets(c.lookahead, c.stride),
          Sink(input), LayerInput, false, MemoryTerms(c), HiddenNode,
          c.dim, c.selfRepairScale, "### End vFSMN layer '" + name + "'"))
  {
    HeadFacts(name, input, c);
  }

  lemma HeadFacts(name: string, input: Descriptor, c: Config)
    ensures RanksWithin(Head(name, input, c), 0, 3) && RanksWithin(Sink(input), 5, 8)
    ensures NoScaledNodes(Head(name, input, c)) && NoDropoutNodes(Head(name, input, c))
    ensures NoScaledNodes(Sink(input)) && NoDropoutNodes(Sink(input))
  {
  }

  lemma HeadNames(name: string, input: Descriptor, c: Config)
    ensures UniqueNames(Head(name, input, c)) && UniqueNames(Sink(input))
    ensures ResolvesAfter(Head(name, input, c), {}, {})
    ensures CompNames(Head(name, input, c)) == {WAll}
    ensures ResolvesAfter(Sink(input), {WAll}, {}) && CompNames(Sink(input)) == {NoOp}
  {
    var h, k := Head(name, input, c), Sink(input);
    assert h[2] in h && k[0] in k;
  }

  /** With at least one lookahead frame, the shape meets the wiring the
      define-before-use proof needs. */
  lemma Wired(name: string, input: Descriptor, c: Config)
    requires c.lookahead >= 1
    ensures WellWired(Shape(Head(name, input, c), ScaleKind(input, c),
          PastOffsets(c.lookback, c.stride), FutureOffsets(c.lookahead, c.stride),
          Sink(input), LayerInput, false, MemoryTerms(c), HiddenNode,
          c.dim, c.selfRepairScale, "### End vFSMN layer '" + name + "'"))
  {
    WiredFront(name, input, c);
    TermsWired(name, input, c);
  }

  /** The head and sink part of the wiring. */
  lemma WiredFront(name: string, input: Descriptor, c: Config)
    ensures FrontWired(Shape(Head(name, input, c), ScaleKind(input, c),
          PastOffsets(c.lookback, c.stride), FutureOffsets(c.lookahead, c.stride),
          Sink(input), LayerInput, false, MemoryTerms(c), HiddenNode,
          c.dim, c.selfRepairScale, "### End vFSMN layer '" + name + "'"))
  {
    HeadNames(name, input, c);
  }

  /** The memory sum reads the declared taps only. */
  lemma TermsWired(name: string, input: Descriptor, c: Config)
    requires c.lookahead >= 1
    ensures SumWired(Shape(Head(name, input, c), ScaleKind(input, c),
          PastOffsets(c.lookback, c.stride), FutureOffsets(c.lookahead, c.stride),
          Sink(input), LayerInput, false, MemoryTerms(c), HiddenNode,
          c.dim, c.selfRepairScale, "### End vFSMN layer '" + name + "'"))
  {
    var past, future := PastOffsets(c.lookback, c.stride), FutureOffsets(c.lookahead, c.stride);
    SumFutureOffsetsMatch(c.lookahead, c.stride);
    SumTermsReads([], past, future, TapNames(Lookback, past) + TapNames(Lookahead, future));
  }

  // ---- properties of the generated list --------------------------------------

  /** Names are unique exactly when no offset repeats: a zero stride with two
      or more taps on one side repeats `U_h_0` or `U_f_0`. */
  lemma NamesUnique(name: string, input: Descriptor, c: Config)
    ensures UniqueNames(Generate(name, input, c))
        <==> c.stride != 0 || (c.lookback <= 0 && c.lookahead <= 1)
  {
    var s := LayerShape(name, input, c);
    PastDistinct(c.lookback, c.stride);
    FutureDistinct(c.lookahead, c.stride);
    HeadNames(name, input, c);
    if Distinct(s.past) && Distinct(s.future) {
      Unique(s);
    }
    if UniqueNames(Assemble(s)) {
      UniqueNeedsDistinct(s);
    }
  }

  /** Every name is defined before use exactly when there is a lookahead
      frame: otherwise the sum's last term `f_t_<lookahead*stride>` names a
      tap that was never declared. */
  lemma DefinedExactly(name: string, input: Descriptor, c: Config)
    ensures DefinedBeforeUse(Generate(name, input, c)) <==> c.lookahead >= 1
  {
    var s := LayerShape(name, input, c);
    if c.lookahead >= 1 {
      Wired(name, input, c);
      Defined(s);
    } else {
      var x := c.lookahead * c.stride;
      SumFutureOffsetsMatch(c.lookahead, c.stride);
      assert Own(Future(x)) in s.terms by {
        assert s.terms[|s.terms| - 1] == Own(TapRole(Lookahead, x));
      }
      SumNeedsFuture(s, x);
    }
  }

  /** The history scale components `U_h_<h*stride>`: one per `h` in
      `range(0, lookback + 1)`, in order, each as wide as the input. */
  lemma PastScaleComponents(name: string, input: Descriptor, c: Config)
    ensures var hs := Select(Generate(name, input, c), IsPastScale);
      && |hs| == (if c.lookback >= 0 then c.lookback + 1 else 0)
      && forall i | 0 <= i < |hs| :: hs[i] == Component(UHist(i * c.stride),
           NaturalGradientPerElementScaleComponent(input.dim, PerElementScaleOptions(c.pesOptions), c.l2Regularize))
  {
    SelectPastScales(LayerShape(name, input, c));
  }

  /** The lookahead scale components `U_f_<k*stride>`: one per `k` in
      `range(1, lookahead + 1)`, in order, each as wide as the input. */
  lemma FutureScaleComponents(name: string, input: Descriptor, c: Config)
    ensures var fs := Select(Generate(name, input, c), IsFutureScale);
      && |fs| == (if c.lookahead >= 1 then c.lookahead else 0)
      && forall k | 0 <= k < |fs| :: fs[k] == Component(UAhead((k + 1) * c.stride),
           NaturalGradientPerElementScaleComponent(input.dim, PerElementScaleOptions(c.pesOptions), c.l2Regularize))
  {
    SelectFutureScales(LayerShape(name, input, c));
  }

  /** The weighting nodes: `h_t_<o>` reads `Offset(<input>, -<o>)` through
      `U_h_<o>` for each history offset, then `f_t_<o>` reads
      `Offset(<input>, <o>)` through `U_f_<o>` for each lookahead offset. */
  lemma WeightingNodes(name: string, input: Descriptor, c: Config)
    ensures var ws := Select(Generate(name, input, c), IsScaledNode);
      var past, future := PastOffsets(c.lookback, c.stride), FutureOffsets(c.lookahead, c.stride);
      && ws == ScaledNodes(Lookback, past, LayerInput, false) + ScaledNodes(Lookahead, future, LayerInput, false)
      && forall i | 0 <= i < |past| :: ws[i] == Node(Past(past[i]), UHist(past[i]), NegOffset(LayerInput, past[i]))
  {
    SelectScaledNodes(LayerShape(name, input, c));
  }

  /** `m_t` sums every history tap and then the lookahead taps at
      `k * stride` for `k` in `range(1, lookahead)` and at
      `lookahead * stride`. */
  lemma MemorySum(name: string, input: Descriptor, c: Config)
    ensures Select(Generate(name, input, c), Named(Memory))
         == [Node(Memory, NoOp, Sum(TapRefs(Lookback, PastOffsets(c.lookback, c.stride))
                                   + TapRefs(Lookahead, SumFutureOffsets(c.lookahead, c.stride))))]
  {
    SelectMemory(LayerShape(name, input, c));
    assert [] + TapRefs(Lookback, PastOffsets(c.lookback, c.stride)) == TapRefs(Lookback, PastOffsets(c.lookback, c.stride));
  }

  /** With a lookahead frame the sum's terms are exactly the declared taps,
      history first; without one the only lookahead term is
      `f_t_<lookahead*stride>`. */
  lemma MemoryTermsMatchTaps(c: Config)
    ensures c.lookahead >= 1 ==>
      MemoryTerms(c) == TapRefs(Lookback, PastOffsets(c.lookback, c.stride)) + TapRefs(Lookahead, FutureOffsets(c.lookahead, c.stride))
    ensures c.lookahead <= 0 ==>
      MemoryTerms(c) == TapRefs(Lookback, PastOffsets(c.lookback, c.stride)) + [Own(Future(c.lookahead * c.stride))]
  {
    SumFutureOffsetsMatch(c.lookahead, c.stride);
    assert [] + TapRefs(Lookback, PastOffsets(c.lookback, c.stride)) == TapRefs(Lookback, PastOffsets(c.lookback, c.stride));
  }

  lemma HeadNamed(name: string, input: Descriptor, c: Config)
    ensures Select(Head(name, input, c), Named(WAll)) == [Component(WAll, AffineKind(input, c))]
    ensures Select(Sink(input), Named(NoOp)) == [Component(NoOp, NoOpComponent(input.dim))]
  {
    SelectOne(Head(name, input, c), 2, Named(WAll));
    SelectOne(Sink(input), 0, Named(NoOp));
  }

  /** `h_t` applies `W_all` to the input appended with `m_t`. */
  lemma HiddenAffine(name: string, input: Descriptor, c: Config)
    ensures Select(Generate(name, input, c), Named(Hidden)) == [Node(Hidden, WAll, Append(LayerInput, Own(Memory)))]
  {
    SelectHidden(LayerShape(name, input, c));
  }

  lemma AffineDeclared(name: string, input: Descriptor, c: Config)
    ensures Select(Generate(name, input, c), Named(WAll)) == [Component(WAll, AffineKind(input, c))]
  {
    SelectNamedHead(LayerShape(name, input, c), WAll);
    HeadNamed(name, input, c);
  }

  lemma SinkDeclared(name: string, input: Descriptor, c: Config)
    ensures Select(Generate(name, input, c), Named(NoOp)) == [Component(NoOp, NoOpComponent(input.dim))]
  {
    SelectNamedSink(LayerShape(name, input, c), NoOp);
    HeadNamed(name, input, c);
  }

  /** The one `W_all` maps the width of what `h_t` appends (the input and
      `m_t`, which is as wide as the no-op sink it is summed into) to the
      layer's dim. */
  lemma AffineWidth(name: string, input: Descriptor, c: Config)
    ensures var ws, ns := Select(Generate(name, input, c), Named(WAll)), Select(Generate(name, input, c), Named(NoOp));
      && |ws| == 1 && ws[0].Component? && ws[0].kind.NaturalGradientAffineComponent?
      && |ns| == 1 && ns[0].Component? && ns[0].kind.NoOpComponent?
      && ns[0].kind.dim == input.dim
      && ws[0].kind.inputDim == input.dim + ns[0].kind.dim == 2 * input.dim
      && ws[0].kind.outputDim == c.dim
  {
    AffineDeclared(name, input, c);
    SinkDeclared(name, input, c);
  }

  /** `y_t`, the default output, is the batch-norm of `relu_t` and a declared node. */
  lemma OutputDeclared(name: string, input: Descriptor, c: Config)
    ensures Select(Generate(name, input, c), Named(Output)) == [Node(Output, BatchNorm, Use(Own(Rectified)))]
    ensures OutputName(name, None) == Ok(RenderName(name, Output)) && Output in NodeNames(Generate(name, input, c))
  {
    var s := LayerShape(name, input, c);
    SelectOutput(s);
    SelectedNode(Assemble(s), Output, Node(Output, BatchNorm, Use(Own(Rectified))));
  }

  /** The auxiliary output `m_t` is a declared node. */
  lemma AuxiliaryDeclared(name: string, input: Descriptor, c: Config)
    ensures OutputName(name, Some("m_t")) == Ok(RenderName(name, Memory)) && Memory in NodeNames(Generate(name, input, c))
  {
    var s := LayerShape(name, input, c);
    SelectMemory(s);
    SelectedNode(Assemble(s), Memory, Node(Memory, NoOp, Sum(s.terms)));
  }

  /** The dim reported for the default output is that of the batch-norm
      component, which the `y_t` node applies. */
  lemma OutputDimMatches(name: string, input: Descriptor, c: Config)
    ensures var g, d := Generate(name, input, c), OutputDim(c.dim, None);
      && d.Ok?
      && Component(BatchNorm, BatchNormComponent(d.value)) in g
      && Node(Output, BatchNorm, Use(Own(Rectified))) in g
  {
    var s := LayerShape(name, input, c);
    assert TailOf(s)[2] == Component(BatchNorm, BatchNormComponent(c.dim));
    assert TailOf(s)[3] == Node(Output, BatchNorm, Use(Own(Rectified)));
  }

  /** The list closes with the ReLU and batch-norm of the output dim and the
      closing comment. */
  lemma EndsWithTail(name: string, input: Descriptor, c: Config)
    ensures var g := Generate(name, input, c);
      && |g| >= 5
      && g[|g| - 5..] == [ Component(Relu, RectifiedLinearComponent(c.dim, c.selfRepairScale)),
                           Node(Rectified, Relu, Use(Own(Hidden))),
                           Component(BatchNorm, BatchNormComponent(c.dim)),
                           Node(Output, BatchNorm, Use(Own(Rectified))),
                           Comment("### End vFSMN layer '" + name + "'") ]
  {
    Layout.EndsWithTail(LayerShape(name, input, c));
  }

  /** The memory sum names each term once exactly when its offsets do not
      repeat: a zero stride repeats `h_t_0` once there are two history
      frames, and `f_t_0` once there are two lookahead terms. */
  lemma SumTermsOnce(c: Config)
    ensures DistinctRefs(MemoryTerms(c)) <==> c.stride != 0 || (c.lookback <= 0 && c.lookahead <= 1)
  {
    var lead: seq<Ref> := [];
    SumTermsDistinct(lead, PastOffsets(c.lookback, c.stride), SumFutureOffsets(c.lookahead, c.stride));
    PastDistinct(c.lookback, c.stride);
    SumFutureDistinct(c.lookahead, c.stride);
  }

  /** The layer opens with its begin banner, the transform comment, `W_all`
      and the comment introducing the scale components. */
  lemma HeadBlock(name: string, input: Descriptor, c: Config)
    ensures var g := Generate(name, input, c);
      && |g| >= 4
      && g[..4] == [ Comment("### Begin vFSMN layer '" + name + "'"),
                     Comment("# the transform matrix:"),
                     Component(WAll, AffineKind(input, c)),
                     Comment("# the diagal matrices:") ]
  {
    HeadAt(LayerShape(name, input, c));
  }

  /** Right after the head come the scale components, history first, and
      no other line. */
  lemma ScaleBlock(name: string, input: Descriptor, c: Config)
    ensures var g, n := Generate(name, input, c), SinkStart(LayerShape(name, input, c));
      && n == 4 + |PastOffsets(c.lookback, c.stride)| + |FutureOffsets(c.lookahead, c.stride)|
      && n <= |g|
      && g[4..n] == Select(g, IsPastScale) + Select(g, IsFutureScale)
  {
    var s := LayerShape(name, input, c);
    ScalesAt(s);
    SelectPastScales(s);
    SelectFutureScales(s);
  }

  /** After the scale components come the no-op sink as wide as the input,
      the weighting comment, and then the weighting nodes: every node of the
      layer that applies a scale component, in a row. */
  lemma SinkBlock(name: string, input: Descriptor, c: Config)
    ensures var g, n := Generate(name, input, c), SinkStart(LayerShape(name, input, c));
      var k := |PastOffsets(c.lookback, c.stride)| + |FutureOffsets(c.lookahead, c.stride)|;
      && n == 4 + k
      && n + 2 + k <= |g|
      && g[n] == Component(NoOp, NoOpComponent(input.dim))
      && g[n + 1] == Comment("# Weighting the history and future :")
      && g[n + 2..n + 2 + k] == Select(g, IsScaledNode)
  {
    var s := LayerShape(name, input, c);
    SinkLines(name, input, c);
    ScaledTapsAt(s);
  }

  lemma SinkLines(name: string, input: Descriptor, c: Config)
    ensures var g, n := Generate(name, input, c), SinkStart(LayerShape(name, input, c));
      && n == 4 + |PastOffsets(c.lookback, c.stride)| + |FutureOffsets(c.lookahead, c.stride)|
      && n + 2 <= |g| && TapsStart(LayerShape(name, input, c)) == n + 2
      && g[n] == Component(NoOp, NoOpComponent(input.dim))
      && g[n + 1] == Comment("# Weighting the history and future :")
  {
    var s := LayerShape(name, input, c);
    var n := SinkStart(s);
    SinkAt(s);
    assert s.sink == Sink(input);
    assert Assemble(s)[n] == s.sink[0] && Assemble(s)[n + 1] == s.sink[1];
  }

  /** The layer emits four head lines, one scale component and one
      weighting node per offset, the no-op and its comment, the sum comment,
      `m_t`, `h_t`, and the five tail lines: nothing else. */
  lemma LineCount(name: string, input: Descriptor, c: Config)
    ensures |Generate(name, input, c)| == 14 + 2 * (|PastOffsets(c.lookback, c.stride)| + |FutureOffsets(c.lookahead, c.stride)|)
  {
    AssembleLength(LayerShape(name, input, c));
  }

  /** The comment lines, in order: the opening banner, the transform and
      diagonal-matrix headings, the weighting and summing headings, and the
      closing banner. */
  lemma Comments(name: string, input: Descriptor, c: Config)
    ensures Select(Generate(name, input, c), IsComment)
         == [ Comment("### Begin vFSMN layer '" + name + "'"), Comment("# the transform matrix:"),
              Comment("# the diagal matrices:"), Comment("# Weighting the history and future :"),
              Comment("# Sumimg up the history and future :"), Comment("### End vFSMN layer '" + name + "'") ]
  {
    SelectComments(LayerShape(name, input, c));
    HeadComments(name, input, c);
    SinkComments(input);
    ConcatSix(Comment("### Begin vFSMN layer '" + name + "'"), Comment("# the transform matrix:"),
              Comment("# the diagal matrices:"), Comment("# Weighting the history and future :"),
              Comment("# Sumimg up the history and future :"), Comment("### End vFSMN layer '" + name + "'"));
  }

  lemma HeadComments(name: string, input: Descriptor, c: Config)
    ensures Select(Head(name, input, c), IsComment)
         == [Comment("### Begin vFSMN layer '" + name + "'"), Comment("# the transform matrix:"), Comment("# the diagal matrices:")]
  {
    var h := Head(name, input, c);
    assert h == [h[0], h[1]] + [h[2], h[3]];
    SelectAppend([h[0], h[1]], [h[2], h[3]], IsComment);
  }

  lemma SinkComments(input: Descriptor)
    ensures Select(Sink(input), IsComment) == [Comment("# Weighting the history and future :")]
  {
    SelectOne(Sink(input), 1, IsComment);
  }
}
