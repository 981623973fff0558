/** The `cfsmn-layer` (class XconfigcFSMNLayer): a compact FSMN that projects
    the input down with `W_in`, runs the memory block over the projection
    `p_t` (optionally through dropout, optionally adding another layer's
    `m_t` as a residual), and maps the memory back up with `W_out` before a
    ReLU and batch-norm. */
module CFsmn {
  import opened Wrappers
  import opened Decls
  import opened Options
  import opened Memory
  import opened Layout
  import opened Layer
  import opened Names

  /** The settings of a `cfsmn-layer` line, after parsing. */
  datatype Config = Config(
    projectionDim: int,        // projection-dim
    outputDim: int,            // output-dim
    lookahead: int,            // lookhead-num
    lookback: int,             // lookback-num
    stride: int,               // look-stride
    resnet: string,            // resnet-opts: the layer whose m_t is added, or ""
    pesOptions: string,        // ng-per-element-scale-options
    affineOptions: string,     // ng-affine-options
    selfRepairScale: real,     // self-repair-scale-nonlinearity
    l2Regularize: real,        // l2-regularize
    dropoutProportion: real,   // dropout-proportion; -1.0 means no dropout
    dropoutPerFrame: bool)     // dropout-per-frame

  /** The defaults a `cfsmn-layer` line starts from. */
  const Defaults: Config :=
    Config(-1, -1, -1, -1, 1, "", " max-change=0.75", " max-change=0.75 ", 0.00001, 0.0, -1.0, false)

  /** An unset (non-positive) output dim takes the input's dim; an unset
      projection dim takes a quarter of it, rounded down. */
  function SetDerived(c: Config, inputDim: int): (r: Config)
    ensures r.outputDim == (if c.outputDim <= 0 then inputDim else c.outputDim)
    ensures r.projectionDim == (if c.projectionDim <= 0 then inputDim / 4 else c.projectionDim)
    ensures r.(outputDim := c.outputDim, projectionDim := c.projectionDim) == c
  {
    var withOutput := if c.outputDim <= 0 then c.(outputDim := inputDim) else c;
    if withOutput.projectionDim <= 0 then withOutput.(projectionDim := inputDim / 4) else withOutput
  }

  /** Validation after derivation: output dim, then projection dim, then the
      self-repair scale; the first violated rule raises. */
  function Check(c: Config): (r: Result<Config, ConfigError>)
    ensures r.Ok? <==> c.outputDim > 0 && c.projectionDim > 0 && 0.0 <= c.selfRepairScale <= 1.0
    ensures r.Ok? ==> r.value == c
    ensures c.outputDim <= 0 ==> r == Err(InvalidDim("output-dim", c.outputDim))
    ensures c.outputDim > 0 && c.projectionDim <= 0 ==> r == Err(InvalidDim("projection-dim", c.projectionDim))
    ensures r.Err? && c.outputDim > 0 && c.projectionDim > 0 ==>
      r == Err(InvalidScale("self-repair-scale-nonlinearity", c.selfRepairScale))
  {
    if c.outputDim <= 0 then Err(InvalidDim("output-dim", c.outputDim))
    else if c.projectionDim <= 0 then Err(InvalidDim("projection-dim", c.projectionDim))
    else if c.selfRepairScale < 0.0 || c.selfRepairScale > 1.0 then
      Err(InvalidScale("self-repair-scale-nonlinearity", c.selfRepairScale))
    else Ok(c)
  }

  /** Derivation followed by validation, in the order the layer base class runs them. */
  function Configure(c: Config, inputDim: int): Result<Config, ConfigError> {
    Check(SetDerived(c, inputDim))
  }

  /** The configuration is accepted exactly when both dims end up positive
      (an unset projection dim needs an input dim of at least 4) and the
      self-repair scale lies in [0, 1]; only the two dims may change. */
  lemma ConfigureOutcome(c: Config, inputDim: int)
    ensures Configure(c, inputDim).Ok?
        <==> && (c.outputDim > 0 || inputDim > 0)
             && (c.projectionDim > 0 || inputDim >= 4)
             && 0.0 <= c.selfRepairScale <= 1.0
    ensures Configure(c, inputDim).Ok? ==>
      var r := Configure(c, inputDim).value;
      && r.outputDim == (if c.outputDim > 0 then c.outputDim else inputDim)
      && r.projectionDim == (if c.projectionDim > 0 then c.projectionDim else inputDim / 4)
      && r.(outputDim := c.outputDim, projectionDim := c.projectionDim) == c
    ensures c.outputDim <= 0 && inputDim <= 0 ==> Configure(c, inputDim) == Err(InvalidDim("output-dim", inputDim))
  {
  }

  /** The defaults are accepted exactly when the input dim is at least 4;
      the output then keeps the input's dim and the projection a quarter of it. */
  lemma DefaultsOutcome(inputDim: int)
    ensures Configure(Defaults, inputDim).Ok? <==> inputDim >= 4
    ensures inputDim >= 4 ==>
      Configure(Defaults, inputDim).value.outputDim == inputDim
      && Configure(Defaults, inputDim).value.projectionDim == inputDim / 4
    ensures 1 <= inputDim < 4 ==> Configure(Defaults, inputDim) == Err(InvalidDim("projection-dim", 0))
  {
    ConfigureOutcome(Defaults, inputDim);
  }

  // ---- generation ----------------------------------------------------------

  /** Dropout is on unless the proportion is exactly -1. */
  predicate Dropping(c: Config) {
    c.dropoutProportion != -1.0
  }

  /** The per-element-scale components, each as wide as the projection. */
  function ScaleKind(c: Config): Kind {
    NaturalGradientPerElementScaleComponent(c.projectionDim, PerElementScaleOptions(c.pesOptions), c.l2Regularize)
  }

  function InKind(input: Descriptor, c: Config): Kind {
    NaturalGradientAffineComponent(input.dim, c.projectionDim, c.affineOptions, c.l2Regularize)
  }

  function OutKind(c: Config): Kind {
    NaturalGradientAffineComponent(c.projectionDim, c.outputDim, c.affineOptions, c.l2Regularize)
  }

  function DropoutKind(c: Config): Kind {
    DropoutComponent(c.projectionDim, c.dropoutProportion, c.dropoutPerFrame)
  }

  function Head(name: string, input: Descriptor, c: Config): seq<Decl> {
    [ Comment("### Begin cFSMN layer '" + name + "'"),
      Comment("# the transform matrices:"),
      Component(WIn, InKind(input, c)),
      Component(WOut, OutKind(c)),
      Comment("# the diagal matrices:") ]
  }

  /** The no-op sink, the dropout component when dropout is on, and the projection `p_t`. */
  function Sink(c: Config): seq<Decl> {
    var noop := Component(NoOp, NoOpComponent(c.projectionDim));
    var project := Node(Projected, WIn, Use(LayerInput));
    var comment := Comment("# Weighting the history and future :");
    if Dropping(c) then [noop, Component(Dropout, DropoutKind(c)), project, comment]
    else [noop, project, comment]
  }

  /** `m_t` sums `p_t`, the residual layer's `m_t` when one is named, the
      history taps, then the lookahead taps named by the sum's own
      lookahead offsets. */
  function MemoryTerms(c: Config): seq<Ref> {
    var residual := if c.resnet != "" then [OtherMemory(c.resnet)] else [];
    SumTerms([Own(Projected)] + residual, PastOffsets(c.lookback, c.stride), SumFutureOffsets(c.lookahead, c.stride))
  }

  const HiddenNode: Decl := Node(Hidden, WOut, Use(Own(Memory)))

  /** The cFSMN instance of the common skeleton: taps shift `p_t`. */
  function LayerShape(name: string, input: Descriptor, c: Config): FramedShape {
    Framing(name, input, c);
    Shape(Head(name, input, c), ScaleKind(c),
          PastOffsets(c.lookback, c.stride), FutureOffsets(c.lookahead, c.stride),
          Sink(c), Own(Projected), Dropping(c), MemoryTerms(c), HiddenNode,
          c.outputDim, c.selfRepairScale, "### End cFSMN layer '" + name + "'")
  }

  /** The declaration list of `generate_fsmn_config`. */
  function Generate(name: string, input: Descriptor, c: Config): seq<Decl> {
    Assemble(LayerShape(name, input, c))
  }

  // ---- the layer-specific blocks ---------------------------------------------

  lemma Framing(name: string, input: Descriptor, c: Config)
    ensures Framed(Shape(Head(name, input, c), ScaleKind(c),
          PastOffsets(c.lookback, c.stride), FutureOffsets(c.lookahead, c.stride),
          Sink(c), Own(Projected), Dropping(c), MemoryTerms(c), HiddenNode,
          c.outputDim, c.selfRepairScale, "### End cFSMN layer '" + name + "'"))
  {
    HeadFacts(name, input, c);
    SinkFacts(c);
  }

  lemma HeadFacts(name: string, input: Descriptor, c: Config)
    ensures RanksWithin(Head(name, input, c), 0, 3)
    ensures NoScaledNodes(Head(name, input, c)) && NoDropoutNodes(Head(name, input, c))
  {
  }

  lemma SinkFacts(c: Config)
    ensures RanksWithin(Sink(c), 5, 8)
    ensures NoScaledNodes(Sink(c)) && NoDropoutNodes(Sink(c))
  {
  }

  lemma HeadNames(name: string, input: Descriptor, c: Config)
    ensures UniqueNames(Head(name, input, c)) && ResolvesAfter(Head(name, input, c), {}, {})
    ensures CompNames(Head(name, input, c)) == {WIn, WOut} && NodeNames(Head(name, input, c)) == {}
  {
    var h := Head(name, input, c);
    assert h[2] in h && h[3] in h;
  }

  lemma SinkNames(c: Config)
    ensures CompNames(Sink(c)) == if Dropping(c) then {NoOp, Dropout} else {NoOp}
    ensures NodeNames(Sink(c)) == {Projected}
  {
    var k := Sink(c);
    assert k[0] in k;
    if Dropping(c) {
      assert k[1] in k && k[2] in k;
    } else {
      assert k[1] in k;
    }
  }

  lemma SinkWired(c: Config)
    ensures UniqueNames(Sink(c)) && ResolvesAfter(Sink(c), {WIn, WOut}, {})
  {
    var k := Sink(c);
    if Dropping(c) {
      assert k[..2] == [k[0], k[1]];
    } else {
      assert k[..1] == [k[0]];
    }
  }

  /** The memory sum reads `p_t` and taps only. */
  lemma TermsWired(name: string, input: Descriptor, c: Config)
    requires c.lookahead >= 1
    ensures SumWired(Shape(Head(name, input, c), ScaleKind(c),
          PastOffsets(c.lookback, c.stride), FutureOffsets(c.lookahead, c.stride),
          Sink(c), Own(Projected), Dropping(c), MemoryTerms(c), HiddenNode,
          c.outputDim, c.selfRepairScale, "### End cFSMN layer '" + name + "'"))
  {
    var past, future := PastOffsets(c.lookback, c.stride), FutureOffsets(c.lookahead, c.stride);
    SinkNames(c);
    SumFutureOffsetsMatch(c.lookahead, c.stride);
    var residual := if c.resnet != "" then [OtherMemory(c.resnet)] else [];
    SumTermsReads([Own(Projected)] + residual, past, future,
                  NodeNames(Sink(c)) + TapNames(Lookback, past) + TapNames(Lookahead, future));
  }

  /** With at least one lookahead frame, the shape meets the wiring the
      define-before-use proof needs. */
  lemma Wired(name: string, input: Descriptor, c: Config)
    requires c.lookahead >= 1
    ensures WellWired(Shape(Head(name, input, c), ScaleKind(c),
          PastOffsets(c.lookback, c.stride), FutureOffsets(c.lookahead, c.stride),
          Sink(c), Own(Projected), Dropping(c), MemoryTerms(c), HiddenNode,
          c.outputDim, c.selfRepairScale, "### End cFSMN layer '" + name + "'"))
  {
    WiredFront(name, input, c);
    TermsWired(name, input, c);
  }

  /** The head and sink part of the wiring. */
  lemma WiredFront(name: string, input: Descriptor, c: Config)
    ensures FrontWired(Shape(Head(name, input, c), ScaleKind(c),
          PastOffsets(c.lookback, c.stride), FutureOffsets(c.lookahead, c.stride),
          Sink(c), Own(Projected), Dropping(c), MemoryTerms(c), HiddenNode,
          c.outputDim, c.selfRepairScale, "### End cFSMN layer '" + name + "'"))
  {
    HeadNames(name, input, c);
    SinkNames(c);
    SinkWired(c);
  }


  // ---- properties of the generated list --------------------------------------

  /** Names are unique exactly when no offset repeats: a zero stride with two
      or more taps on one side repeats `U_h_0` or `U_f_0`. */
  lemma NamesUnique(name: string, input: Descriptor, c: Config)
    ensures UniqueNames(Generate(name, input, c))
        <==> c.stride != 0 || (c.lookback <= 0 && c.lookahead <= 1)
  {
    var s := LayerShape(name, input, c);
    PastDistinct(c.lookback, c.stride);
    FutureDistinct(c.lookahead, c.stride);
    HeadNames(name, input, c);
    SinkWired(c);
    if Distinct(s.past) && Distinct(s.future) {
      Unique(s);
    }
    if UniqueNames(Assemble(s)) {
      UniqueNeedsDistinct(s);
    }
  }

  /** Every name of this layer is defined before use exactly when there is
      a lookahead frame: otherwise the sum's last term
      `f_t_<lookahead*stride>` names a tap that was never declared.  The
      residual `<resnet>.m_t` belongs to another layer and is not checked. */
  lemma DefinedExactly(name: string, input: Descriptor, c: Config)
    ensures DefinedBeforeUse(Generate(name, input, c)) <==> c.lookahead >= 1
  {
    var s := LayerShape(name, input, c);
    if c.lookahead >= 1 {
      Wired(name, input, c);
      Defined(s);
    } else {
      var x := c.lookahead * c.stride;
      SumFutureOffsetsMatch(c.lookahead, c.stride);
      assert Own(Future(x)) in s.terms by {
        assert s.terms[|s.terms| - 1] == Own(TapRole(Lookahead, x));
      }
      SumNeedsFuture(s, x);
    }
  }

  /** The history scale components `U_h_<h*stride>`: one per `h` in
      `range(0, lookback + 1)`, in order, each as wide as the projection. */
  lemma PastScaleComponents(name: string, input: Descriptor, c: Config)
    ensures var hs := Select(Generate(name, input, c), IsPastScale);
      && |hs| == (if c.lookback >= 0 then c.lookback + 1 else 0)
      && forall i | 0 <= i < |hs| :: hs[i] == Component(UHist(i * c.stride),
           NaturalGradientPerElementScaleComponent(c.projectionDim, PerElementScaleOptions(c.pesOptions), c.l2Regularize))
  {
    SelectPastScales(LayerShape(name, input, c));
  }

  /** The lookahead scale components `U_f_<k*stride>`: one per `k` in
      `range(1, lookahead + 1)`, in order, each as wide as the projection. */
  lemma FutureScaleComponents(name: string, input: Descriptor, c: Config)
    ensures var fs := Select(Generate(name, input, c), IsFutureScale);
      && |fs| == (if c.lookahead >= 1 then c.lookahead else 0)
      && forall k | 0 <= k < |fs| :: fs[k] == Component(UAhead((k + 1) * c.stride),
           NaturalGradientPerElementScaleComponent(c.projectionDim, PerElementScaleOptions(c.pesOptions), c.l2Regularize))
  {
    SelectFutureScales(LayerShape(name, input, c));
  }

  /** The nodes applying a scale component shift `p_t`: for each history
      offset `o` one reads `Offset(p_t, -o)` through `U_h_o`, then for each
      lookahead offset one reads `Offset(p_t, o)` through `U_f_o`.  Each is
      the tap `h_t_o` / `f_t_o` itself, or its `_pre` node under dropout. */
  lemma WeightingNodes(name: string, input: Descriptor, c: Config)
    ensures var ws := Select(Generate(name, input, c), IsScaledNode);
      var past, future := PastOffsets(c.lookback, c.stride), FutureOffsets(c.lookahead, c.stride);
      && ws == ScaledNodes(Lookback, past, Own(Projected), Dropping(c)) + ScaledNodes(Lookahead, future, Own(Projected), Dropping(c))
      && forall i | 0 <= i < |past| ::
           ws[i] == Node(if Dropping(c) then PastPre(past[i]) else Past(past[i]), UHist(past[i]), NegOffset(Own(Projected), past[i]))
  {
    SelectScaledNodes(LayerShape(name, input, c));
  }

  /** With dropout on, every tap `h_t_<o>` / `f_t_<o>` applies the dropout
      component to its own `_pre` node, history first, and these are the only
      dropout nodes; each comes right after that `_pre` node, which scales
      the same offset. */
  lemma DropoutAfterScale(name: string, input: Descriptor, c: Config)
    ensures Select(Generate(name, input, c), IsDropoutNode)
         == if Dropping(c)
            then DropTaps(Lookback, PastOffsets(c.lookback, c.stride)) + DropTaps(Lookahead, FutureOffsets(c.lookahead, c.stride))
            else []
    ensures Paired(Generate(name, input, c), IsDropoutNode, DropsScaled)
  {
    DropoutNodes(LayerShape(name, input, c));
    DropoutFollowsScaled(LayerShape(name, input, c));
  }

  /** With the proportion at -1 no node applies dropout. */
  lemma NoDropoutWhenOff(name: string, input: Descriptor, c: Config)
    requires !Dropping(c)
    ensures Select(Generate(name, input, c), IsDropoutNode) == []
  {
    NoDropoutWithoutDropout(LayerShape(name, input, c));
  }

  lemma SinkNamed(c: Config)
    ensures Select(Sink(c), Named(Dropout)) == if Dropping(c) then [Component(Dropout, DropoutKind(c))] else []
    ensures Select(Sink(c), Named(NoOp)) == [Component(NoOp, NoOpComponent(c.projectionDim))]
    ensures Select(Sink(c), Named(Projected)) == [Node(Projected, WIn, Use(LayerInput))]
  {
    var k := Sink(c);
    SelectOne(k, 0, Named(NoOp));
    if Dropping(c) {
      SelectOne(k, 1, Named(Dropout));
      SelectOne(k, 2, Named(Projected));
    } else {
      SelectNone(k, Named(Dropout));
      SelectOne(k, 1, Named(Projected));
    }
  }

  /** After the five head lines and the scale components come the no-op
      sink, the dropout component when dropout is on, the projection `p_t`
      of the layer input through `W_in`, and the weighting comment. */
  lemma SinkBlock(name: string, input: Descriptor, c: Config)
    ensures var g, n := Generate(name, input, c), SinkStart(LayerShape(name, input, c));
      var project, comment := Node(Projected, WIn, Use(LayerInput)), Comment("# Weighting the history and future :");
      && n == 5 + |PastOffsets(c.lookback, c.stride)| + |FutureOffsets(c.lookahead, c.stride)|
      && n + (if Dropping(c) then 4 else 3) <= |g|
      && g[n] == Component(NoOp, NoOpComponent(c.projectionDim))
      && (Dropping(c) ==>
            && g[n + 1] == Component(Dropout, DropoutComponent(c.projectionDim, c.dropoutProportion, c.dropoutPerFrame))
            && g[n + 2] == project && g[n + 3] == comment)
      && (!Dropping(c) ==> g[n + 1] == project && g[n + 2] == comment)
  {
    SinkStartAt(name, input, c);
    if Dropping(c) {
      SinkWithDropout(name, input, c);
    } else {
      SinkWithoutDropout(name, input, c);
    }
  }

  lemma SinkStartAt(name: string, input: Descriptor, c: Config)
    ensures SinkStart(LayerShape(name, input, c)) == 5 + |PastOffsets(c.lookback, c.stride)| + |FutureOffsets(c.lookahead, c.stride)|
  {
  }

  lemma SinkWithDropout(name: string, input: Descriptor, c: Config)
    requires Dropping(c)
    ensures var g, n := Generate(name, input, c), SinkStart(LayerShape(name, input, c));
      && n + 4 <= |g|
      && g[n] == Component(NoOp, NoOpComponent(c.projectionDim))
      && g[n + 1] == Component(Dropout, DropoutComponent(c.projectionDim, c.dropoutProportion, c.dropoutPerFrame))
      && g[n + 2] == Node(Projected, WIn, Use(LayerInput))
      && g[n + 3] == Comment("# Weighting the history and future :")
  {
    var s := LayerShape(name, input, c);
    var n := SinkStart(s);
    SinkAt(s);
    assert s.sink == Sink(c);
    assert Assemble(s)[n] == s.sink[0] && Assemble(s)[n + 1] == s.sink[1];
    assert Assemble(s)[n + 2] == s.sink[2] && Assemble(s)[n + 3] == s.sink[3];
  }

  lemma SinkWithoutDropout(name: string, input: Descriptor, c: Config)
    requires !Dropping(c)
    ensures var g, n := Generate(name, input, c), SinkStart(LayerShape(name, input, c));
      && n + 3 <= |g|
      && g[n] == Component(NoOp, NoOpComponent(c.projectionDim))
      && g[n + 1] == Node(Projected, WIn, Use(LayerInput))
      && g[n + 2] == Comment("# Weighting the history and future :")
  {
    var s := LayerShape(name, input, c);
    var n := SinkStart(s);
    SinkAt(s);
    assert s.sink == Sink(c);
    assert Assemble(s)[n] == s.sink[0] && Assemble(s)[n + 1] == s.sink[1] && Assemble(s)[n + 2] == s.sink[2];
  }

  /** The dropout component, as wide as the projection, is declared exactly
      when dropout is on, and then right after the no-op sink and right
      before `p_t`. */
  lemma DropoutComponentDeclared(name: string, input: Descriptor, c: Config)
    ensures Select(Generate(name, input, c), Named(Dropout))
         == if Dropping(c) then [Component(Dropout, DropoutComponent(c.projectionDim, c.dropoutProportion, c.dropoutPerFrame))] else []
    ensures var g, n := Generate(name, input, c), SinkStart(LayerShape(name, input, c));
      && n == 5 + |PastOffsets(c.lookback, c.stride)| + |FutureOffsets(c.lookahead, c.stride)|
      && (Dropping(c) ==>
            && n + 2 < |g| && g[n] == Component(NoOp, NoOpComponent(c.projectionDim))
            && g[n + 1] == Component(Dropout, DropoutComponent(c.projectionDim, c.dropoutProportion, c.dropoutPerFrame))
            && g[n + 2] == Node(Projected, WIn, Use(LayerInput)))
  {
    SelectNamedSink(LayerShape(name, input, c), Dropout);
    SinkNamed(c);
    SinkBlock(name, input, c);
  }

  /** `p_t` is the one node, applying `W_in` to the layer input. */
  lemma ProjectionNode(name: string, input: Descriptor, c: Config)
    ensures Select(Generate(name, input, c), Named(Projected)) == [Node(Projected, WIn, Use(LayerInput))]
  {
    SelectNamedSink(LayerShape(name, input, c), Projected);
    SinkNamed(c);
  }

  /** `m_t` sums `p_t`, then the residual `<resnet>.m_t` exactly when a
      residual layer is named, then every history tap, then the lookahead
      taps at `k * stride` for `k` in `range(1, lookahead)` and at
      `lookahead * stride`. */
  lemma MemorySum(name: string, input: Descriptor, c: Config)
    ensures Select(Generate(name, input, c), Named(Memory))
         == [Node(Memory, NoOp, Sum([Own(Projected)] + (if c.resnet != "" then [OtherMemory(c.resnet)] else [])
                                   + TapRefs(Lookback, PastOffsets(c.lookback, c.stride))
                                   + TapRefs(Lookahead, SumFutureOffsets(c.lookahead, c.stride))))]
  {
    SelectMemory(LayerShape(name, input, c));
  }

  /** With a lookahead frame the sum's tap terms are exactly the declared
      taps, history first; without one the only lookahead term is
      `f_t_<lookahead*stride>`. */
  lemma MemoryTermsMatchTaps(c: Config)
    ensures var lead := [Own(Projected)] + (if c.resnet != "" then [OtherMemory(c.resnet)] else []);
      var past := TapRefs(Lookback, PastOffsets(c.lookback, c.stride));
      && (c.lookahead >= 1 ==> MemoryTerms(c) == lead + past + TapRefs(Lookahead, FutureOffsets(c.lookahead, c.stride)))
      && (c.lookahead <= 0 ==> MemoryTerms(c) == lead + past + [Own(Future(c.lookahead * c.stride))])
  {
    SumFutureOffsetsMatch(c.lookahead, c.stride);
  }

  /** `h_t` applies `W_out` to `m_t`. */
  lemma HiddenAffine(name: string, input: Descriptor, c: Config)
    ensures Select(Generate(name, input, c), Named(Hidden)) == [Node(Hidden, WOut, Use(Own(Memory)))]
  {
    SelectHidden(LayerShape(name, input, c));
  }

  lemma HeadNamed(name: string, input: Descriptor, c: Config)
    ensures Select(Head(name, input, c), Named(WIn)) == [Component(WIn, InKind(input, c))]
    ensures Select(Head(name, input, c), Named(WOut)) == [Component(WOut, OutKind(c))]
  {
    SelectOne(Head(name, input, c), 2, Named(WIn));
    SelectOne(Head(name, input, c), 3, Named(WOut));
  }

  lemma InDeclared(name: string, input: Descriptor, c: Config)
    ensures Select(Generate(name, input, c), Named(WIn)) == [Component(WIn, InKind(input, c))]
  {
    SelectNamedHead(LayerShape(name, input, c), WIn);
    HeadNamed(name, input, c);
  }

  lemma OutDeclared(name: string, input: Descriptor, c: Config)
    ensures Select(Generate(name, input, c), Named(WOut)) == [Component(WOut, OutKind(c))]
  {
    SelectNamedHead(LayerShape(name, input, c), WOut);
    HeadNamed(name, input, c);
  }

  lemma SinkDeclared(name: string, input: Descriptor, c: Config)
    ensures Select(Generate(name, input, c), Named(NoOp)) == [Component(NoOp, NoOpComponent(c.projectionDim))]
  {
    SelectNamedSink(LayerShape(name, input, c), NoOp);
    SinkNamed(c);
  }

  /** The projection chain fits together: `W_in` maps the input's dim to the
      width of the no-op sink that `m_t` is summed into, and `W_out` maps
      that width to the output dim. */
  lemma ProjectionWidths(name: string, input: Descriptor, c: Config)
    ensures var ins, outs, ns := Select(Generate(name, input, c), Named(WIn)),
                                 Select(Generate(name, input, c), Named(WOut)),
                                 Select(Generate(name, input, c), Named(NoOp));
      && |ins| == 1 && ins[0].Component? && ins[0].kind.NaturalGradientAffineComponent?
      && |outs| == 1 && outs[0].Component? && outs[0].kind.NaturalGradientAffineComponent?
      && |ns| == 1 && ns[0].Component? && ns[0].kind.NoOpComponent?
      && ins[0].kind.inputDim == input.dim
      && ins[0].kind.outputDim == ns[0].kind.dim == outs[0].kind.inputDim == c.projectionDim
      && outs[0].kind.outputDim == c.outputDim
  {
    InDeclared(name, input, c);
    OutDeclared(name, input, c);
    SinkDeclared(name, input, c);
  }

  /** `y_t`, the default output, is the batch-norm of `relu_t` and a declared node. */
  lemma OutputDeclared(name: string, input: Descriptor, c: Config)
    ensures Select(Generate(name, input, c), Named(Output)) == [Node(Output, BatchNorm, Use(Own(Rectified)))]
    ensures OutputName(name, None) == Ok(RenderName(name, Output)) && Output in NodeNames(Generate(name, input, c))
  {
    var s := LayerShape(name, input, c);
    SelectOutput(s);
    SelectedNode(Assemble(s), Output, Node(Output, BatchNorm, Use(Own(Rectified))));
  }

  /** The auxiliary output `m_t` is a declared node. */
  lemma AuxiliaryDeclared(name: string, input: Descriptor, c: Config)
    ensures OutputName(name, Some("m_t")) == Ok(RenderName(name, Memory)) && Memory in NodeNames(Generate(name, input, c))
  {
    var s := LayerShape(name, input, c);
    SelectMemory(s);
    SelectedNode(Assemble(s), Memory, Node(Memory, NoOp, Sum(s.terms)));
  }

  /** The dim reported for the default output is that of the batch-norm
      component, which the `y_t` node applies. */
  lemma OutputDimMatches(name: string, input: Descriptor, c: Config)
    ensures var g, d := Generate(name, input, c), OutputDim(c.outputDim, None);
      && d.Ok?
      && Component(BatchNorm, BatchNormComponent(d.value)) in g
      && Node(Output, BatchNorm, Use(Own(Rectified))) in g
  {
    var s := LayerShape(name, input, c);
    assert TailOf(s)[2] == Component(BatchNorm, BatchNormComponent(c.outputDim));
    assert TailOf(s)[3] == Node(Output, BatchNorm, Use(Own(Rectified)));
  }

  /** The list closes with the ReLU and batch-norm of the output dim and the
      closing comment. */
  lemma EndsWithTail(name: string, input: Descriptor, c: Config)
    ensures var g := Generate(name, input, c);
      && |g| >= 5
      && g[|g| - 5..] == [ Component(Relu, RectifiedLinearComponent(c.outputDim, c.selfRepairScale)),
                           Node(Rectified, Relu, Use(Own(Hidden))),
                           Component(BatchNorm, BatchNormComponent(c.outputDim)),
                           Node(Output, BatchNorm, Use(Own(Rectified))),
                           Comment("### End cFSMN layer '" + name + "'") ]
  {
    Layout.EndsWithTail(LayerShape(name, input, c));
  }

  /** The memory sum names each term once exactly when its offsets do not
      repeat: a zero stride repeats `h_t_0` once there are two history
      frames, and `f_t_0` once there are two lookahead terms. */
  lemma SumTermsOnce(c: Config)
    ensures DistinctRefs(MemoryTerms(c)) <==> c.stride != 0 || (c.lookback <= 0 && c.lookahead <= 1)
  {
    var lead: seq<Ref> := [Own(Projected)] + (if c.resnet != "" then [OtherMemory(c.resnet)] else []);
    SumTermsDistinct(lead, PastOffsets(c.lookback, c.stride), SumFutureOffsets(c.lookahead, c.stride));
    PastDistinct(c.lookback, c.stride);
    SumFutureDistinct(c.lookahead, c.stride);
  }

  /** The layer opens with its begin banner, the transforms comment, `W_in`,
      `W_out` and the comment introducing the scale components. */
  lemma HeadBlock(name: string, input: Descriptor, c: Config)
    ensures var g := Generate(name, input, c);
      && |g| >= 5
      && g[..5] == [ Comment("### Begin cFSMN layer '" + name + "'"),
                     Comment("# the transform matrices:"),
                     Component(WIn, InKind(input, c)),
                     Component(WOut, OutKind(c)),
                     Comment("# the diagal matrices:") ]
  {
    HeadAt(LayerShape(name, input, c));
  }

  /** Right after the head come the scale components, history first, and
      no other line. */
  lemma ScaleBlock(name: string, input: Descriptor, c: Config)
    ensures var g, n := Generate(name, input, c), SinkStart(LayerShape(name, input, c));
      && n == 5 + |PastOffsets(c.lookback, c.stride)| + |FutureOffsets(c.lookahead, c.stride)|
      && n <= |g|
      && g[5..n] == Select(g, IsPastScale) + Select(g, IsFutureScale)
  {
    var s := LayerShape(name, input, c);
    ScalesAt(s);
    SelectPastScales(s);
    SelectFutureScales(s);
  }

  /** Right after the sink block, whose last line is the weighting comment
      (`SinkBlock`), come the weighting nodes: every node applying a scale
      component or the dropout component, in a row, one per offset, or two
      with dropout on. */
  lemma TapBlock(name: string, input: Descriptor, c: Config)
    ensures var s := LayerShape(name, input, c);
      var g, m, k := Generate(name, input, c), TapsStart(s), TapCount(s);
      var t := |PastOffsets(c.lookback, c.stride)| + |FutureOffsets(c.lookahead, c.stride)|;
      && m == SinkStart(s) + (if Dropping(c) then 4 else 3)
      && k == (if Dropping(c) then 2 * t else t)
      && m + k <= |g|
      && g[m..m + k] == Select(g, IsTapLine)
  {
    ShapeFields(name, input, c);
    TapLines(name, input, c);
  }

  lemma TapLines(name: string, input: Descriptor, c: Config)
    ensures var g, m, k := Generate(name, input, c), TapsStart(LayerShape(name, input, c)), TapCount(LayerShape(name, input, c));
      m + k <= |g| && g[m..m + k] == Select(g, IsTapLine)
  {
    TapLinesAt(LayerShape(name, input, c));
  }

  lemma ShapeFields(name: string, input: Descriptor, c: Config)
    ensures var s := LayerShape(name, input, c);
      && s.dropout == Dropping(c)
      && s.past == PastOffsets(c.lookback, c.stride) && s.future == FutureOffsets(c.lookahead, c.stride)
      && TapsStart(s) == SinkStart(s) + (if Dropping(c) then 4 else 3)
  {
  }

  /** The layer emits five head lines, one scale component per offset, the
      sink block (three lines, four with dropout), one weighting node per
      offset (two with dropout), the sum comment, `m_t`, `h_t`, and the five
      tail lines: nothing else. */
  lemma LineCount(name: string, input: Descriptor, c: Config)
    ensures |Generate(name, input, c)| == (if Dropping(c) then 17 else 16) + (if Dropping(c) then 3 else 2) * (|PastOffsets(c.lookback, c.stride)| + |FutureOffsets(c.lookahead, c.stride)|)
  {
    AssembleLength(LayerShape(name, input, c));
  }

  /** The comment lines, in order: the opening banner, the transform and
      diagonal-matrix headings, the weighting and summing headings, and the
      closing banner. */
  lemma Comments(name: string, input: Descriptor, c: Config)
    ensures Select(Generate(name, input, c), IsComment)
         == [ Comment("### Begin cFSMN layer '" + name + "'"), Comment("# the transform matrices:"),
              Comment("# the diagal matrices:"), Comment("# Weighting the history and future :"),
              Comment("# Sumimg up the history and future :"), Comment("### End cFSMN layer '" + name + "'") ]
  {
    SelectComments(LayerShape(name, input, c));
    HeadComments(name, input, c);
    SinkComments(c);
    ConcatSix(Comment("### Begin cFSMN layer '" + name + "'"), Comment("# the transform matrices:"),
              Comment("# the diagal matrices:"), Comment("# Weighting the history and future :"),
              Comment("# Sumimg up the history and future :"), Comment("### End cFSMN layer '" + name + "'"));
  }

  lemma HeadComments(name: string, input: Descriptor, c: Config)
    ensures Select(Head(name, input, c), IsComment)
         == [Comment("### Begin cFSMN layer '" + name + "'"), Comment("# the transform matrices:"), Comment("# the diagal matrices:")]
  {
    var h := Head(name, input, c);
    assert h == [h[0], h[1]] + [h[2], h[3], h[4]];
    SelectAppend([h[0], h[1]], [h[2], h[3], h[4]], IsComment);
    SelectOne([h[2], h[3], h[4]], 2, IsComment);
  }

  lemma SinkComments(c: Config)
    ensures Select(Sink(c), IsComment) == [Comment("# Weighting the history and future :")]
  {
    SelectOne(Sink(c), |Sink(c)| - 1, IsComment);
  }
}
