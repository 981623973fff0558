/** The skeleton both `generate_fsmn_config` methods emit: a head, the
    per-element-scale components of both sides, a sink block (the no-op
    component and whatever the layer declares before the taps), the taps of
    both sides, the memory sum with the affine node after it, and the
    ReLU/batch-norm tail.  The layer-specific parts are parameters, so the
    facts proved here hold for both layer classes. */
module Layout {
  import opened Decls
  import opened Memory

  /** What a layer class supplies to the common skeleton. */
  datatype Shape = Shape(
    head: seq<Decl>,        // opening comments and the affine components
    kind: Kind,             // the per-element-scale component type
    past: seq<int>,         // lookback offsets
    future: seq<int>,       // lookahead offsets
    sink: seq<Decl>,        // no-op sink, then what precedes the taps
    src: Ref,               // what the taps shift
    dropout: bool,          // whether each tap goes through dropout
    terms: seq<Ref>,        // the terms of the memory sum
    hidden: Decl,           // the affine node `h_t`
    outputDim: int,         // dim of the ReLU and batch-norm
    selfRepairScale: real,
    endComment: string)

  function Offsets(s: Shape, side: Side): seq<int> {
    if side == Lookback then s.past else s.future
  }

  function ScalesOf(s: Shape, side: Side): seq<Decl> {
    Scales(side, Offsets(s, side), s.kind)
  }

  function TapsOf(s: Shape, side: Side): seq<Decl> {
    Taps(side, Offsets(s, side), s.src, s.dropout)
  }

  function SummedOf(s: Shape): seq<Decl> {
    Summing(s.terms, s.hidden)
  }

  function TailOf(s: Shape): seq<Decl> {
    Tail(s.outputDim, s.selfRepairScale, s.endComment)
  }

  /** The declaration list of a layer, block by block. */
  function Assemble(s: Shape): seq<Decl> {
    s.head + ScalesOf(s, Lookback) + ScalesOf(s, Lookahead) + s.sink
    + TapsOf(s, Lookback) + TapsOf(s, Lookahead) + SummedOf(s) + TailOf(s)
  }

  /** A node that applies the dropout component. */
  predicate IsDropoutNode(d: Decl) {
    d.Node? && d.component == Dropout
  }

  ghost predicate NoScaledNodes(ds: seq<Decl>) {
    forall i | 0 <= i < |ds| :: !IsScaledNode(ds[i])
  }

  ghost predicate NoDropoutNodes(ds: seq<Decl>) {
    forall i | 0 <= i < |ds| :: !IsDropoutNode(ds[i])
  }

  /** The layer-specific blocks keep to their rank bands and apply neither a
      scale component nor dropout; `h_t` is a node. */
  ghost predicate Framed(s: Shape) {
    && RanksWithin(s.head, 0, 3) && RanksWithin(s.sink, 5, 8)
    && NoScaledNodes(s.head) && NoScaledNodes(s.sink)
    && NoDropoutNodes(s.head) && NoDropoutNodes(s.sink)
    && s.hidden.Node? && s.hidden.name == Hidden && !IsScaledNode(s.hidden) && !IsDropoutNode(s.hidden)
  }

  type FramedShape = s: Shape | Framed(s)
    witness Shape([], NoOpComponent(0), [], [], [], LayerInput, false, [], Node(Hidden, WAll, Use(LayerInput)), 0, 0.0, "")

  /** `SelectOnly` applied to the blocks of `s`. */
  lemma SelectBlock(s: Shape, p: Decl -> bool, k: nat)
    requires k != 0 ==> Select(s.head, p) == []
    requires k != 1 ==> Select(ScalesOf(s, Lookback), p) == []
    requires k != 2 ==> Select(ScalesOf(s, Lookahead), p) == []
    requires k != 3 ==> Select(s.sink, p) == []
    requires k != 4 ==> Select(TapsOf(s, Lookback), p) == []
    requires k != 5 ==> Select(TapsOf(s, Lookahead), p) == []
    requires k != 6 ==> Select(SummedOf(s), p) == []
    requires k != 7 ==> Select(TailOf(s), p) == []
    ensures Select(Assemble(s), p)
         == if k == 0 then Select(s.head, p) else if k == 1 then Select(ScalesOf(s, Lookback), p)
            else if k == 2 then Select(ScalesOf(s, Lookahead), p) else if k == 3 then Select(s.sink, p)
            else if k == 4 then Select(TapsOf(s, Lookback), p) else if k == 5 then Select(TapsOf(s, Lookahead), p)
            else if k == 6 then Select(SummedOf(s), p) else if k == 7 then Select(TailOf(s), p) else []
  {
    SelectOnly(s.head, ScalesOf(s, Lookback), ScalesOf(s, Lookahead), s.sink,
               TapsOf(s, Lookback), TapsOf(s, Lookahead), SummedOf(s), TailOf(s), p, k);
  }

  /** Each block's declarations lie in its own rank band. */
  lemma BlockRanks(s: FramedShape)
    ensures RanksWithin(ScalesOf(s, Lookback), 3, 4) && RanksWithin(ScalesOf(s, Lookahead), 4, 5)
    ensures RanksWithin(TapsOf(s, Lookback), 8, 9) && RanksWithin(TapsOf(s, Lookahead), 9, 10)
    ensures RanksWithin(SummedOf(s), 10, 12) && RanksWithin(TailOf(s), 12, 16)
  {
    ScalesFacts(Lookback, s.past, s.kind, {}, {});
    ScalesFacts(Lookahead, s.future, s.kind, {}, {});
    TapsRanks(Lookback, s.past, s.src, s.dropout);
    TapsRanks(Lookahead, s.future, s.src, s.dropout);
    SummedTailRanks(s);
  }

  lemma SummedTailRanks(s: Shape)
    requires s.hidden.Node? && s.hidden.name == Hidden
    ensures RanksWithin(SummedOf(s), 10, 12) && RanksWithin(TailOf(s), 12, 16)
  {
    TailUnique(s.outputDim, s.selfRepairScale, s.endComment);
    SummedRanks(s.terms, s.hidden);
  }

  lemma SummedRanks(terms: seq<Ref>, hidden: Decl)
    requires hidden.Node? && hidden.name == Hidden
    ensures RanksWithin(Summing(terms, hidden), 10, 12)
  {
    var ds := Summing(terms, hidden);
    assert forall d | d in ds && !d.Comment? :: d.name == Memory || d.name == Hidden;
  }

  /** Where the sink block starts: after the head and one scale component per offset of each side. */
  function SinkStart(s: Shape): nat {
    |s.head| + |s.past| + |s.future|
  }

  /** One line per head and sink entry, one scale component and one or (with
      dropout) two weighting nodes per offset, the sum, `h_t`, and the tail. */
  lemma AssembleLength(s: Shape)
    ensures |Assemble(s)| == |s.head| + |s.sink| + (if s.dropout then 3 else 2) * (|s.past| + |s.future|) + 8
  {
    assert |TapsOf(s, Lookback)| == (if s.dropout then 2 else 1) * |s.past|;
    assert |TapsOf(s, Lookahead)| == (if s.dropout then 2 else 1) * |s.future|;
  }

  /** The comments of a layer are those of its head and sink, the sum
      comment, and the closing comment; scale and tap blocks hold none. */
  lemma SelectComments(s: FramedShape)
    ensures Select(Assemble(s), IsComment)
         == Select(s.head, IsComment) + Select(s.sink, IsComment)
          + [Comment("# Sumimg up the history and future :"), Comment(s.endComment)]
  {
    NoCommentsInOffsetBlocks(s);
    SummedTailComments(s);
    SelectEight(s.head, ScalesOf(s, Lookback), ScalesOf(s, Lookahead), s.sink,
                TapsOf(s, Lookback), TapsOf(s, Lookahead), SummedOf(s), TailOf(s), IsComment);
  }

  lemma NoCommentsInOffsetBlocks(s: Shape)
    ensures Select(ScalesOf(s, Lookback), IsComment) == [] && Select(ScalesOf(s, Lookahead), IsComment) == []
    ensures Select(TapsOf(s, Lookback), IsComment) == [] && Select(TapsOf(s, Lookahead), IsComment) == []
  {
    SelectNone(ScalesOf(s, Lookback), IsComment);
    SelectNone(ScalesOf(s, Lookahead), IsComment);
    SelectNone(TapsOf(s, Lookback), IsComment);
    SelectNone(TapsOf(s, Lookahead), IsComment);
  }

  lemma SummedTailComments(s: FramedShape)
    ensures Select(SummedOf(s), IsComment) == [Comment("# Sumimg up the history and future :")]
    ensures Select(TailOf(s), IsComment) == [Comment(s.endComment)]
  {
    SelectOne(SummedOf(s), 0, IsComment);
    SelectOne(TailOf(s), 4, IsComment);
  }

  /** The head opens the layer. */
  lemma HeadAt(s: Shape)
    ensures |s.head| <= |Assemble(s)| && Assemble(s)[..|s.head|] == s.head
  {
    var back := ScalesOf(s, Lookback) + ScalesOf(s, Lookahead) + s.sink
              + TapsOf(s, Lookback) + TapsOf(s, Lookahead) + SummedOf(s) + TailOf(s);
    assert Assemble(s) == s.head + back;
  }

  /** Between the head and the sink block lie the scale components,
      history first. */
  lemma ScalesAt(s: Shape)
    ensures |s.head| <= SinkStart(s) <= |Assemble(s)|
    ensures Assemble(s)[|s.head|..SinkStart(s)] == ScalesOf(s, Lookback) + ScalesOf(s, Lookahead)
  {
    var scales := ScalesOf(s, Lookback) + ScalesOf(s, Lookahead);
    var back := s.sink + TapsOf(s, Lookback) + TapsOf(s, Lookahead) + SummedOf(s) + TailOf(s);
    assert Assemble(s) == s.head + scales + back;
  }

  /** Where the weighting block begins: right after the sink block. */
  function TapsStart(s: Shape): nat {
    SinkStart(s) + |s.sink|
  }

  /** The weighting block, history taps first, follows the sink block. */
  lemma TapsAt(s: Shape)
    ensures var m, taps := TapsStart(s), TapsOf(s, Lookback) + TapsOf(s, Lookahead);
      m + |taps| <= |Assemble(s)| && Assemble(s)[m..m + |taps|] == taps
  {
    var front := s.head + ScalesOf(s, Lookback) + ScalesOf(s, Lookahead) + s.sink;
    var taps := TapsOf(s, Lookback) + TapsOf(s, Lookahead);
    assert Assemble(s) == front + taps + (SummedOf(s) + TailOf(s));
  }

  /** A line of the weighting block: a node applying a scale component or
      the dropout component. */
  predicate IsTapLine(d: Decl) {
    IsScaledNode(d) || IsDropoutNode(d)
  }

  /** The weighting block holds every scaled and dropout node, and nothing else does. */
  lemma SelectTapLines(s: FramedShape)
    ensures Select(Assemble(s), IsTapLine) == TapsOf(s, Lookback) + TapsOf(s, Lookahead)
  {
    NoTapLinesAround(s);
    NoTapLinesInScales(s);
    TapsAreTapLines(Lookback, s.past, s.src, s.dropout);
    TapsAreTapLines(Lookahead, s.future, s.src, s.dropout);
    SelectMiddlePair(s.head, ScalesOf(s, Lookback), ScalesOf(s, Lookahead), s.sink,
                     TapsOf(s, Lookback), TapsOf(s, Lookahead), SummedOf(s), TailOf(s), IsTapLine);
  }

  /** The number of lines in the weighting block: one per offset, or two with dropout. */
  function TapCount(s: Shape): nat {
    if s.dropout then 2 * (|s.past| + |s.future|) else |s.past| + |s.future|
  }

  /** The weighting block, one line per offset or two with dropout, holds
      exactly the layer's scaled and dropout nodes. */
  lemma TapLinesAt(s: FramedShape)
    ensures var m, k := TapsStart(s), TapCount(s);
      m + k <= |Assemble(s)| && Assemble(s)[m..m + k] == Select(Assemble(s), IsTapLine)
  {
    TapsAt(s);
    SelectTapLines(s);
  }

  /** Without dropout the weighting block, one line per offset, holds
      exactly the layer's scaled nodes. */
  lemma ScaledTapsAt(s: FramedShape)
    requires !s.dropout
    ensures var m, k := TapsStart(s), |s.past| + |s.future|;
      m + k <= |Assemble(s)| && Assemble(s)[m..m + k] == Select(Assemble(s), IsScaledNode)
  {
    TapsAt(s);
    SelectScaledNodesFromTaps(s);
    SelectAll(TapsOf(s, Lookback), IsScaledNode);
    SelectAll(TapsOf(s, Lookahead), IsScaledNode);
  }

  lemma NoTapLinesAround(s: FramedShape)
    ensures Select(s.head, IsTapLine) == [] && Select(s.sink, IsTapLine) == []
    ensures Select(SummedOf(s), IsTapLine) == [] && Select(TailOf(s), IsTapLine) == []
  {
    SelectNone(s.head, IsTapLine);
    SelectNone(s.sink, IsTapLine);
    SelectNone(SummedOf(s), IsTapLine);
    SelectNone(TailOf(s), IsTapLine);
  }

  lemma NoTapLinesInScales(s: Shape)
    ensures Select(ScalesOf(s, Lookback), IsTapLine) == [] && Select(ScalesOf(s, Lookahead), IsTapLine) == []
  {
    SelectNone(ScalesOf(s, Lookback), IsTapLine);
    SelectNone(ScalesOf(s, Lookahead), IsTapLine);
  }

  lemma TapsAreTapLines(side: Side, offsets: seq<int>, src: Ref, dropout: bool)
    ensures Select(Taps(side, offsets, src, dropout), IsTapLine) == Taps(side, offsets, src, dropout)
  {
    SelectAll(Taps(side, offsets, src, dropout), IsTapLine);
  }

  /** The sink block sits right after the head and the scale components of both sides. */
  lemma SinkAt(s: Shape)
    ensures var n := SinkStart(s);
      n + |s.sink| <= |Assemble(s)| && forall j | n <= j < n + |s.sink| :: Assemble(s)[j] == s.sink[j - n]
  {
    var front := s.head + ScalesOf(s, Lookback) + ScalesOf(s, Lookahead);
    var back := TapsOf(s, Lookback) + TapsOf(s, Lookahead) + SummedOf(s) + TailOf(s);
    assert Assemble(s) == front + s.sink + back;
  }

  /** The blocks other than the one whose band holds `Rank(r)` declare nothing named `r`. */
  lemma NamedOutside(s: FramedShape, r: Role)
    ensures Rank(r) >= 3 ==> Select(s.head, Named(r)) == []
    ensures Rank(r) != 3 ==> Select(ScalesOf(s, Lookback), Named(r)) == []
    ensures Rank(r) != 4 ==> Select(ScalesOf(s, Lookahead), Named(r)) == []
    ensures !(5 <= Rank(r) < 8) ==> Select(s.sink, Named(r)) == []
    ensures Rank(r) != 8 ==> Select(TapsOf(s, Lookback), Named(r)) == []
    ensures Rank(r) != 9 ==> Select(TapsOf(s, Lookahead), Named(r)) == []
    ensures !(10 <= Rank(r) < 12) ==> Select(SummedOf(s), Named(r)) == []
    ensures Rank(r) < 12 ==> Select(TailOf(s), Named(r)) == []
  {
    BlockRanks(s);
    if Rank(r) >= 3 { SelectOutsideRanks(s.head, 0, 3, r); }
    if Rank(r) != 3 { SelectOutsideRanks(ScalesOf(s, Lookback), 3, 4, r); }
    if Rank(r) != 4 { SelectOutsideRanks(ScalesOf(s, Lookahead), 4, 5, r); }
    if !(5 <= Rank(r) < 8) { SelectOutsideRanks(s.sink, 5, 8, r); }
    if Rank(r) != 8 { SelectOutsideRanks(TapsOf(s, Lookback), 8, 9, r); }
    if Rank(r) != 9 { SelectOutsideRanks(TapsOf(s, Lookahead), 9, 10, r); }
    if !(10 <= Rank(r) < 12) { SelectOutsideRanks(SummedOf(s), 10, 12, r); }
    if Rank(r) < 12 { SelectOutsideRanks(TailOf(s), 12, 16, r); }
  }

  /** Declarations named `r` of this rank come from the head alone. */
  lemma SelectNamedHead(s: FramedShape, r: Role)
    requires Rank(r) < 3
    ensures Select(Assemble(s), Named(r)) == Select(s.head, Named(r))
  {
    NamedOutside(s, r);
    SelectBlock(s, Named(r), 0);
  }

  /** Declarations named `r` of this rank come from the sink block alone. */
  lemma SelectNamedSink(s: FramedShape, r: Role)
    requires 5 <= Rank(r) < 8
    ensures Select(Assemble(s), Named(r)) == Select(s.sink, Named(r))
  {
    NamedOutside(s, r);
    SelectBlock(s, Named(r), 3);
  }

  /** Declarations named `r` of this rank come from the lookahead taps alone. */
  lemma SelectNamedFutureTaps(s: FramedShape, r: Role)
    requires Rank(r) == 9
    ensures Select(Assemble(s), Named(r)) == Select(TapsOf(s, Lookahead), Named(r))
  {
    NamedOutside(s, r);
    SelectBlock(s, Named(r), 5);
  }

  /** Declarations named `r` of this rank come from the memory-sum block alone. */
  lemma SelectNamedSummed(s: FramedShape, r: Role)
    requires 10 <= Rank(r) < 12
    ensures Select(Assemble(s), Named(r)) == Select(SummedOf(s), Named(r))
  {
    NamedOutside(s, r);
    SelectBlock(s, Named(r), 6);
  }

  /** Declarations named `r` of this rank come from the tail alone. */
  lemma SelectNamedTail(s: FramedShape, r: Role)
    requires 12 <= Rank(r)
    ensures Select(Assemble(s), Named(r)) == Select(TailOf(s), Named(r))
  {
    NamedOutside(s, r);
    SelectBlock(s, Named(r), 7);
  }

  /** The history scale components are exactly those of their block. */
  lemma SelectPastScales(s: FramedShape)
    ensures Select(Assemble(s), IsPastScale) == ScalesOf(s, Lookback)
  {
    NoScalesOutside(s);
    SelectAll(ScalesOf(s, Lookback), IsPastScale);
    SelectBlock(s, IsPastScale, 1);
  }

  /** The lookahead scale components are exactly those of their block. */
  lemma SelectFutureScales(s: FramedShape)
    ensures Select(Assemble(s), IsFutureScale) == ScalesOf(s, Lookahead)
  {
    NoScalesOutside(s);
    SelectAll(ScalesOf(s, Lookahead), IsFutureScale);
    SelectBlock(s, IsFutureScale, 2);
  }

  lemma NoScalesOutside(s: FramedShape)
    ensures forall p | p == IsPastScale || p == IsFutureScale ::
      && Select(s.head, p) == [] && Select(s.sink, p) == []
      && Select(TapsOf(s, Lookback), p) == [] && Select(TapsOf(s, Lookahead), p) == []
      && Select(SummedOf(s), p) == [] && Select(TailOf(s), p) == []
    ensures Select(ScalesOf(s, Lookahead), IsPastScale) == [] && Select(ScalesOf(s, Lookback), IsFutureScale) == []
  {
    BlockRanks(s);
    forall p | p == IsPastScale || p == IsFutureScale
      ensures && Select(s.head, p) == [] && Select(s.sink, p) == []
              && Select(TapsOf(s, Lookback), p) == [] && Select(TapsOf(s, Lookahead), p) == []
              && Select(SummedOf(s), p) == [] && Select(TailOf(s), p) == []
    {
      ScalesOutsideBand(s.head, 0, 3, p);
      ScalesOutsideBand(s.sink, 5, 8, p);
      ScalesOutsideBand(TapsOf(s, Lookback), 8, 9, p);
      ScalesOutsideBand(TapsOf(s, Lookahead), 9, 10, p);
      ScalesOutsideBand(SummedOf(s), 10, 12, p);
      ScalesOutsideBand(TailOf(s), 12, 16, p);
    }
    SelectScales(Lookahead, s.future, s.kind);
    SelectScales(Lookback, s.past, s.kind);
  }

  lemma ScalesOutsideBand(ds: seq<Decl>, lo: nat, hi: nat, p: Decl -> bool)
    requires RanksWithin(ds, lo, hi) && (hi <= 3 || 5 <= lo)
    requires p == IsPastScale || p == IsFutureScale
    ensures Select(ds, p) == []
  {
    forall i | 0 <= i < |ds| ensures !p(ds[i]) {
      assert ds[i] in ds;
    }
    SelectNone(ds, p);
  }

  // ---- the weighting nodes and the memory sum --------------------------------

  lemma NoScaledNodesOutsideTaps(s: FramedShape)
    ensures Select(s.head, IsScaledNode) == [] && Select(s.sink, IsScaledNode) == []
    ensures Select(ScalesOf(s, Lookback), IsScaledNode) == [] && Select(ScalesOf(s, Lookahead), IsScaledNode) == []
    ensures Select(SummedOf(s), IsScaledNode) == [] && Select(TailOf(s), IsScaledNode) == []
  {
    SelectNone(s.head, IsScaledNode);
    SelectNone(s.sink, IsScaledNode);
    SelectScales(Lookback, s.past, s.kind);
    SelectScales(Lookahead, s.future, s.kind);
    SelectNone(SummedOf(s), IsScaledNode);
    SelectNone(TailOf(s), IsScaledNode);
  }

  lemma SelectScaledNodesFromTaps(s: FramedShape)
    ensures Select(Assemble(s), IsScaledNode) == Select(TapsOf(s, Lookback), IsScaledNode) + Select(TapsOf(s, Lookahead), IsScaledNode)
  {
    NoScaledNodesOutsideTaps(s);
    SelectMiddlePair(s.head, ScalesOf(s, Lookback), ScalesOf(s, Lookahead), s.sink,
                     TapsOf(s, Lookback), TapsOf(s, Lookahead), SummedOf(s), TailOf(s), IsScaledNode);
  }

  /** The nodes applying a scale component are, in order, one per history
      offset and then one per lookahead offset. */
  lemma SelectScaledNodes(s: FramedShape)
    ensures Select(Assemble(s), IsScaledNode)
         == ScaledNodes(Lookback, s.past, s.src, s.dropout) + ScaledNodes(Lookahead, s.future, s.src, s.dropout)
  {
    SelectScaledNodesFromTaps(s);
    SelectTaps(Lookback, s.past, s.src, s.dropout);
    SelectTaps(Lookahead, s.future, s.src, s.dropout);
  }

  /** One `m_t` node sums the terms into the no-op sink. */
  lemma SelectMemory(s: FramedShape)
    ensures Select(Assemble(s), Named(Memory)) == [Node(Memory, NoOp, Sum(s.terms))]
  {
    SelectNamedSummed(s, Memory);
    SummingNamed(s.terms, s.hidden);
  }

  /** One `h_t` node, the one the layer supplies. */
  lemma SelectHidden(s: FramedShape)
    ensures Select(Assemble(s), Named(Hidden)) == [s.hidden]
  {
    SelectNamedSummed(s, Hidden);
    SummingNamed(s.terms, s.hidden);
  }

  /** One `y_t` node, the batch-norm of `relu_t`. */
  lemma SelectOutput(s: FramedShape)
    ensures Select(Assemble(s), Named(Output)) == [Node(Output, BatchNorm, Use(Own(Rectified)))]
  {
    OutputRank();
    SelectNamedTail(s, Output);
    TailNamed(s.outputDim, s.selfRepairScale, s.endComment);
  }

  /** Every layer closes with its tail: `relu`, `relu_t`, `batchnorm`, `y_t`
      and the closing comment. */
  lemma EndsWithTail(s: Shape)
    ensures |Assemble(s)| >= 5 && Assemble(s)[|Assemble(s)| - 5..] == TailOf(s)
  {
    var body := s.head + ScalesOf(s, Lookback) + ScalesOf(s, Lookahead) + s.sink
      + TapsOf(s, Lookback) + TapsOf(s, Lookahead) + SummedOf(s);
    assert Assemble(s) == body + TailOf(s);
  }

  // ---- unique names ----------------------------------------------------------

  /** With duplicate-free offsets on both sides and unique names in the
      layer-specific blocks, the whole list has unique names. */
  lemma Unique(s: FramedShape)
    requires UniqueNames(s.head) && UniqueNames(s.sink)
    requires Distinct(s.past) && Distinct(s.future)
    ensures UniqueNames(Assemble(s))
  {
    BlockRanks(s);
    ScalesUnique(Lookback, s.past, s.kind);
    ScalesUnique(Lookahead, s.future, s.kind);
    TapsUnique(Lookback, s.past, s.src, s.dropout);
    TapsUnique(Lookahead, s.future, s.src, s.dropout);
    SummingUnique(s.terms, s.hidden);
    TailUnique(s.outputDim, s.selfRepairScale, s.endComment);
    var a := s.head;
    UniqueAppend(a, ScalesOf(s, Lookback), 0, 3, 4);
    a := a + ScalesOf(s, Lookback);
    UniqueAppend(a, ScalesOf(s, Lookahead), 0, 4, 5);
    a := a + ScalesOf(s, Lookahead);
    UniqueAppend(a, s.sink, 0, 5, 8);
    a := a + s.sink;
    UniqueAppend(a, TapsOf(s, Lookback), 0, 8, 9);
    a := a + TapsOf(s, Lookback);
    UniqueAppend(a, TapsOf(s, Lookahead), 0, 9, 10);
    a := a + TapsOf(s, Lookahead);
    UniqueAppend(a, SummedOf(s), 0, 10, 12);
    a := a + SummedOf(s);
    UniqueAppend(a, TailOf(s), 0, 12, 16);
  }

  /** Unique names need duplicate-free offsets on both sides: a repeated
      offset repeats a scale component's name. */
  lemma UniqueNeedsDistinct(s: Shape)
    requires UniqueNames(Assemble(s))
    ensures Distinct(s.past) && Distinct(s.future)
  {
    var b0, b1, b2, b3 := s.head, ScalesOf(s, Lookback), ScalesOf(s, Lookahead), s.sink;
    var b4, b5, b6, b7 := TapsOf(s, Lookback), TapsOf(s, Lookahead), SummedOf(s), TailOf(s);
    UniqueParts(b0 + b1 + b2 + b3 + b4 + b5 + b6, b7);
    UniqueParts(b0 + b1 + b2 + b3 + b4 + b5, b6);
    UniqueParts(b0 + b1 + b2 + b3 + b4, b5);
    UniqueParts(b0 + b1 + b2 + b3, b4);
    UniqueParts(b0 + b1 + b2, b3);
    UniqueParts(b0 + b1, b2);
    UniqueParts(b0, b1);
    ScalesDistinct(Lookback, s.past, s.kind);
    ScalesDistinct(Lookahead, s.future, s.kind);
  }

  // ---- define-before-use -----------------------------------------------------

  /** The set of tap names of one side. */
  function TapNames(side: Side, offsets: seq<int>): set<Role> {
    set o | o in offsets :: TapRole(side, o)
  }

  /** What the layer-specific parts must satisfy for every name to be
      defined before it is used. */
  ghost predicate WellWired(s: Shape) {
    FrontWired(s) && SumWired(s)
  }

  /** The head and sink resolve in order, the taps' source and the
      components they apply are declared in the sink, and `h_t` applies a
      head component to `m_t` (and, for vFSMN, the layer input). */
  ghost predicate FrontWired(s: Shape) {
    && ResolvesAfter(s.head, {}, {})
    && ResolvesAfter(s.sink, CompNames(s.head), NodeNames(s.head))
    && (s.src.Own? ==> s.src.role in NodeNames(s.sink))
    && (s.dropout ==> Dropout in CompNames(s.sink))
    && NoOp in CompNames(s.sink)
    && s.hidden.Node? && s.hidden.name == Hidden
    && s.hidden.component in CompNames(s.head) && Reads(s.hidden.input) <= {Memory}
  }

  /** The memory sum reads only the sink's nodes and the declared taps. */
  ghost predicate SumWired(s: Shape) {
    Reads(Sum(s.terms)) <= NodeNames(s.sink) + TapNames(Lookback, s.past) + TapNames(Lookahead, s.future)
  }

  type WiredShape = s: Shape | WellWired(s)
    witness Shape([Component(WAll, NoOpComponent(0))], NoOpComponent(0), [], [], [Component(NoOp, NoOpComponent(0))],
                  LayerInput, false, [], Node(Hidden, WAll, Use(Own(Memory))), 0, 0.0, "")

  /** The sink resolves against the head and both scale blocks. */
  lemma WiredSink(s: WiredShape)
    ensures var b0, b1, b2 := s.head, ScalesOf(s, Lookback), ScalesOf(s, Lookahead);
      ResolvesAfter(s.sink, CompNames(b0 + b1 + b2), NodeNames(b0 + b1 + b2))
  {
    var b0, b1, b2 := s.head, ScalesOf(s, Lookback), ScalesOf(s, Lookahead);
    NamesAppend(b0, b1);
    NamesAppend(b0 + b1, b2);
    ResolvesMono(s.sink, CompNames(b0), NodeNames(b0), CompNames(b0 + b1 + b2), NodeNames(b0 + b1 + b2));
  }

  /** The lookback taps resolve against everything up to the sink. */
  lemma WiredPastTaps(s: WiredShape)
    ensures var b0, b1, b2, b3 := s.head, ScalesOf(s, Lookback), ScalesOf(s, Lookahead), s.sink;
      ResolvesAfter(TapsOf(s, Lookback), CompNames(b0 + b1 + b2 + b3), NodeNames(b0 + b1 + b2 + b3))
  {
    var b0, b1, b2, b3 := s.head, ScalesOf(s, Lookback), ScalesOf(s, Lookahead), s.sink;
    NamesAppend(b0 + b1, b2);
    NamesAppend(b0 + b1 + b2, b3);
    NamesAppend(b0, b1);
    ScalesFacts(Lookback, s.past, s.kind, {}, {});
    TapsResolve(Lookback, s.past, s.src, s.dropout, CompNames(b0 + b1 + b2 + b3), NodeNames(b0 + b1 + b2 + b3));
  }

  /** The lookahead taps resolve against everything up to the lookback taps. */
  lemma WiredFutureTaps(s: WiredShape)
    ensures var b0, b1, b2, b3, b4 := s.head, ScalesOf(s, Lookback), ScalesOf(s, Lookahead), s.sink, TapsOf(s, Lookback);
      ResolvesAfter(TapsOf(s, Lookahead), CompNames(b0 + b1 + b2 + b3 + b4), NodeNames(b0 + b1 + b2 + b3 + b4))
  {
    var b0, b1, b2, b3, b4 := s.head, ScalesOf(s, Lookback), ScalesOf(s, Lookahead), s.sink, TapsOf(s, Lookback);
    NamesAppend(b0 + b1 + b2 + b3, b4);
    NamesAppend(b0 + b1 + b2, b3);
    NamesAppend(b0 + b1, b2);
    ScalesFacts(Lookahead, s.future, s.kind, {}, {});
    TapsResolve(Lookahead, s.future, s.src, s.dropout, CompNames(b0 + b1 + b2 + b3 + b4), NodeNames(b0 + b1 + b2 + b3 + b4));
  }

  /** Every own node the taps and the sink declare, and the components of the
      head and the sink, are declared before the memory sum. */
  lemma DeclaredBeforeSum(s: WiredShape)
    ensures var a := s.head + ScalesOf(s, Lookback) + ScalesOf(s, Lookahead) + s.sink + TapsOf(s, Lookback) + TapsOf(s, Lookahead);
      && CompNames(s.head) + CompNames(s.sink) <= CompNames(a)
      && NodeNames(s.sink) + TapNames(Lookback, s.past) + TapNames(Lookahead, s.future) <= NodeNames(a)
  {
    var b0, b1, b2, b3 := s.head, ScalesOf(s, Lookback), ScalesOf(s, Lookahead), s.sink;
    var b4, b5 := TapsOf(s, Lookback), TapsOf(s, Lookahead);
    NamesAppend(b0 + b1 + b2 + b3 + b4, b5);
    NamesAppend(b0 + b1 + b2 + b3, b4);
    NamesAppend(b0 + b1 + b2, b3);
    NamesAppend(b0 + b1, b2);
    NamesAppend(b0, b1);
    TapsDeclare(Lookback, s.past, s.src, s.dropout);
    TapsDeclare(Lookahead, s.future, s.src, s.dropout);
  }

  /** The memory sum resolves against everything up to the taps. */
  lemma WiredSummed(s: WiredShape)
    ensures var a := s.head + ScalesOf(s, Lookback) + ScalesOf(s, Lookahead) + s.sink + TapsOf(s, Lookback) + TapsOf(s, Lookahead);
      ResolvesAfter(SummedOf(s), CompNames(a), NodeNames(a))
  {
    var a := s.head + ScalesOf(s, Lookback) + ScalesOf(s, Lookahead) + s.sink + TapsOf(s, Lookback) + TapsOf(s, Lookahead);
    DeclaredBeforeSum(s);
    SummingResolve(s.terms, s.hidden, CompNames(a), NodeNames(a));
  }

  /** The tail resolves against everything before it. */
  lemma WiredTail(s: WiredShape)
    ensures var a := s.head + ScalesOf(s, Lookback) + ScalesOf(s, Lookahead) + s.sink + TapsOf(s, Lookback) + TapsOf(s, Lookahead) + SummedOf(s);
      ResolvesAfter(TailOf(s), CompNames(a), NodeNames(a))
  {
    var a := s.head + ScalesOf(s, Lookback) + ScalesOf(s, Lookahead) + s.sink + TapsOf(s, Lookback) + TapsOf(s, Lookahead);
    NamesAppend(a, SummedOf(s));
    SummingNames(s.terms, s.hidden);
    TailResolve(s.outputDim, s.selfRepairScale, s.endComment, CompNames(a + SummedOf(s)), NodeNames(a + SummedOf(s)));
  }

  /** Well-wired layer-specific parts make the whole list define every name before use. */
  lemma Defined(s: WiredShape)
    ensures DefinedBeforeUse(Assemble(s))
  {
    var b0, b1, b2 := s.head, ScalesOf(s, Lookback), ScalesOf(s, Lookahead);
    ScalesFacts(Lookback, s.past, s.kind, CompNames(b0), NodeNames(b0));
    ScalesFacts(Lookahead, s.future, s.kind, CompNames(b0 + b1), NodeNames(b0 + b1));
    WiredSink(s);
    WiredPastTaps(s);
    WiredFutureTaps(s);
    WiredSummed(s);
    WiredTail(s);
    ResolvesEight(b0, b1, b2, s.sink, TapsOf(s, Lookback), TapsOf(s, Lookahead), SummedOf(s), TailOf(s));
  }

  /** When every name is defined before use, each own node the memory sum
      reads is declared. */
  lemma SumReadsDeclared(s: Shape)
    requires DefinedBeforeUse(Assemble(s))
    ensures Reads(Sum(s.terms)) <= NodeNames(Assemble(s))
  {
    var a := s.head + ScalesOf(s, Lookback) + ScalesOf(s, Lookahead) + s.sink + TapsOf(s, Lookback) + TapsOf(s, Lookahead);
    assert Assemble(s)[|a| + 1] == SummedOf(s)[1];
    ReadsDeclared(Assemble(s), |a| + 1);
  }

  lemma OutputRank()
    ensures Rank(Output) == 15
  {
  }

  lemma FutureRank(x: int)
    ensures Rank(Future(x)) == 9
  {
  }

  /** A declaration named `f_t_<x>` lies in the lookahead taps block. */
  lemma InFutureTaps(s: FramedShape, d: Decl, x: int)
    requires d in Assemble(s) && Named(Future(x))(d)
    ensures d in TapsOf(s, Lookahead)
  {
    FutureRank(x);
    SelectNamedFutureTaps(s, Future(x));
    SelectTransfer(Assemble(s), TapsOf(s, Lookahead), Named(Future(x)), d);
  }

  /** A lookahead tap named `f_t_<x>` is declared only when `x` is a lookahead offset. */
  lemma FutureDeclared(s: FramedShape, x: int)
    requires Future(x) in NodeNames(Assemble(s))
    ensures x in s.future
  {
    var d :| d in Assemble(s) && d.Node? && d.name == Future(x);
    InFutureTaps(s, d, x);
    TapsNames(Lookahead, s.future, s.src, s.dropout, d);
  }

  /** A list that defines every name before use declares each lookahead tap
      the memory sum reads. */
  lemma SumNeedsFuture(s: FramedShape, x: int)
    requires Future(x) in Reads(Sum(s.terms))
    ensures DefinedBeforeUse(Assemble(s)) ==> x in s.future
  {
    if DefinedBeforeUse(Assemble(s)) {
      SumReadsDeclared(s);
      FutureDeclared(s, x);
    }
  }

  // ---- dropout ---------------------------------------------------------------

  /** `cur` applies dropout to the output of `prev`, which applies a scale
      component: `prev` is the `_pre` node of offset `o` scaled by that
      offset's component, and `cur` is the tap of the same side and offset. */
  predicate DropsScaled(prev: Decl, cur: Decl) {
    && IsScaledNode(prev) && cur.Node? && cur.input == Use(Own(prev.name))
    && match prev.name
       case PastPre(o) => prev.component == UHist(o) && cur.name == Past(o)
       case FuturePre(o) => prev.component == UAhead(o) && cur.name == Future(o)
       case _ => false
  }

  lemma TapsPaired(side: Side, offsets: seq<int>, src: Ref, dropout: bool)
    ensures Paired(Taps(side, offsets, src, dropout), IsDropoutNode, DropsScaled)
  {
    var ds := Taps(side, offsets, src, dropout);
    if dropout {
      forall i | 0 <= i < |ds| && IsDropoutNode(ds[i]) ensures i >= 1 && DropsScaled(ds[i - 1], ds[i]) {
        assert i % 2 == 1 && (i - 1) / 2 == i / 2;
      }
    }
  }

  /** Every dropout node directly follows the scaled node it reads. */
  lemma DropoutFollowsScaled(s: FramedShape)
    ensures Paired(Assemble(s), IsDropoutNode, DropsScaled)
  {
    var b0, b1, b2, b3 := s.head, ScalesOf(s, Lookback), ScalesOf(s, Lookahead), s.sink;
    var b4, b5, b6, b7 := TapsOf(s, Lookback), TapsOf(s, Lookahead), SummedOf(s), TailOf(s);
    TapsPaired(Lookback, s.past, s.src, s.dropout);
    TapsPaired(Lookahead, s.future, s.src, s.dropout);
    assert Paired(b6, IsDropoutNode, DropsScaled) && Paired(b7, IsDropoutNode, DropsScaled);
    PairedAppend(b0, b1, IsDropoutNode, DropsScaled);
    PairedAppend(b0 + b1, b2, IsDropoutNode, DropsScaled);
    PairedAppend(b0 + b1 + b2, b3, IsDropoutNode, DropsScaled);
    PairedAppend(b0 + b1 + b2 + b3, b4, IsDropoutNode, DropsScaled);
    PairedAppend(b0 + b1 + b2 + b3 + b4, b5, IsDropoutNode, DropsScaled);
    PairedAppend(b0 + b1 + b2 + b3 + b4 + b5, b6, IsDropoutNode, DropsScaled);
    PairedAppend(b0 + b1 + b2 + b3 + b4 + b5 + b6, b7, IsDropoutNode, DropsScaled);
  }

  /** The dropout nodes of taps built with dropout are exactly the taps,
      each reading its own `_pre` node. */
  lemma {:induction false} SelectDropTaps(side: Side, offsets: seq<int>, src: Ref)
    ensures Select(Taps(side, offsets, src, true), IsDropoutNode) == DropTaps(side, offsets)
  {
    if offsets != [] {
      var expected := DropTaps(side, offsets);
      SelectDropTapsStep(side, offsets, src);
      SelectDropTaps(side, offsets[1..], src);
      assert expected == [expected[0]] + DropTaps(side, offsets[1..]);
    }
  }

  /** The first offset's taps contribute their dropout node only. */
  lemma SelectDropTapsStep(side: Side, offsets: seq<int>, src: Ref)
    requires offsets != []
    ensures Select(Taps(side, offsets, src, true), IsDropoutNode)
         == [DropTaps(side, offsets)[0]] + Select(Taps(side, offsets[1..], src, true), IsDropoutNode)
  {
    var rest := Taps(side, offsets[1..], src, true);
    var first := ScaledNode(side, offsets[0], src, true);
    var second := Node(TapRole(side, offsets[0]), Dropout, Use(Own(PreRole(side, offsets[0]))));
    TapsCons(side, offsets, src, true);
    SelectAppend([first, second], rest, IsDropoutNode);
    SelectAppend([first], [second], IsDropoutNode);
    assert [first, second] == [first] + [second];
  }

  /** With dropout on, the nodes applying dropout are exactly the taps, in
      order: one `h_t_<o>` per history offset, then one `f_t_<o>` per
      lookahead offset, each reading its own `_pre` node; with it off there
      are none. */
  lemma DropoutNodes(s: FramedShape)
    ensures Select(Assemble(s), IsDropoutNode)
         == if s.dropout then DropTaps(Lookback, s.past) + DropTaps(Lookahead, s.future) else []
  {
    if s.dropout {
      DropoutNodesOnlyInTaps(s);
      SelectDropTaps(Lookback, s.past, s.src);
      SelectDropTaps(Lookahead, s.future, s.src);
      SelectMiddlePair(s.head, ScalesOf(s, Lookback), ScalesOf(s, Lookahead), s.sink,
                       TapsOf(s, Lookback), TapsOf(s, Lookahead), SummedOf(s), TailOf(s), IsDropoutNode);
    } else {
      NoDropoutWithoutDropout(s);
    }
  }

  lemma DropoutNodesOnlyInTaps(s: FramedShape)
    ensures Select(s.head, IsDropoutNode) == [] && Select(s.sink, IsDropoutNode) == []
    ensures Select(ScalesOf(s, Lookback), IsDropoutNode) == [] && Select(ScalesOf(s, Lookahead), IsDropoutNode) == []
    ensures Select(SummedOf(s), IsDropoutNode) == [] && Select(TailOf(s), IsDropoutNode) == []
  {
    SelectNone(s.head, IsDropoutNode);
    SelectNone(ScalesOf(s, Lookback), IsDropoutNode);
    SelectNone(ScalesOf(s, Lookahead), IsDropoutNode);
    SelectNone(s.sink, IsDropoutNode);
    SelectNone(SummedOf(s), IsDropoutNode);
    SelectNone(TailOf(s), IsDropoutNode);
  }

  /** Taps built without dropout hold no dropout node. */
  lemma TapsWithoutDropout(side: Side, offsets: seq<int>, src: Ref)
    ensures Select(Taps(side, offsets, src, false), IsDropoutNode) == []
  {
    SelectNone(Taps(side, offsets, src, false), IsDropoutNode);
  }

  /** Without dropout no node applies the dropout component. */
  lemma NoDropoutWithoutDropout(s: FramedShape)
    requires !s.dropout
    ensures Select(Assemble(s), IsDropoutNode) == []
  {
    DropoutNodesOnlyInTaps(s);
    TapsWithoutDropout(Lookback, s.past, s.src);
    TapsWithoutDropout(Lookahead, s.future, s.src);
    SelectEight(s.head, ScalesOf(s, Lookback), ScalesOf(s, Lookahead), s.sink,
                TapsOf(s, Lookback), TapsOf(s, Lookahead), SummedOf(s), TailOf(s), IsDropoutNode);
  }
}
