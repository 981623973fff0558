/** The FSMN memory block both layer classes unroll: the lookback and
    lookahead offsets, the per-element-scale components, the weighting
    ("tap") nodes, the terms of the memory sum and the ReLU/batch-norm tail,
    each with the facts the layer proofs assemble. */
module Memory {
  import opened Decls

  /** Python's `range(lo, hi)`: empty unless `lo < hi`. */
  function Range(lo: int, hi: int): (r: seq<int>)
    ensures |r| == if lo < hi then hi - lo else 0
    ensures forall i | 0 <= i < |r| :: r[i] == lo + i
    decreases hi - lo
  {
    if lo < hi then [lo] + Range(lo + 1, hi) else []
  }

  function Scaled(ks: seq<int>, stride: int): seq<int> {
    seq(|ks|, i requires 0 <= i < |ks| => ks[i] * stride)
  }

  /** Offsets of the lookback taps: `h * stride` for `h` in `range(0, lookback + 1)`. */
  function PastOffsets(lookback: int, stride: int): (r: seq<int>)
    ensures |r| == if lookback >= 0 then lookback + 1 else 0
    ensures forall i | 0 <= i < |r| :: r[i] == i * stride
  {
    Scaled(Range(0, lookback + 1), stride)
  }

  /** Offsets of the lookahead taps: `k * stride` for `k` in `range(1, lookahead + 1)`. */
  function FutureOffsets(lookahead: int, stride: int): (r: seq<int>)
    ensures |r| == if lookahead >= 1 then lookahead else 0
    ensures forall i | 0 <= i < |r| :: r[i] == (i + 1) * stride
  {
    Scaled(Range(1, lookahead + 1), stride)
  }

  /** Offsets of the lookahead terms of the memory sum: `k * stride` for `k`
      in `range(1, lookahead)`, then always `lookahead * stride`. */
  function SumFutureOffsets(lookahead: int, stride: int): (r: seq<int>)
    ensures |r| >= 1 && r[|r| - 1] == lookahead * stride
  {
    Scaled(Range(1, lookahead), stride) + [lookahead * stride]
  }

  /** With at least one lookahead frame the sum reads exactly the declared
      lookahead taps; otherwise it reads the one offset `lookahead * stride`
      although no lookahead tap is declared. */
  lemma SumFutureOffsetsMatch(lookahead: int, stride: int)
    ensures lookahead >= 1 ==> SumFutureOffsets(lookahead, stride) == FutureOffsets(lookahead, stride)
    ensures lookahead <= 0 ==> SumFutureOffsets(lookahead, stride) == [lookahead * stride]
                               && FutureOffsets(lookahead, stride) == []
  {
    if lookahead <= 0 {
      assert Scaled(Range(1, lookahead), stride) == [];
    }
  }

  ghost predicate Distinct(xs: seq<int>) {
    forall i, j | 0 <= i < j < |xs| :: xs[i] != xs[j]
  }

  ghost predicate Ascending(xs: seq<int>) {
    forall i, j | 0 <= i < j < |xs| :: xs[i] < xs[j]
  }

  lemma MulStrict(a: int, b: int, stride: int)
    requires a < b && stride >= 1
    ensures a * stride < b * stride
  {
    assert b * stride - a * stride == (b - a) * stride;
  }

  lemma MulCancel(a: int, b: int, stride: int)
    requires a != b && stride != 0
    ensures a * stride != b * stride
  {
    assert b * stride - a * stride == (b - a) * stride;
    if stride < 0 {
      assert (b - a) * stride == -((b - a) * -stride);
    }
  }

  /** A nonzero stride gives pairwise distinct offsets; a positive one gives
      ascending offsets. */
  lemma OffsetsDistinct(lookback: int, lookahead: int, stride: int)
    ensures stride != 0 ==> Distinct(PastOffsets(lookback, stride)) && Distinct(FutureOffsets(lookahead, stride))
    ensures stride >= 1 ==> Ascending(PastOffsets(lookback, stride)) && Ascending(FutureOffsets(lookahead, stride))
  {
    var past, future := PastOffsets(lookback, stride), FutureOffsets(lookahead, stride);
    if stride != 0 {
      forall i, j | 0 <= i < j < |past| ensures past[i] != past[j] {
        MulCancel(i, j, stride);
      }
      forall i, j | 0 <= i < j < |future| ensures future[i] != future[j] {
        MulCancel(i + 1, j + 1, stride);
      }
    }
    if stride >= 1 {
      forall i, j | 0 <= i < j < |past| ensures past[i] < past[j] {
        MulStrict(i, j, stride);
      }
      forall i, j | 0 <= i < j < |future| ensures future[i] < future[j] {
        MulStrict(i + 1, j + 1, stride);
      }
    }
  }

  /** The history offsets repeat exactly when the stride is zero and there
      are at least two of them. */
  lemma PastDistinct(lookback: int, stride: int)
    ensures Distinct(PastOffsets(lookback, stride)) <==> stride != 0 || lookback <= 0
  {
    OffsetsDistinct(lookback, 0, stride);
    if stride == 0 && lookback >= 1 {
      var past := PastOffsets(lookback, stride);
      assert past[0] == past[1];
    }
  }

  /** The lookahead offsets repeat exactly when the stride is zero and there
      are at least two of them. */
  lemma FutureDistinct(lookahead: int, stride: int)
    ensures Distinct(FutureOffsets(lookahead, stride)) <==> stride != 0 || lookahead <= 1
  {
    OffsetsDistinct(0, lookahead, stride);
    if stride == 0 && lookahead >= 2 {
      var future := FutureOffsets(lookahead, stride);
      assert future[0] == future[1];
    }
  }

  /** The two sides of the memory window. */
  datatype Side = Lookback | Lookahead

  /** `U_h_<o>` or `U_f_<o>`. */
  function ScaleRole(side: Side, o: int): Role {
    if side == Lookback then UHist(o) else UAhead(o)
  }

  /** `h_t_<o>` or `f_t_<o>`. */
  function TapRole(side: Side, o: int): Role {
    if side == Lookback then Past(o) else Future(o)
  }

  /** `h_t_<o>_pre` or `f_t_<o>_pre`. */
  function PreRole(side: Side, o: int): Role {
    if side == Lookback then PastPre(o) else FuturePre(o)
  }

  /** `Offset(src, -<o>)` looking back, `Offset(src, <o>)` looking ahead. */
  function Shift(side: Side, src: Ref, o: int): Expr {
    if side == Lookback then NegOffset(src, o) else Offset(src, o)
  }

  /** One per-element-scale component per offset, in offset order. */
  function Scales(side: Side, offsets: seq<int>, kind: Kind): seq<Decl> {
    seq(|offsets|, i requires 0 <= i < |offsets| => Component(ScaleRole(side, offsets[i]), kind))
  }

  /** One weighting node per offset, in offset order.  Without dropout the
      tap applies the scale component to the shifted source; with dropout a
      `_pre` node does that and the tap applies dropout to it right after. */
  function Taps(side: Side, offsets: seq<int>, src: Ref, dropout: bool): seq<Decl> {
    if dropout then
      seq(2 * |offsets|, j requires 0 <= j < 2 * |offsets| =>
        var o := offsets[j / 2];
        if j % 2 == 0 then Node(PreRole(side, o), ScaleRole(side, o), Shift(side, src, o))
        else Node(TapRole(side, o), Dropout, Use(Own(PreRole(side, o)))))
    else
      seq(|offsets|, i requires 0 <= i < |offsets| =>
        Node(TapRole(side, offsets[i]), ScaleRole(side, offsets[i]), Shift(side, src, offsets[i])))
  }

  /** The memory sum node `m_t` into the no-op sink, then the affine node `h_t`. */
  function Summing(terms: seq<Ref>, hidden: Decl): seq<Decl> {
    [ Comment("# Sumimg up the history and future :"),
      Node(Memory, NoOp, Sum(terms)),
      hidden ]
  }

  /** References to the taps of one side at `offsets`, in order. */
  function TapRefs(side: Side, offsets: seq<int>): seq<Ref> {
    seq(|offsets|, i requires 0 <= i < |offsets| => Own(TapRole(side, offsets[i])))
  }

  /** The terms of the memory sum: `lead`, then the lookback taps, then the
      lookahead taps named by `sumFuture`. */
  function SumTerms(lead: seq<Ref>, past: seq<int>, sumFuture: seq<int>): seq<Ref> {
    lead + TapRefs(Lookback, past) + TapRefs(Lookahead, sumFuture)
  }

  /** ReLU on `h_t`, batch-norm to `y_t`, then the closing comment. */
  function Tail(outputDim: int, selfRepairScale: real, endComment: string): seq<Decl> {
    [ Component(Relu, RectifiedLinearComponent(outputDim, selfRepairScale)),
      Node(Rectified, Relu, Use(Own(Hidden))),
      Component(BatchNorm, BatchNormComponent(outputDim)),
      Node(Output, BatchNorm, Use(Own(Rectified))),
      Comment(endComment) ]
  }

  predicate IsPastScale(d: Decl) {
    d.Component? && d.name.UHist?
  }

  predicate IsFutureScale(d: Decl) {
    d.Component? && d.name.UAhead?
  }

  /** The per-element-scale components of one side. */
  function ScaleFilter(side: Side): Decl -> bool {
    if side == Lookback then IsPastScale else IsFutureScale
  }

  function Other(side: Side): Side {
    if side == Lookback then Lookahead else Lookback
  }

  /** Nodes that apply a per-element-scale component (the taps, or their
      `_pre` nodes when dropout is on). */
  predicate IsScaledNode(d: Decl) {
    d.Node? && (d.component.UHist? || d.component.UAhead?)
  }

  /** The node that applies the scale component at offset `o`: the tap
      itself, or its `_pre` node when dropout is on. */
  function ScaledNode(side: Side, o: int, src: Ref, dropout: bool): Decl {
    Node(if dropout then PreRole(side, o) else TapRole(side, o), ScaleRole(side, o), Shift(side, src, o))
  }

  lemma TapsCons(side: Side, offsets: seq<int>, src: Ref, dropout: bool)
    requires offsets != []
    ensures Taps(side, offsets, src, dropout)
      == (if dropout then [ScaledNode(side, offsets[0], src, true), Node(TapRole(side, offsets[0]), Dropout, Use(Own(PreRole(side, offsets[0]))))]
          else [ScaledNode(side, offsets[0], src, false)])
         + Taps(side, offsets[1..], src, dropout)
  {
    var ds := Taps(side, offsets, src, dropout);
    var rest := Taps(side, offsets[1..], src, dropout);
    if dropout {
      forall j | 0 <= j < |rest| ensures rest[j] == ds[j + 2] {
        assert (j + 2) / 2 == j / 2 + 1 && (j + 2) % 2 == j % 2;
      }
    }
  }

  /** The scaled nodes of one side, one per offset in offset order. */
  function ScaledNodes(side: Side, offsets: seq<int>, src: Ref, dropout: bool): seq<Decl> {
    seq(|offsets|, i requires 0 <= i < |offsets| => ScaledNode(side, offsets[i], src, dropout))
  }

  /** The taps of one side as dropout writes them: `h_t_<o>` / `f_t_<o>`
      applies the dropout component to its own `_pre` node, one per offset
      in offset order. */
  function DropTaps(side: Side, offsets: seq<int>): seq<Decl> {
    seq(|offsets|, i requires 0 <= i < |offsets| =>
      Node(TapRole(side, offsets[i]), Dropout, Use(Own(PreRole(side, offsets[i])))))
  }

  lemma {:induction false} SelectTaps(side: Side, offsets: seq<int>, src: Ref, dropout: bool)
    ensures Select(Taps(side, offsets, src, dropout), IsScaledNode) == ScaledNodes(side, offsets, src, dropout)
  {
    var expected := ScaledNodes(side, offsets, src, dropout);
    if offsets != [] {
      var rest := Taps(side, offsets[1..], src, dropout);
      var first := ScaledNode(side, offsets[0], src, dropout);
      TapsCons(side, offsets, src, dropout);
      SelectTaps(side, offsets[1..], src, dropout);
      assert expected[1..] == ScaledNodes(side, offsets[1..], src, dropout);
      if dropout {
        var second := Node(TapRole(side, offsets[0]), Dropout, Use(Own(PreRole(side, offsets[0]))));
        SelectAppend([first, second], rest, IsScaledNode);
        SelectAppend([first], [second], IsScaledNode);
        assert [first, second] == [first] + [second];
      } else {
        SelectAppend([first], rest, IsScaledNode);
      }
      assert expected == [first] + expected[1..];
    }
  }

  lemma SelectScales(side: Side, offsets: seq<int>, kind: Kind)
    ensures Select(Scales(side, offsets, kind), ScaleFilter(side)) == Scales(side, offsets, kind)
    ensures Select(Scales(side, offsets, kind), ScaleFilter(Other(side))) == []
    ensures Select(Scales(side, offsets, kind), IsScaledNode) == []
  {
    SelectAll(Scales(side, offsets, kind), ScaleFilter(side));
    SelectNone(Scales(side, offsets, kind), ScaleFilter(Other(side)));
    SelectNone(Scales(side, offsets, kind), IsScaledNode);
  }

  function ScaleRank(side: Side): nat {
    if side == Lookback then 3 else 4
  }

  function TapRank(side: Side): nat {
    if side == Lookback then 8 else 9
  }

  lemma ScalesFacts(side: Side, offsets: seq<int>, kind: Kind, comps: set<Role>, nodes: set<Role>)
    ensures ResolvesAfter(Scales(side, offsets, kind), comps, nodes)
    ensures NodeNames(Scales(side, offsets, kind)) == {}
    ensures forall o | o in offsets :: ScaleRole(side, o) in CompNames(Scales(side, offsets, kind))
    ensures RanksWithin(Scales(side, offsets, kind), ScaleRank(side), ScaleRank(side) + 1)
  {
    var ds := Scales(side, offsets, kind);
    forall o | o in offsets ensures ScaleRole(side, o) in CompNames(ds) {
      var i :| 0 <= i < |offsets| && offsets[i] == o;
      assert ds[i] in ds;
    }
  }

  lemma ScalesUnique(side: Side, offsets: seq<int>, kind: Kind)
    requires Distinct(offsets)
    ensures UniqueNames(Scales(side, offsets, kind))
  {
  }

  lemma ScalesDistinct(side: Side, offsets: seq<int>, kind: Kind)
    requires UniqueNames(Scales(side, offsets, kind))
    ensures Distinct(offsets)
  {
    var ds := Scales(side, offsets, kind);
    forall i, j | 0 <= i < j < |offsets| ensures offsets[i] != offsets[j] {
      assert ds[i].name != ds[j].name;
    }
  }

  /** Taps resolve once their scale components, the dropout component (if
      used) and their source node are declared. */
  lemma TapsResolve(side: Side, offsets: seq<int>, src: Ref, dropout: bool, comps: set<Role>, nodes: set<Role>)
    requires forall o | o in offsets :: ScaleRole(side, o) in comps
    requires dropout ==> Dropout in comps
    requires src.Own? ==> src.role in nodes
    ensures ResolvesAfter(Taps(side, offsets, src, dropout), comps, nodes)
  {
    var ds := Taps(side, offsets, src, dropout);
    forall i | 0 <= i < |ds|
      ensures Resolves(ds[i], comps + CompNames(ds[..i]), nodes + NodeNames(ds[..i]))
    {
      if dropout && i % 2 == 1 {
        assert ds[i - 1] in ds[..i];
        assert PreRole(side, offsets[i / 2]) in NodeNames(ds[..i]);
      } else {
        assert offsets[if dropout then i / 2 else i] in offsets;
      }
    }
  }

  /** Taps declare no component and one tap node per offset. */
  lemma TapsDeclare(side: Side, offsets: seq<int>, src: Ref, dropout: bool)
    ensures CompNames(Taps(side, offsets, src, dropout)) == {}
    ensures forall o | o in offsets :: TapRole(side, o) in NodeNames(Taps(side, offsets, src, dropout))
  {
    var ds := Taps(side, offsets, src, dropout);
    forall o | o in offsets ensures TapRole(side, o) in NodeNames(ds) {
      var k :| 0 <= k < |offsets| && offsets[k] == o;
      var i := if dropout then 2 * k + 1 else k;
      assert ds[i] in ds;
    }
  }

  lemma TapsRanks(side: Side, offsets: seq<int>, src: Ref, dropout: bool)
    ensures RanksWithin(Taps(side, offsets, src, dropout), TapRank(side), TapRank(side) + 1)
  {
  }

  lemma TapsUnique(side: Side, offsets: seq<int>, src: Ref, dropout: bool)
    requires Distinct(offsets)
    ensures UniqueNames(Taps(side, offsets, src, dropout))
  {
    var ds := Taps(side, offsets, src, dropout);
    if dropout {
      forall i, j | 0 <= i < j < |ds| ensures ds[i].name != ds[j].name {
        if i / 2 == j / 2 {
          assert i % 2 == 0 && j % 2 == 1;
        } else {
          assert offsets[i / 2] != offsets[j / 2];
        }
      }
    }
  }

  /** The own nodes the memory sum reads. */
  lemma SumTermsReads(lead: seq<Ref>, past: seq<int>, sumFuture: seq<int>, nodes: set<Role>)
    requires forall r | r in lead && r.Own? :: r.role in nodes
    requires forall o | o in past :: Past(o) in nodes
    requires forall o | o in sumFuture :: Future(o) in nodes
    ensures Reads(Sum(SumTerms(lead, past, sumFuture))) <= nodes
  {
  }

  /** The tail resolves once `h_t` is declared. */
  lemma TailResolve(outputDim: int, selfRepairScale: real, endComment: string, comps: set<Role>, nodes: set<Role>)
    requires Hidden in nodes
    ensures ResolvesAfter(Tail(outputDim, selfRepairScale, endComment), comps, nodes)
  {
    var ds := Tail(outputDim, selfRepairScale, endComment);
    TailPrefixes(outputDim, selfRepairScale, endComment);
    forall i | 0 <= i < |ds|
      ensures Resolves(ds[i], comps + CompNames(ds[..i]), nodes + NodeNames(ds[..i]))
    {
    }
  }

  lemma TailUnique(outputDim: int, selfRepairScale: real, endComment: string)
    ensures UniqueNames(Tail(outputDim, selfRepairScale, endComment))
    ensures RanksWithin(Tail(outputDim, selfRepairScale, endComment), 12, 16)
  {
    var ds := Tail(outputDim, selfRepairScale, endComment);
    forall i, j | 0 <= i < j < |ds| && !ds[i].Comment? && !ds[j].Comment? ensures ds[i].name != ds[j].name {
      assert Rank(ds[i].name) == 12 + i && Rank(ds[j].name) == 12 + j;
    }
    forall d | d in ds && !d.Comment? ensures 12 <= Rank(d.name) < 16 {
    }
  }

  lemma TailPrefixes(outputDim: int, selfRepairScale: real, endComment: string)
    ensures var ds := Tail(outputDim, selfRepairScale, endComment);
      && CompNames(ds[..0]) == {} && NodeNames(ds[..0]) == {}
      && CompNames(ds[..1]) == {Relu} && NodeNames(ds[..1]) == {}
      && CompNames(ds[..2]) == {Relu} && NodeNames(ds[..2]) == {Rectified}
      && CompNames(ds[..3]) == {Relu, BatchNorm} && NodeNames(ds[..3]) == {Rectified}
      && CompNames(ds[..4]) == {Relu, BatchNorm} && NodeNames(ds[..4]) == {Rectified, Output}
  {
    var ds := Tail(outputDim, selfRepairScale, endComment);
    assert ds[..1] == [ds[0]];
    assert ds[..2] == [ds[0], ds[1]];
    assert ds[..3] == [ds[0], ds[1], ds[2]];
    assert ds[..4] == [ds[0], ds[1], ds[2], ds[3]];
  }

  /** The memory-sum block declares `m_t` once, then `h_t` once. */
  lemma SummingNamed(terms: seq<Ref>, hidden: Decl)
    requires hidden.Node? && hidden.name == Hidden
    ensures Select(Summing(terms, hidden), Named(Memory)) == [Node(Memory, NoOp, Sum(terms))]
    ensures Select(Summing(terms, hidden), Named(Hidden)) == [hidden]
  {
    SelectOne(Summing(terms, hidden), 1, Named(Memory));
    SelectOne(Summing(terms, hidden), 2, Named(Hidden));
  }

  /** The tail declares `y_t` once, as the batch-norm of `relu_t`. */
  lemma TailNamed(outputDim: int, selfRepairScale: real, endComment: string)
    ensures Select(Tail(outputDim, selfRepairScale, endComment), Named(Output)) == [Node(Output, BatchNorm, Use(Own(Rectified)))]
  {
    SelectOne(Tail(outputDim, selfRepairScale, endComment), 3, Named(Output));
  }

  /** Every declaration of a taps block carries the tap or `_pre` role of one of its offsets. */
  lemma TapsNames(side: Side, offsets: seq<int>, src: Ref, dropout: bool, d: Decl)
    requires d in Taps(side, offsets, src, dropout)
    ensures d.Node? && exists o | o in offsets :: d.name == TapRole(side, o) || d.name == PreRole(side, o)
  {
    var ds := Taps(side, offsets, src, dropout);
    var j :| 0 <= j < |ds| && ds[j] == d;
    var o := offsets[if dropout then j / 2 else j];
    assert d.name == TapRole(side, o) || d.name == PreRole(side, o);
  }

  lemma SummingUnique(terms: seq<Ref>, hidden: Decl)
    requires hidden.Node? && hidden.name == Hidden
    ensures UniqueNames(Summing(terms, hidden))
  {
  }

  /** The memory-sum block declares the nodes `m_t` and `h_t` and no component. */
  lemma SummingNames(terms: seq<Ref>, hidden: Decl)
    requires hidden.Node? && hidden.name == Hidden
    ensures NodeNames(Summing(terms, hidden)) == {Memory, Hidden}
    ensures CompNames(Summing(terms, hidden)) == {}
  {
    var ds := Summing(terms, hidden);
    assert ds[1] in ds && ds[2] in ds;
  }

  /** The memory sum resolves once the no-op sink and every summed node are
      declared; `h_t` may read `m_t` besides. */
  lemma SummingResolve(terms: seq<Ref>, hidden: Decl, comps: set<Role>, nodes: set<Role>)
    requires NoOp in comps && Reads(Sum(terms)) <= nodes
    requires hidden.Node? && hidden.name == Hidden && hidden.component in comps
    requires Reads(hidden.input) <= nodes + {Memory}
    ensures ResolvesAfter(Summing(terms, hidden), comps, nodes)
  {
    var ds := Summing(terms, hidden);
    assert ds[..2] == [ds[0], ds[1]];
    assert NodeNames(ds[..2]) == {Memory};
    assert ds[..1] == [ds[0]];
    assert NodeNames(ds[..1]) == {} && CompNames(ds[..1]) == {};
    forall i | 0 <= i < |ds|
      ensures Resolves(ds[i], comps + CompNames(ds[..i]), nodes + NodeNames(ds[..i]))
    {
    }
  }

  // ---- each sum term once ----------------------------------------------------

  /** The offsets of the memory sum's lookahead terms repeat exactly when the
      stride is zero and there are two or more of them. */
  lemma SumFutureDistinct(lookahead: int, stride: int)
    ensures Distinct(SumFutureOffsets(lookahead, stride)) <==> stride != 0 || lookahead <= 1
  {
    SumFutureOffsetsMatch(lookahead, stride);
    if lookahead >= 1 {
      FutureDistinct(lookahead, stride);
    }
  }

  ghost predicate DistinctRefs(ts: seq<Ref>) {
    forall i, j | 0 <= i < j < |ts| :: ts[i] != ts[j]
  }

  /** A reference that is not a tap. */
  predicate NotTap(r: Ref) {
    !(r.Own? && (r.role.Past? || r.role.Future?))
  }

  lemma {:induction false} TapRefsDistinct(side: Side, offsets: seq<int>)
    ensures DistinctRefs(TapRefs(side, offsets)) <==> Distinct(offsets)
  {
    var ts := TapRefs(side, offsets);
    if !Distinct(offsets) {
      var i, j :| 0 <= i < j < |offsets| && offsets[i] == offsets[j];
      assert ts[i] == ts[j];
    }
  }

  lemma DistinctRefsAppend(a: seq<Ref>, b: seq<Ref>)
    requires forall i, j | 0 <= i < |a| && 0 <= j < |b| :: a[i] != b[j]
    ensures DistinctRefs(a + b) <==> DistinctRefs(a) && DistinctRefs(b)
  {
    var ab := a + b;
    if DistinctRefs(a) && DistinctRefs(b) {
      forall i, j | 0 <= i < j < |ab| ensures ab[i] != ab[j] {
        if j < |a| {
        } else if i >= |a| {
          assert ab[i] == b[i - |a|] && ab[j] == b[j - |a|];
        }
      }
    }
    if DistinctRefs(ab) {
      forall i, j | 0 <= i < j < |b| ensures b[i] != b[j] {
        assert ab[|a| + i] == b[i] && ab[|a| + j] == b[j];
      }
      forall i, j | 0 <= i < j < |a| ensures a[i] != a[j] {
        assert ab[i] == a[i] && ab[j] == a[j];
      }
    }
  }

  /** With a lead of distinct non-tap references, the sum names each term
      once exactly when neither side repeats an offset. */
  lemma SumTermsDistinct(lead: seq<Ref>, past: seq<int>, sumFuture: seq<int>)
    requires DistinctRefs(lead) && forall k | 0 <= k < |lead| :: NotTap(lead[k])
    ensures DistinctRefs(SumTerms(lead, past, sumFuture)) <==> Distinct(past) && Distinct(sumFuture)
  {
    var ps, fs := TapRefs(Lookback, past), TapRefs(Lookahead, sumFuture);
    TapRefsDistinct(Lookback, past);
    TapRefsDistinct(Lookahead, sumFuture);
    DistinctRefsAppend(lead, ps);
    DistinctRefsAppend(lead + ps, fs);
  }
}
