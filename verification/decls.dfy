/** The structure of an nnet3 layer declaration list: components, component-nodes
    and the input expressions of nodes, with the graph properties the layer
    generators are proved against (define-before-use, unique names) and a
    filter used to count declarations of one sort. */
module Decls {

  /** The role part of a declared name `<layer>.<role>`; a role with an
      offset carries the already stride-multiplied offset. */
  datatype Role =
    // components
    | WAll                   // W_all
    | WIn                    // W_in
    | WOut                   // W_out
    | UHist(offset: int)     // U_h_<offset>
    | UAhead(offset: int)    // U_f_<offset>
    | NoOp                   // noop
    | Dropout                // dropout
    | Relu                   // relu
    | BatchNorm              // batchnorm
    // component-nodes
    | Projected              // p_t
    | Past(offset: int)      // h_t_<offset>
    | PastPre(offset: int)   // h_t_<offset>_pre
    | Future(offset: int)    // f_t_<offset>
    | FuturePre(offset: int) // f_t_<offset>_pre
    | Memory                 // m_t
    | Hidden                 // h_t
    | Rectified              // relu_t
    | Output                 // y_t

  /** A component's Kaldi type with its configuration values.  Option blobs
      are kept as text; real-valued settings stay `real`s. */
  datatype Kind =
    | NaturalGradientAffineComponent(inputDim: int, outputDim: int, options: string, l2Regularize: real)
    | NaturalGradientPerElementScaleComponent(dim: int, options: string, l2Regularize: real)
    | NoOpComponent(dim: int)
    | DropoutComponent(dim: int, proportion: real, perFrame: bool)
    | RectifiedLinearComponent(dim: int, selfRepairScale: real)
    | BatchNormComponent(dim: int)

  /** A reference inside a node's input expression. */
  datatype Ref =
    | LayerInput               // the resolved input descriptor's final string
    | Own(role: Role)          // a node of this layer
    | OtherMemory(layer: string) // `<layer>.m_t` of another layer (residual input)

  /** A node's input expression.  `NegOffset(r, k)` is written `Offset(r, -k)`
      with a literal minus sign in front of the text of `k`. */
  datatype Expr =
    | Use(r: Ref)
    | Offset(r: Ref, shift: int)
    | NegOffset(r: Ref, lag: int)
    | Append(first: Ref, second: Ref)
    | Sum(terms: seq<Ref>)

  datatype Decl =
    | Comment(text: string)
    | Component(name: Role, kind: Kind)
    | Node(name: Role, component: Role, input: Expr)

  /** The input descriptor of a layer after resolution: its dim and final string. */
  datatype Descriptor = Descriptor(dim: int, text: string)

  function Refs(e: Expr): seq<Ref> {
    match e
    case Use(r) => [r]
    case Offset(r, _) => [r]
    case NegOffset(r, _) => [r]
    case Append(a, b) => [a, b]
    case Sum(ts) => ts
  }

  /** The nodes of this layer an expression reads. */
  function Reads(e: Expr): set<Role> {
    set r | r in Refs(e) && r.Own? :: r.role
  }

  function CompNames(ds: seq<Decl>): set<Role> {
    set d | d in ds && d.Component? :: d.name
  }

  function NodeNames(ds: seq<Decl>): set<Role> {
    set d | d in ds && d.Node? :: d.name
  }

  function DeclNames(ds: seq<Decl>): set<Role> {
    set d | d in ds && !d.Comment? :: d.name
  }

  /** A node resolves when its component and every own node it reads are declared. */
  predicate Resolves(d: Decl, comps: set<Role>, nodes: set<Role>) {
    d.Node? ==> d.component in comps && Reads(d.input) <= nodes
  }

  /** Every `component=` names a component declared earlier, and every own
      node an input expression reads is a node declared earlier. */
  ghost predicate DefinedBeforeUse(ds: seq<Decl>) {
    forall i | 0 <= i < |ds| :: Resolves(ds[i], CompNames(ds[..i]), NodeNames(ds[..i]))
  }

  /** `DefinedBeforeUse` of a list appended after components `comps` and nodes `nodes`. */
  ghost predicate ResolvesAfter(ds: seq<Decl>, comps: set<Role>, nodes: set<Role>) {
    forall i | 0 <= i < |ds| :: Resolves(ds[i], comps + CompNames(ds[..i]), nodes + NodeNames(ds[..i]))
  }

  /** No two declarations (components or nodes) share a name. */
  ghost predicate UniqueNames(ds: seq<Decl>) {
    forall i, j | 0 <= i < j < |ds| && !ds[i].Comment? && !ds[j].Comment? :: ds[i].name != ds[j].name
  }

  /** The band of a role's block in a generated layer: head components,
      scales, the sink, the taps, the sum, then the tail.  Each block of
      `Layout.Assemble` keeps to its own band (`Layout.BlockRanks`). */
  function Rank(r: Role): nat {
    match r
    case WAll => 0
    case WIn => 1
    case WOut => 2
    case UHist(_) => 3
    case UAhead(_) => 4
    case NoOp => 5
    case Dropout => 6
    case Projected => 7
    case PastPre(_) => 8
    case Past(_) => 8
    case FuturePre(_) => 9
    case Future(_) => 9
    case Memory => 10
    case Hidden => 11
    case Relu => 12
    case Rectified => 13
    case BatchNorm => 14
    case Output => 15
  }

  ghost predicate RanksWithin(ds: seq<Decl>, lo: nat, hi: nat) {
    forall d | d in ds && !d.Comment? :: lo <= Rank(d.name) < hi
  }

  /** The declarations (component or node) named `r`. */
  function Named(r: Role): Decl -> bool {
    (d: Decl) => !d.Comment? && d.name == r
  }

  /** A comment line, as opposed to a component or a component-node. */
  predicate IsComment(d: Decl) {
    d.Comment?
  }

  lemma ConcatSix(a: Decl, b: Decl, c: Decl, d: Decl, e: Decl, f: Decl)
    ensures [a, b, c] + [d] + [e, f] == [a, b, c, d, e, f]
  {
  }

  /** The declarations of `ds` that satisfy `p`, in order. */
  function Select(ds: seq<Decl>, p: Decl -> bool): (r: seq<Decl>)
    ensures |r| <= |ds|
  {
    if ds == [] then [] else (if p(ds[0]) then [ds[0]] else []) + Select(ds[1..], p)
  }

  lemma {:induction false} SelectMembers(ds: seq<Decl>, p: Decl -> bool)
    ensures forall d :: d in Select(ds, p) <==> d in ds && p(d)
  {
    if ds != [] {
      SelectMembers(ds[1..], p);
      assert forall d :: d in ds <==> d == ds[0] || d in ds[1..];
    }
  }

  /** `SelectMembers` for one declaration. */
  lemma {:induction false} SelectHas(ds: seq<Decl>, p: Decl -> bool, d: Decl)
    ensures d in Select(ds, p) <==> d in ds && p(d)
  {
    if ds != [] {
      SelectHas(ds[1..], p, d);
      assert d in ds <==> d == ds[0] || d in ds[1..];
    }
  }

  /** A match found in one list is in every list with the same matches. */
  lemma SelectTransfer(ds: seq<Decl>, es: seq<Decl>, p: Decl -> bool, d: Decl)
    requires Select(ds, p) == Select(es, p) && d in ds && p(d)
    ensures d in es
  {
    SelectHas(ds, p, d);
    SelectHas(es, p, d);
  }

  /** The one declaration named `r` being a node, `r` is a declared node name. */
  lemma SelectedNode(ds: seq<Decl>, r: Role, d: Decl)
    requires Select(ds, Named(r)) == [d] && d.Node?
    ensures r in NodeNames(ds)
  {
    SelectHas(ds, Named(r), d);
  }

  lemma {:induction false} SelectAppend(a: seq<Decl>, b: seq<Decl>, p: Decl -> bool)
    ensures Select(a + b, p) == Select(a, p) + Select(b, p)
  {
    if a == [] {
      assert a + b == b;
    } else {
      var head := if p(a[0]) then [a[0]] else [];
      assert (a + b)[0] == a[0];
      assert (a + b)[1..] == a[1..] + b;
      SelectAppend(a[1..], b, p);
      assert Select(a + b, p) == head + Select(a[1..] + b, p);
      assert Select(a, p) == head + Select(a[1..], p);
    }
  }

  lemma SelectEight(b0: seq<Decl>, b1: seq<Decl>, b2: seq<Decl>, b3: seq<Decl>,
                    b4: seq<Decl>, b5: seq<Decl>, b6: seq<Decl>, b7: seq<Decl>, p: Decl -> bool)
    ensures Select(b0 + b1 + b2 + b3 + b4 + b5 + b6 + b7, p)
         == Select(b0, p) + Select(b1, p) + Select(b2, p) + Select(b3, p)
          + Select(b4, p) + Select(b5, p) + Select(b6, p) + Select(b7, p)
  {
    SelectAppend(b0, b1, p);
    SelectAppend(b0 + b1, b2, p);
    SelectAppend(b0 + b1 + b2, b3, p);
    SelectAppend(b0 + b1 + b2 + b3, b4, p);
    SelectAppend(b0 + b1 + b2 + b3 + b4, b5, p);
    SelectAppend(b0 + b1 + b2 + b3 + b4 + b5, b6, p);
    SelectAppend(b0 + b1 + b2 + b3 + b4 + b5 + b6, b7, p);
  }

  /** Selecting from eight blocks of which only block `k` has a match. */
  lemma SelectOnly(b0: seq<Decl>, b1: seq<Decl>, b2: seq<Decl>, b3: seq<Decl>,
                   b4: seq<Decl>, b5: seq<Decl>, b6: seq<Decl>, b7: seq<Decl>, p: Decl -> bool, k: nat)
    requires k != 0 ==> Select(b0, p) == []
    requires k != 1 ==> Select(b1, p) == []
    requires k != 2 ==> Select(b2, p) == []
    requires k != 3 ==> Select(b3, p) == []
    requires k != 4 ==> Select(b4, p) == []
    requires k != 5 ==> Select(b5, p) == []
    requires k != 6 ==> Select(b6, p) == []
    requires k != 7 ==> Select(b7, p) == []
    ensures Select(b0 + b1 + b2 + b3 + b4 + b5 + b6 + b7, p)
         == if k == 0 then Select(b0, p) else if k == 1 then Select(b1, p)
            else if k == 2 then Select(b2, p) else if k == 3 then Select(b3, p)
            else if k == 4 then Select(b4, p) else if k == 5 then Select(b5, p)
            else if k == 6 then Select(b6, p) else if k == 7 then Select(b7, p) else []
  {
    SelectEight(b0, b1, b2, b3, b4, b5, b6, b7, p);
  }

  /** Selecting from eight blocks of which only the fifth and sixth have matches. */
  lemma SelectMiddlePair(b0: seq<Decl>, b1: seq<Decl>, b2: seq<Decl>, b3: seq<Decl>,
                         b4: seq<Decl>, b5: seq<Decl>, b6: seq<Decl>, b7: seq<Decl>, p: Decl -> bool)
    requires Select(b0, p) == [] && Select(b1, p) == [] && Select(b2, p) == [] && Select(b3, p) == []
    requires Select(b6, p) == [] && Select(b7, p) == []
    ensures Select(b0 + b1 + b2 + b3 + b4 + b5 + b6 + b7, p) == Select(b4, p) + Select(b5, p)
  {
    SelectEight(b0, b1, b2, b3, b4, b5, b6, b7, p);
  }

  lemma {:induction false} SelectAll(ds: seq<Decl>, p: Decl -> bool)
    requires forall i | 0 <= i < |ds| :: p(ds[i])
    ensures Select(ds, p) == ds
  {
    if ds != [] {
      SelectAll(ds[1..], p);
    }
  }

  lemma {:induction false} SelectNone(ds: seq<Decl>, p: Decl -> bool)
    requires forall i | 0 <= i < |ds| :: !p(ds[i])
    ensures Select(ds, p) == []
  {
    if ds != [] {
      SelectNone(ds[1..], p);
    }
  }

  /** The one declaration of `ds` satisfying `p` is the one at `k`. */
  lemma {:induction false} SelectOne(ds: seq<Decl>, k: nat, p: Decl -> bool)
    requires k < |ds| && p(ds[k])
    requires forall i | 0 <= i < |ds| && i != k :: !p(ds[i])
    ensures Select(ds, p) == [ds[k]]
  {
    var rest := ds[1..];
    if k == 0 {
      SelectNone(rest, p);
    } else {
      SelectOne(rest, k - 1, p);
    }
  }

  /** No declaration of a list confined to a rank band has a name outside it. */
  lemma SelectOutsideRanks(ds: seq<Decl>, lo: nat, hi: nat, r: Role)
    requires RanksWithin(ds, lo, hi) && (Rank(r) < lo || hi <= Rank(r))
    ensures Select(ds, Named(r)) == []
  {
    forall i | 0 <= i < |ds| ensures !Named(r)(ds[i]) {
      assert ds[i] in ds;
    }
    SelectNone(ds, Named(r));
  }

  lemma NamesAppend(a: seq<Decl>, b: seq<Decl>)
    ensures CompNames(a + b) == CompNames(a) + CompNames(b)
    ensures NodeNames(a + b) == NodeNames(a) + NodeNames(b)
    ensures DeclNames(a + b) == DeclNames(a) + DeclNames(b)
  {
    assert forall d :: d in a + b <==> d in a || d in b;
  }

  /** Define-before-use of a concatenation follows from that of its parts,
      the second part checked against what the first declares. */
  lemma ResolvesAppend(a: seq<Decl>, b: seq<Decl>, comps: set<Role>, nodes: set<Role>)
    requires ResolvesAfter(a, comps, nodes)
    requires ResolvesAfter(b, comps + CompNames(a), nodes + NodeNames(a))
    ensures ResolvesAfter(a + b, comps, nodes)
  {
    forall i | 0 <= i < |a + b|
      ensures Resolves((a + b)[i], comps + CompNames((a + b)[..i]), nodes + NodeNames((a + b)[..i]))
    {
      if i < |a| {
        assert (a + b)[..i] == a[..i];
      } else {
        var k := i - |a|;
        assert (a + b)[..i] == a + b[..k];
        NamesAppend(a, b[..k]);
        assert Resolves(b[k], comps + CompNames(a) + CompNames(b[..k]), nodes + NodeNames(a) + NodeNames(b[..k]));
      }
    }
  }

  /** A list whose nodes all resolve against names declared before it. */
  lemma ResolvesFlat(ds: seq<Decl>, comps: set<Role>, nodes: set<Role>)
    requires forall i | 0 <= i < |ds| :: Resolves(ds[i], comps, nodes)
    ensures ResolvesAfter(ds, comps, nodes)
  {
  }

  /** Extends a list whose nodes resolve by a block resolving against it. */
  lemma ResolvesExtend(acc: seq<Decl>, blk: seq<Decl>)
    requires ResolvesAfter(acc, {}, {})
    requires ResolvesAfter(blk, CompNames(acc), NodeNames(acc))
    ensures ResolvesAfter(acc + blk, {}, {})
    ensures CompNames(acc + blk) == CompNames(acc) + CompNames(blk)
    ensures NodeNames(acc + blk) == NodeNames(acc) + NodeNames(blk)
  {
    assert {} + CompNames(acc) == CompNames(acc) && {} + NodeNames(acc) == NodeNames(acc);
    ResolvesAppend(acc, blk, {}, {});
    NamesAppend(acc, blk);
  }

  /** Resolving against more declarations is no harder. */
  lemma ResolvesMono(ds: seq<Decl>, comps: set<Role>, nodes: set<Role>, comps': set<Role>, nodes': set<Role>)
    requires ResolvesAfter(ds, comps, nodes) && comps <= comps' && nodes <= nodes'
    ensures ResolvesAfter(ds, comps', nodes')
  {
    forall i | 0 <= i < |ds| ensures Resolves(ds[i], comps' + CompNames(ds[..i]), nodes' + NodeNames(ds[..i])) {
      assert Resolves(ds[i], comps + CompNames(ds[..i]), nodes + NodeNames(ds[..i]));
    }
  }

  /** In a list where names are defined before use, every own node a node
      reads is declared somewhere in the list. */
  lemma ReadsDeclared(ds: seq<Decl>, k: nat)
    requires DefinedBeforeUse(ds) && k < |ds| && ds[k].Node?
    ensures Reads(ds[k].input) <= NodeNames(ds)
  {
    assert NodeNames(ds[..k]) <= NodeNames(ds) by {
      forall d | d in ds[..k] ensures d in ds {
      }
    }
  }

  /** Define-before-use of eight blocks in a row, each resolving against
      everything declared in the blocks before it. */
  lemma ResolvesEight(b0: seq<Decl>, b1: seq<Decl>, b2: seq<Decl>, b3: seq<Decl>,
                      b4: seq<Decl>, b5: seq<Decl>, b6: seq<Decl>, b7: seq<Decl>)
    requires ResolvesAfter(b0, {}, {})
    requires ResolvesAfter(b1, CompNames(b0), NodeNames(b0))
    requires ResolvesAfter(b2, CompNames(b0 + b1), NodeNames(b0 + b1))
    requires ResolvesAfter(b3, CompNames(b0 + b1 + b2), NodeNames(b0 + b1 + b2))
    requires ResolvesAfter(b4, CompNames(b0 + b1 + b2 + b3), NodeNames(b0 + b1 + b2 + b3))
    requires ResolvesAfter(b5, CompNames(b0 + b1 + b2 + b3 + b4), NodeNames(b0 + b1 + b2 + b3 + b4))
    requires ResolvesAfter(b6, CompNames(b0 + b1 + b2 + b3 + b4 + b5), NodeNames(b0 + b1 + b2 + b3 + b4 + b5))
    requires ResolvesAfter(b7, CompNames(b0 + b1 + b2 + b3 + b4 + b5 + b6), NodeNames(b0 + b1 + b2 + b3 + b4 + b5 + b6))
    ensures DefinedBeforeUse(b0 + b1 + b2 + b3 + b4 + b5 + b6 + b7)
  {
    ResolvesExtend(b0, b1);
    ResolvesExtend(b0 + b1, b2);
    ResolvesExtend(b0 + b1 + b2, b3);
    ResolvesExtend(b0 + b1 + b2 + b3, b4);
    ResolvesExtend(b0 + b1 + b2 + b3 + b4, b5);
    ResolvesExtend(b0 + b1 + b2 + b3 + b4 + b5, b6);
    ResolvesExtend(b0 + b1 + b2 + b3 + b4 + b5 + b6, b7);
    ResolvesFromEmpty(b0 + b1 + b2 + b3 + b4 + b5 + b6 + b7);
  }

  lemma ResolvesFromEmpty(ds: seq<Decl>)
    requires ResolvesAfter(ds, {}, {})
    ensures DefinedBeforeUse(ds)
  {
    forall i | 0 <= i < |ds|
      ensures Resolves(ds[i], CompNames(ds[..i]), NodeNames(ds[..i]))
    {
      assert {} + CompNames(ds[..i]) == CompNames(ds[..i]);
      assert {} + NodeNames(ds[..i]) == NodeNames(ds[..i]);
    }
  }

  /** The parts of a list with unique names have unique names. */
  lemma UniqueParts(a: seq<Decl>, b: seq<Decl>)
    requires UniqueNames(a + b)
    ensures UniqueNames(a) && UniqueNames(b)
  {
    forall i, j | 0 <= i < j < |b| && !b[i].Comment? && !b[j].Comment? ensures b[i].name != b[j].name {
      assert (a + b)[|a| + i] == b[i] && (a + b)[|a| + j] == b[j];
    }
    forall i, j | 0 <= i < j < |a| && !a[i].Comment? && !a[j].Comment? ensures a[i].name != a[j].name {
      assert (a + b)[i] == a[i] && (a + b)[j] == a[j];
    }
  }

  /** Every declaration satisfying `p` is preceded by one it stands in
      relation `q` to. */
  ghost predicate Paired(ds: seq<Decl>, p: Decl -> bool, q: (Decl, Decl) -> bool) {
    forall i | 0 <= i < |ds| && p(ds[i]) :: i >= 1 && q(ds[i - 1], ds[i])
  }

  lemma PairedAppend(a: seq<Decl>, b: seq<Decl>, p: Decl -> bool, q: (Decl, Decl) -> bool)
    requires Paired(a, p, q) && Paired(b, p, q)
    ensures Paired(a + b, p, q)
  {
    var ds := a + b;
    forall i | 0 <= i < |ds| && p(ds[i]) ensures i >= 1 && q(ds[i - 1], ds[i]) {
      if i < |a| {
        assert ds[i] == a[i] && ds[i - 1] == a[i - 1];
      } else {
        assert ds[i] == b[i - |a|];
        assert i - |a| >= 1;
        assert ds[i - 1] == b[i - |a| - 1];
      }
    }
  }

  /** Two lists with unique names whose ranks do not overlap concatenate to a
      list with unique names. */
  lemma UniqueAppend(a: seq<Decl>, b: seq<Decl>, lo: nat, mid: nat, hi: nat)
    requires UniqueNames(a) && UniqueNames(b)
    requires lo <= mid <= hi
    requires RanksWithin(a, lo, mid) && RanksWithin(b, mid, hi)
    ensures UniqueNames(a + b)
    ensures RanksWithin(a + b, lo, hi)
  {
    forall i, j | 0 <= i < j < |a + b| && !(a + b)[i].Comment? && !(a + b)[j].Comment?
      ensures (a + b)[i].name != (a + b)[j].name
    {
      if j < |a| {
        assert (a + b)[i] == a[i] && (a + b)[j] == a[j];
      } else if i >= |a| {
        assert (a + b)[i] == b[i - |a|] && (a + b)[j] == b[j - |a|];
      } else {
        assert (a + b)[i] in a && (a + b)[j] in b;
      }
    }
    forall d | d in a + b && !d.Comment?
      ensures lo <= Rank(d.name) < hi
    {
      assert d in a || d in b;
    }
  }
}
