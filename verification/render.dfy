/** The text of generated config lines: one line per declaration, exactly as
    `generate_fsmn_config` formats it.  Floating-point text is supplied by
    the caller (Python's `str` of a float and its `{:.10f}` format), since
    the model keeps real-valued settings as `real`s. */
module Render {
  import opened Numerals
  import opened Decls
  import opened Names

  /** Text of a float as `'{0}'.format(x)` and as `'{0:.10f}'.format(x)` write it. */
  datatype FloatFormat = FloatFormat(plain: real -> string, fixed10: real -> string)

  /** The `l2-regularize` option, with its trailing space, or nothing when the constant is zero. */
  function L2Text(fmt: FloatFormat, l2: real): (r: string)
    ensures r == "" <==> l2 == 0.0
    ensures l2 != 0.0 ==> |r| > 14 && r[..14] == "l2-regularize=" && r[|r| - 1] == ' '
  {
    if l2 != 0.0 then "l2-regularize=" + fmt.plain(l2) + " " else ""
  }

  function BoolText(b: bool): string {
    if b then "true" else "false"
  }

  /** Everything after `name=<layer>.<role> ` on a component line: the
      Kaldi type, then its settings. */
  function KindText(fmt: FloatFormat, k: Kind): (r: string)
    ensures |r| > 5 && r[..5] == "type="
  {
    var settings :=
      match k
      case NaturalGradientAffineComponent(i, o, options, l2) =>
        "NaturalGradientAffineComponent input-dim=" + IntToString(i) + " output-dim=" + IntToString(o)
        + " " + options + " " + L2Text(fmt, l2)
      case NaturalGradientPerElementScaleComponent(d, options, l2) =>
        "NaturalGradientPerElementScaleComponent  dim=" + IntToString(d) + " " + options + " " + L2Text(fmt, l2)
      case NoOpComponent(d) =>
        "NoOpComponent dim=" + IntToString(d)
      case DropoutComponent(d, p, perFrame) =>
        "DropoutComponent dim=" + IntToString(d) + " dropout-proportion=" + fmt.plain(p)
        + " dropout-per-frame=" + BoolText(perFrame)
      case RectifiedLinearComponent(d, scale) =>
        "RectifiedLinearComponent dim=" + IntToString(d) + " self-repair-scale=" + fmt.fixed10(scale)
      case BatchNormComponent(d) =>
        "BatchNormComponent dim=" + IntToString(d) + " target-rms=1.0";
    "type=" + settings
  }

  function RefText(layer: string, input: string, r: Ref): string {
    match r
    case LayerInput => input
    case Own(role) => RenderName(layer, role)
    case OtherMemory(other) => other + ".m_t"
  }

  /** The terms joined by `", "`. */
  function Join(ts: seq<string>): string {
    if |ts| <= 1 then (if ts == [] then "" else ts[0]) else Join(ts[..|ts| - 1]) + ", " + ts[|ts| - 1]
  }

  /** Each term followed by `", "`, the way the source accumulates all sum terms but the last. */
  function Trailing(ts: seq<string>): string {
    if ts == [] then "" else Trailing(ts[..|ts| - 1]) + ts[|ts| - 1] + ", "
  }

  /** Accumulating every term but the last with a trailing `", "` and then
      the last term gives the terms joined by `", "`. */
  lemma {:induction false} TrailingJoin(ts: seq<string>)
    requires |ts| >= 1
    ensures Trailing(ts[..|ts| - 1]) + ts[|ts| - 1] == Join(ts)
  {
    if |ts| > 1 {
      var init := ts[..|ts| - 1];
      TrailingJoin(init);
      assert init[..|init| - 1] == ts[..|ts| - 2];
      assert Trailing(init) == Trailing(ts[..|ts| - 2]) + ts[|ts| - 2] + ", ";
      assert Join(init) == Trailing(ts[..|ts| - 2]) + ts[|ts| - 2];
    }
  }

  function TermTexts(layer: string, input: string, ts: seq<Ref>): (r: seq<string>)
    ensures |r| == |ts| && forall i | 0 <= i < |ts| :: r[i] == RefText(layer, input, ts[i])
  {
    seq(|ts|, i requires 0 <= i < |ts| => RefText(layer, input, ts[i]))
  }

  /** A node's input expression; a lookback shift prints a literal `-` before the offset. */
  function ExprText(layer: string, input: string, e: Expr): string {
    match e
    case Use(r) => RefText(layer, input, r)
    case Offset(r, k) => "Offset(" + RefText(layer, input, r) + ", " + IntToString(k) + ")"
    case NegOffset(r, k) => "Offset(" + RefText(layer, input, r) + ", -" + IntToString(k) + ")"
    case Append(a, b) => "Append(" + RefText(layer, input, a) + ", " + RefText(layer, input, b) + ")"
    case Sum(ts) => "Sum(" + Join(TermTexts(layer, input, ts)) + ")"
  }

  /** Nodes applying `W_in` or a per-element-scale component are written
      with two spaces before `input=`. */
  function InputGap(component: Role): string {
    if component.WIn? || component.UHist? || component.UAhead? then "  " else " "
  }

  /** The config line of one declaration. */
  function Line(layer: string, input: string, fmt: FloatFormat, d: Decl): string {
    match d
    case Comment(text) => text
    case Component(name, kind) => "component name=" + RenderName(layer, name) + " " + KindText(fmt, kind)
    case Node(name, component, e) =>
      "component-node name=" + RenderName(layer, name) + " component=" + RenderName(layer, component)
      + InputGap(component) + "input=" + ExprText(layer, input, e)
  }

  /** A comment line is its text; a component line begins
      `component name=<layer>.<role> type=`; a node line begins
      `component-node name=<layer>.<role> component=<layer>.<component> ` and
      ends with a space and `input=<expression>`. */
  lemma LineFields(layer: string, input: string, fmt: FloatFormat, d: Decl)
    ensures d.Comment? ==> Line(layer, input, fmt, d) == d.text
    ensures d.Component? ==> "component name=" + RenderName(layer, d.name) + " type=" <= Line(layer, input, fmt, d)
    ensures d.Node? ==>
      var r, last := Line(layer, input, fmt, d), "input=" + ExprText(layer, input, d.input);
      && "component-node name=" + RenderName(layer, d.name) + " component=" + RenderName(layer, d.component) + " " <= r
      && |last| < |r| && r[|r| - |last|..] == last && r[|r| - |last| - 1] == ' '
  {
    match d
    case Comment(_) =>
    case Component(name, kind) => ComponentLine(layer, input, fmt, name, kind);
    case Node(name, component, e) => NodeLine(layer, input, fmt, name, component, e);
  }

  lemma ComponentLine(layer: string, input: string, fmt: FloatFormat, name: Role, kind: Kind)
    ensures "component name=" + RenderName(layer, name) + " type=" <= Line(layer, input, fmt, Component(name, kind))
  {
    TypePrefix("component name=" + RenderName(layer, name) + " ", KindText(fmt, kind));
  }

  lemma NodeLine(layer: string, input: string, fmt: FloatFormat, name: Role, component: Role, e: Expr)
    ensures var r, last := Line(layer, input, fmt, Node(name, component, e)), "input=" + ExprText(layer, input, e);
      && "component-node name=" + RenderName(layer, name) + " component=" + RenderName(layer, component) + " " <= r
      && |last| < |r| && r[|r| - |last|..] == last && r[|r| - |last| - 1] == ' '
  {
    var front := "component-node name=" + RenderName(layer, name) + " component=" + RenderName(layer, component);
    GapSplit(front, InputGap(component), "input=", ExprText(layer, input, e));
  }

  /** A head followed by settings that begin with `type=` begins with the head and `type=`. */
  lemma TypePrefix(head: string, k: string)
    requires |k| > 5 && k[..5] == "type="
    ensures head + "type=" <= head + k
  {
    assert (head + k)[..|head| + 5] == head + "type=";
  }

  /** Joining a field `key` + `value` on across a gap of one or two spaces:
      the front and one space begin the line, and the field ends it after a
      space. */
  lemma GapSplit(front: string, gap: string, key: string, value: string)
    requires gap == " " || gap == "  "
    ensures var r, last := front + gap + key + value, key + value;
      && front + " " <= r
      && |last| < |r| && r[|r| - |last|..] == last && r[|r| - |last| - 1] == ' '
  {
    var r, last := front + gap + key + value, key + value;
    assert r == (front + gap) + last;
    assert r[..|front| + 1] == front + " ";
    assert r[|r| - |last|..] == last;
  }

  function Lines(layer: string, input: string, fmt: FloatFormat, ds: seq<Decl>): (r: seq<string>)
    ensures |r| == |ds|
  {
    seq(|ds|, i requires 0 <= i < |ds| => Line(layer, input, fmt, ds[i]))
  }

  /** The `name=` field a declaration line carries. */
  function DeclaredName(layer: string, d: Decl): string
    requires !d.Comment?
  {
    RenderName(layer, d.name)
  }

  /** Unique roles print as unique names: no two lines declare the same name. */
  lemma NamesDistinct(layer: string, ds: seq<Decl>)
    requires UniqueNames(ds)
    ensures forall i, j | 0 <= i < j < |ds| && !ds[i].Comment? && !ds[j].Comment? ::
      DeclaredName(layer, ds[i]) != DeclaredName(layer, ds[j])
  {
    forall i, j | 0 <= i < j < |ds| && !ds[i].Comment? && !ds[j].Comment?
      ensures DeclaredName(layer, ds[i]) != DeclaredName(layer, ds[j])
    {
      RenderNameInjective(layer, ds[i].name, ds[j].name);
    }
  }

  /** The memory-sum line as the source accumulates it: `Sum(`, each term
      but the last followed by `", "`, the last term, `)`. */
  lemma SumLine(layer: string, input: string, ts: seq<Ref>)
    requires |ts| >= 1
    ensures var texts := TermTexts(layer, input, ts);
      ExprText(layer, input, Sum(ts)) == "Sum(" + Trailing(texts[..|ts| - 1]) + texts[|ts| - 1] + ")"
  {
    var texts := TermTexts(layer, input, ts);
    TrailingJoin(texts);
    assert ExprText(layer, input, Sum(ts)) == "Sum(" + Join(texts) + ")";
  }
}
