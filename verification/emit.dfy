/** `get_full_config` of both layer types: every generated line, rendered as
    text, goes to the `ref` and then to the `final` config. */
module Emit {
  import opened Decls
  import opened Layer
  import opened Render
  import opened Numerals
  import VFsmn
  import CFsmn
  import opened Memory

  /** The generated lines of a vFSMN layer, each paired with `ref` and with `final`. */
  method VFsmnFullConfig(name: string, input: Descriptor, c: VFsmn.Config, fmt: FloatFormat)
    returns (ans: seq<(string, string)>)
    ensures var lines := Lines(name, input.text, fmt, VFsmn.Generate(name, input, c));
      && |ans| == 2 * |lines|
      && (forall i | 0 <= i < |lines| :: ans[2 * i] == ("ref", lines[i]) && ans[2 * i + 1] == ("final", lines[i]))
      && LinesFor(ans, "ref") == lines && LinesFor(ans, "final") == lines
  {
    ans := FullConfig(Lines(name, input.text, fmt, VFsmn.Generate(name, input, c)));
  }

  /** The generated lines of a cFSMN layer, each paired with `ref` and with `final`. */
  method CFsmnFullConfig(name: string, input: Descriptor, c: CFsmn.Config, fmt: FloatFormat)
    returns (ans: seq<(string, string)>)
    ensures var lines := Lines(name, input.text, fmt, CFsmn.Generate(name, input, c));
      && |ans| == 2 * |lines|
      && (forall i | 0 <= i < |lines| :: ans[2 * i] == ("ref", lines[i]) && ans[2 * i + 1] == ("final", lines[i]))
      && LinesFor(ans, "ref") == lines && LinesFor(ans, "final") == lines
  {
    ans := FullConfig(Lines(name, input.text, fmt, CFsmn.Generate(name, input, c)));
  }

  /** A vFSMN layer `L` with one history frame and no lookahead: its memory
      sum names `L.f_t_0`, a node the layer never declares. */
  lemma NoLookaheadSum()
    ensures ExprText("L", "in", Sum(VFsmn.MemoryTerms(NoLookahead)))
         == "Sum(" + "L.h_t_0" + ", " + "L.h_t_1" + ", " + "L.f_t_0" + ")"
  {
    NoLookaheadTexts();
    SumOfThree(VFsmn.MemoryTerms(NoLookahead), "L.h_t_0", "L.h_t_1", "L.f_t_0");
  }

  lemma NoLookaheadTerms()
    ensures VFsmn.MemoryTerms(NoLookahead) == [Own(Past(0)), Own(Past(1)), Own(Future(0))]
  {
    assert PastOffsets(1, 1) == [0, 1];
    assert SumFutureOffsets(0, 1) == [0];
  }

  lemma NoLookaheadTexts()
    ensures TermTexts("L", "in", VFsmn.MemoryTerms(NoLookahead)) == ["L.h_t_0", "L.h_t_1", "L.f_t_0"]
  {
    NoLookaheadTerms();
    assert IntToString(0) == "0" && IntToString(1) == "1";
    var texts := TermTexts("L", "in", VFsmn.MemoryTerms(NoLookahead));
    assert texts[0] == "L.h_t_0";
    assert texts[1] == "L.h_t_1";
    assert texts[2] == "L.f_t_0";
  }

  lemma SumOfThree(ts: seq<Ref>, a: string, b: string, c: string)
    requires TermTexts("L", "in", ts) == [a, b, c]
    ensures ExprText("L", "in", Sum(ts)) == "Sum(" + a + ", " + b + ", " + c + ")"
  {
    assert ExprText("L", "in", Sum(ts)) == "Sum(" + Join([a, b, c]) + ")";
    JoinThree(a, b, c);
  }

  lemma JoinThree(a: string, b: string, c: string)
    ensures Join([a, b, c]) == a + ", " + b + ", " + c
  {
    assert [a, b, c][..2] == [a, b] && [a, b][..1] == [a];
    assert Join([a]) == a;
    assert Join([a, b]) == a + ", " + b;
  }

  const NoLookahead: VFsmn.Config := VFsmn.Defaults.(dim := 4, lookback := 1, lookahead := 0)

  /** The same layer does not define every name before it is read. */
  lemma NoLookaheadUndefined()
    ensures !DefinedBeforeUse(VFsmn.Generate("L", Descriptor(4, "in"), NoLookahead))
  {
    VFsmn.DefinedExactly("L", Descriptor(4, "in"), NoLookahead);
  }
}
