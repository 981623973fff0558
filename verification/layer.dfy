/** What the two FSMN layer classes share outside generation: configuration
    errors, output naming, output dims and the `ref`/`final` duplication of
    generated lines. */
module Layer {
  import opened Wrappers
  import opened Decls
  import opened Names

  /** The `RuntimeError`s (and the one `NameError`) the layer classes raise. */
  datatype ConfigError =
    | InvalidDim(key: string, value: int)        // "<key> has invalid value <value>."
    | InvalidScale(key: string, scale: real)     // "<key> has invalid value <value>."
    | UnknownOutput(requested: string)           // "Unknown auxiliary output name <requested>"
    | UndefinedName(identifier: string)          // NameError on an unbound local

  const AuxiliaryOutputs: seq<string> := ["m_t"]

  /** The node a consumer of this layer reads: `y_t` by default, or an auxiliary output. */
  function OutputName(layer: string, aux: Option<string>): (r: Result<string, ConfigError>)
    ensures r.Ok? <==> aux.None? || aux.value in AuxiliaryOutputs
    ensures aux.None? ==> r == Ok(RenderName(layer, Output))
    ensures aux == Some("m_t") ==> r == Ok(RenderName(layer, Memory))
    ensures r.Err? ==> r.error == UnknownOutput(aux.value)
  {
    var nodeName :=
      if aux.None? then Ok("y_t")
      else if aux.value in AuxiliaryOutputs then Ok(aux.value)
      else Err(UnknownOutput(aux.value));
    match nodeName
    case Ok(n) => Ok(layer + "." + n)
    case Err(e) => Err(e)
  }

  /** The dim of the requested output.  The auxiliary branch reads a local
      variable that is never bound in that scope, so it raises `NameError`. */
  function OutputDim(dim: int, aux: Option<string>): (r: Result<int, ConfigError>)
    ensures r.Ok? <==> aux.None?
    ensures r.Ok? ==> r.value == dim
    ensures aux == Some("m_t") ==> r == Err(UndefinedName("node_name"))
    ensures aux.Some? && aux.value !in AuxiliaryOutputs ==> r == Err(UnknownOutput(aux.value))
  {
    if aux.None? then Ok(dim)
    else if aux.value in AuxiliaryOutputs then Err(UndefinedName("node_name"))
    else Err(UnknownOutput(aux.value))
  }

  /** The lines of `pairs` emitted for configuration `target`, in order. */
  function LinesFor<T>(pairs: seq<(string, T)>, target: string): seq<T> {
    if pairs == [] then []
    else LinesFor(pairs[..|pairs| - 1], target)
         + (if pairs[|pairs| - 1].0 == target then [pairs[|pairs| - 1].1] else [])
  }

  /** Every generated line, emitted for `ref` and then for `final`. */
  method FullConfig<T>(lines: seq<T>) returns (ans: seq<(string, T)>)
    ensures |ans| == 2 * |lines|
    ensures forall i | 0 <= i < |lines| :: ans[2 * i] == ("ref", lines[i]) && ans[2 * i + 1] == ("final", lines[i])
    ensures LinesFor(ans, "ref") == lines && LinesFor(ans, "final") == lines
  {
    ans := [];
    var i := 0;
    while i < |lines|
      invariant 0 <= i <= |lines|
      invariant |ans| == 2 * i
      invariant forall k | 0 <= k < i :: ans[2 * k] == ("ref", lines[k]) && ans[2 * k + 1] == ("final", lines[k])
      invariant LinesFor(ans, "ref") == lines[..i] && LinesFor(ans, "final") == lines[..i]
    {
      var withRef := ans + [("ref", lines[i])];
      assert withRef[..|withRef| - 1] == ans;
      ans := withRef + [("final", lines[i])];
      assert ans[..|ans| - 1] == withRef;
      assert lines[..i + 1] == lines[..i] + [lines[i]];
      i := i + 1;
    }
    assert lines[..i] == lines;
  }
}
