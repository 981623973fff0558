/** The per-element-scale option rule shared by both FSMN layers: default
    initialisation options are appended unless the user already chose one. */
module Options {

  /** `pat` occurs in `s` as a substring (what `re.search` with a pattern
      free of special characters finds). */
  predicate Contains(s: string, pat: string) {
    exists i | 0 <= i <= |s| :: MatchesAt(s, pat, i)
  }

  predicate MatchesAt(s: string, pat: string, i: nat) {
    i + |pat| <= |s| && s[i..i + |pat|] == pat
  }

  /** Written out, " param-mean=0.0 param-stddev=0.05 ". */
  const DefaultScaleInit: string := " " + "param-mean" + "=0.0 param-stddev=0.05 "

  lemma ContainsAt(s: string, pat: string, i: int)
    requires 0 <= i <= |s| - |pat| && s[i..i + |pat|] == pat
    ensures Contains(s, pat)
  {
    assert MatchesAt(s, pat, i);
  }

  /** The per-element-scale options after the initialisation default is applied. */
  function PerElementScaleOptions(options: string): (r: string)
    ensures Contains(r, "param-mean") || Contains(r, "param-stddev")
    ensures r == options || r == options + DefaultScaleInit
    ensures r != options <==> !Contains(options, "param-mean") && !Contains(options, "param-stddev")
  {
    if !Contains(options, "param-mean") && !Contains(options, "param-stddev") then
      var r := options + DefaultScaleInit;
      assert r == options + " " + "param-mean" + "=0.0 param-stddev=0.05 ";
      assert r[|options| + 1..|options| + 11] == "param-mean";
      ContainsAt(r, "param-mean", |options| + 1);
      r
    else
      options
  }

  /** Applying the rule to options it produced changes nothing. */
  lemma PerElementScaleOptionsIdempotent(options: string)
    ensures PerElementScaleOptions(PerElementScaleOptions(options)) == PerElementScaleOptions(options)
  {
  }
}
