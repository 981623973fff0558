/** The text of declared names, `<layer>.<role>`, and the reading of a role
    back from its text, which shows that distinct roles never print alike. */
module Names {
  import opened Wrappers
  import opened Numerals
  import opened Decls

  function RoleText(r: Role): string {
    match r
    case WAll => "W_all"
    case WIn => "W_in"
    case WOut => "W_out"
    case UHist(o) => "U_h_" + IntToString(o)
    case UAhead(o) => "U_f_" + IntToString(o)
    case NoOp => "noop"
    case Dropout => "dropout"
    case Relu => "relu"
    case BatchNorm => "batchnorm"
    case Projected => "p_t"
    case Past(o) => "h_t_" + IntToString(o)
    case PastPre(o) => "h_t_" + IntToString(o) + "_pre"
    case Future(o) => "f_t_" + IntToString(o)
    case FuturePre(o) => "f_t_" + IntToString(o) + "_pre"
    case Memory => "m_t"
    case Hidden => "h_t"
    case Rectified => "relu_t"
    case Output => "y_t"
  }

  /** The name a declaration of role `r` gets in layer `layer`. */
  function RenderName(layer: string, r: Role): string {
    layer + "." + RoleText(r)
  }

  function WithOffset(t: string, make: int -> Role): Option<Role> {
    match ParseInt(t)
    case Some(o) => Some(make(o))
    case None => None
  }

  /** Reads a role with an offset from its four-character prefix and the rest. */
  function ParseOffsetRole(prefix: string, rest: string): Option<Role> {
    var pre := |rest| >= 5 && rest[|rest| - 4..] == "_pre";
    var digits := if pre then rest[..|rest| - 4] else rest;
    if prefix == "U_h_" && !pre then WithOffset(digits, o => UHist(o))
    else if prefix == "U_f_" && !pre then WithOffset(digits, o => UAhead(o))
    else if prefix == "h_t_" then WithOffset(digits, o => if pre then PastPre(o) else Past(o))
    else if prefix == "f_t_" then WithOffset(digits, o => if pre then FuturePre(o) else Future(o))
    else None
  }

  function ParseFixedRole(s: string): Option<Role> {
    if s == "W_all" then Some(WAll)
    else if s == "W_in" then Some(WIn)
    else if s == "W_out" then Some(WOut)
    else if s == "noop" then Some(NoOp)
    else if s == "dropout" then Some(Dropout)
    else if s == "relu" then Some(Relu)
    else if s == "batchnorm" then Some(BatchNorm)
    else if s == "p_t" then Some(Projected)
    else if s == "m_t" then Some(Memory)
    else if s == "h_t" then Some(Hidden)
    else if s == "relu_t" then Some(Rectified)
    else if s == "y_t" then Some(Output)
    else None
  }

  /** Reads a role back from its text, offsets included.  The texts of roles
      with an offset are the ones of five or more characters whose fourth is `_`. */
  function ParseRole(s: string): Option<Role> {
    if |s| >= 5 && s[3] == '_' then ParseOffsetRole(s[..4], s[4..]) else ParseFixedRole(s)
  }

  lemma OffsetTextParts(prefix: string, o: int, pre: bool)
    requires |prefix| == 4 && prefix[3] == '_'
    ensures var s := prefix + IntToString(o) + (if pre then "_pre" else "");
      && |s| >= 5 && s[3] == '_' && s[..4] == prefix
      && ParseOffsetRole(prefix, s[4..]) == ParseOffsetRole(prefix, IntToString(o) + (if pre then "_pre" else ""))
  {
    var s := prefix + IntToString(o) + (if pre then "_pre" else "");
    assert s[4..] == IntToString(o) + (if pre then "_pre" else "");
  }

  lemma OffsetRoundTrip(prefix: string, o: int, pre: bool)
    requires prefix in {"U_h_", "U_f_", "h_t_", "f_t_"}
    requires pre ==> prefix in {"h_t_", "f_t_"}
    ensures var rest := IntToString(o) + (if pre then "_pre" else "");
      ParseOffsetRole(prefix, rest) ==
        Some(if prefix == "U_h_" then UHist(o)
             else if prefix == "U_f_" then UAhead(o)
             else if prefix == "h_t_" then (if pre then PastPre(o) else Past(o))
             else (if pre then FuturePre(o) else Future(o)))
  {
    var t := IntToString(o);
    var rest := t + (if pre then "_pre" else "");
    IntRoundTrip(o);
    if pre {
      assert rest[|rest| - 4..] == "_pre";
      assert rest[..|rest| - 4] == t;
    } else {
      assert rest == t;
      assert rest[|rest| - 1] != 'e';
    }
  }

  /** Every role's text reads back as that role. */
  lemma ParseRoleText(r: Role)
    ensures ParseRole(RoleText(r)) == Some(r)
  {
    match r
    case UHist(o) =>
      OffsetTextParts("U_h_", o, false);
      OffsetRoundTrip("U_h_", o, false);
      assert RoleText(r) == "U_h_" + IntToString(o) + "";
    case UAhead(o) =>
      OffsetTextParts("U_f_", o, false);
      OffsetRoundTrip("U_f_", o, false);
      assert RoleText(r) == "U_f_" + IntToString(o) + "";
    case Past(o) =>
      OffsetTextParts("h_t_", o, false);
      OffsetRoundTrip("h_t_", o, false);
      assert RoleText(r) == "h_t_" + IntToString(o) + "";
    case PastPre(o) =>
      OffsetTextParts("h_t_", o, true);
      OffsetRoundTrip("h_t_", o, true);
    case Future(o) =>
      OffsetTextParts("f_t_", o, false);
      OffsetRoundTrip("f_t_", o, false);
      assert RoleText(r) == "f_t_" + IntToString(o) + "";
    case FuturePre(o) =>
      OffsetTextParts("f_t_", o, true);
      OffsetRoundTrip("f_t_", o, true);
    case _ =>
  }

  /** Distinct roles have distinct texts. */
  lemma RoleTextInjective(a: Role, b: Role)
    ensures RoleText(a) == RoleText(b) ==> a == b
  {
    ParseRoleText(a);
    ParseRoleText(b);
  }

  /** Within one layer, distinct roles get distinct names. */
  lemma RenderNameInjective(layer: string, a: Role, b: Role)
    ensures RenderName(layer, a) == RenderName(layer, b) ==> a == b
  {
    if RenderName(layer, a) == RenderName(layer, b) {
      assert RenderName(layer, a)[|layer| + 1..] == RoleText(a);
      assert RenderName(layer, b)[|layer| + 1..] == RoleText(b);
      RoleTextInjective(a, b);
    }
  }
}
