/**
 * The decimal-number regular expressions the services search text with:
 * `-?\d+(?:\.\d+)?` (backend) and `[-+]?\d+(\.\d+)?` (frontend), matched
 * leftmost and greedily as Python `re.search` and JavaScript `String.match` do.
 */
module NumberText {
  import opened Wrappers
  import opened Text

  /** A match: optional sign, whole digits, optional fraction digits. */
  datatype Num = Num(sign: string, whole: string, frac: string)

  predicate WellFormed(n: Num) {
    (n.sign == "" || n.sign == "-" || n.sign == "+") && IsDigitString(n.whole) && AllDigits(n.frac)
  }

  /** The matched text, `match.group()`. */
  function NumText(n: Num): string {
    n.sign + n.whole + (if n.frac == [] then "" else "." + n.frac)
  }

  function Magnitude(n: Num): (m: real)
    requires WellFormed(n)
    ensures m >= 0.0
  {
    ParseNat(n.whole) as real + ParseNat(n.frac) as real / Pow10(|n.frac|) as real
  }

  /** `float(match.group())`, read as an exact decimal. */
  function Value(n: Num): real
    requires WellFormed(n)
  {
    if n.sign == "-" then -Magnitude(n) else Magnitude(n)
  }

  /** The longest run of digits at the start of `s`. */
  function DigitRun(s: string): (r: string)
    ensures |r| <= |s| && r == s[..|r|] && AllDigits(r)
    ensures |r| == |s| || !IsDigit(s[|r|])
  {
    if s != [] && IsDigit(s[0]) then [s[0]] + DigitRun(s[1..]) else ""
  }

  /** `\d+(?:\.\d+)?` anchored at the start of `s`. */
  function UnsignedAt(s: string): (r: Option<Num>)
    ensures r.Some? ==> WellFormed(r.value) && r.value.sign == "" && StartsWith(s, NumText(r.value))
    ensures r.Some? <==> s != [] && IsDigit(s[0])
  {
    var w := DigitRun(s);
    if w == [] then None
    else
      var rest := s[|w|..];
      if |rest| >= 2 && rest[0] == '.' && IsDigit(rest[1]) then
        var f := DigitRun(rest[1..]);
        assert s[..|w| + 1 + |f|] == w + "." + f;
        Some(Num("", w, f))
      else Some(Num("", w, ""))
  }

  /** The pattern with an optional sign from `signs`, anchored at the start of `s`. */
  function NumberAt(s: string, signs: set<char>): (r: Option<Num>)
    requires signs <= {'-', '+'}
    ensures r.Some? ==> WellFormed(r.value) && StartsWith(s, NumText(r.value))
  {
    if s != [] && s[0] in signs then
      match UnsignedAt(s[1..])
      case Some(u) =>
        SignedText(s, u);
        Some(Num([s[0]], u.whole, u.frac))
      case None => None
    else UnsignedAt(s)
  }

  /** A sign in front of a match at `s[1..]` makes a match at `s`. */
  lemma SignedText(s: string, u: Num)
    requires s != [] && u.sign == "" && StartsWith(s[1..], NumText(u))
    ensures StartsWith(s, NumText(Num([s[0]], u.whole, u.frac)))
  {
    var t := NumText(u);
    assert t == u.whole + (if u.frac == [] then "" else "." + u.frac);
    assert NumText(Num([s[0]], u.whole, u.frac)) == [s[0]] + t;
    assert s[..1 + |t|] == [s[0]] + s[1..][..|t|];
  }

  /** `re.search`: the leftmost position where the pattern matches, and the match. */
  function Search(s: string, signs: set<char>): (r: Option<(nat, Num)>)
    requires signs <= {'-', '+'}
    ensures r.Some? ==> r.value.0 <= |s| && NumberAt(s[r.value.0..], signs) == Some(r.value.1)
    ensures r.Some? ==> forall j :: 0 <= j < r.value.0 ==> NumberAt(s[j..], signs).None?
    ensures r.None? ==> forall j :: 0 <= j <= |s| ==> NumberAt(s[j..], signs).None?
    decreases |s|
  {
    match NumberAt(s, signs)
    case Some(n) => Some((0, n))
    case None =>
      if s == [] then None
      else
        var rest := Search(s[1..], signs);
        assert forall j :: 1 <= j <= |s| ==> s[j..] == s[1..][j - 1..];
        match rest
        case Some(p) => Some((p.0 + 1, p.1))
        case None => None
  }

  /** `re.search(...).group()` reduced to the matched number, or None. */
  function FirstNumber(s: string, signs: set<char>): (r: Option<Num>)
    requires signs <= {'-', '+'}
    ensures r.Some? ==> WellFormed(r.value)
  {
    match Search(s, signs)
    case Some(p) => Some(p.1)
    case None => None
  }

  lemma {:induction false} DigitRunAll(s: string)
    requires AllDigits(s)
    ensures DigitRun(s) == s
    decreases |s|
  {
    if s != [] {
      DigitRunAll(s[1..]);
    }
  }

  /** The leftmost match in the decimal text of a natural number is that whole number. */
  lemma NatTextMatches(n: nat, signs: set<char>)
    requires signs <= {'-', '+'}
    ensures FirstNumber(NatToString(n), signs) == Some(Num("", NatToString(n), ""))
    ensures Value(Num("", NatToString(n), "")) == n as real
  {
    NatTextFound(NatToString(n), signs);
    ParseNatToString(n);
    assert Magnitude(Num("", NatToString(n), "")) == ParseNat(NatToString(n)) as real + 0.0 / 1.0;
  }

  /** A run of digits matches, from its first character, as itself. */
  lemma NatTextFound(s: string, signs: set<char>)
    requires signs <= {'-', '+'} && IsDigitString(s)
    ensures FirstNumber(s, signs) == Some(Num("", s, ""))
  {
    var m := Num("", s, "");
    DigitRunAll(s);
    assert s[|s|..] == [];
    assert UnsignedAt(s) == Some(m);
    assert NumberAt(s, signs) == Some(m);
  }

  /** The text `-` followed by the decimal digits of n matches as a signed number when `-` is allowed. */
  lemma NegTextMatches(n: nat)
    ensures FirstNumber("-" + NatToString(n), {'-'}) == Some(Num("-", NatToString(n), ""))
  {
    var s := NatToString(n);
    DigitRunAll(s);
    assert ("-" + s)[1..] == s;
    assert s[|s|..] == [];
  }

  /** A text without digits holds no match. */
  lemma NoNumberWithoutDigits(s: string, signs: set<char>)
    requires signs <= {'-', '+'}
    requires forall i :: 0 <= i < |s| ==> !IsDigit(s[i])
    ensures FirstNumber(s, signs).None?
  {
  }
}
