/**
 * The growth and percentage strings of backend/app/services/recommendation_service.py:
 * `_percent_from_string`, `_format_percent`, `_normalize_growth_trend` and
 * `_shorten_growth_trend`.
 */
module GrowthText {
  import opened Wrappers
  import opened Text
  import opened NumberText
  import opened Rounding

  predicate IsArrow(c: char) { c == '↑' || c == '↓' || c == '→' }

  /** The text after an optional leading arrow, and the arrow. */
  function SplitArrow(text: string): (Option<char>, string)
  {
    if text != [] && IsArrow(text[0]) then (Some(text[0]), Strip(text[1..])) else (None, text)
  }

  function Abs(x: real): real { if x < 0.0 then -x else x }

  /** The number read from the text after the arrow, signed as `_percent_from_string` signs it. */
  function PercentFromText(arrow: Option<char>, t: string): (r: Option<real>)
    ensures r.Some? <==> FirstNumber(t, {'-'}).Some?
    ensures r.Some? ==> Abs(r.value) == Magnitude(FirstNumber(t, {'-'}).value)
    ensures r.Some? ==> (r.value < 0.0 <==>
      Magnitude(FirstNumber(t, {'-'}).value) != 0.0 && (StartsWith(t, "-") || arrow == Some('↓')))
  {
    match FirstNumber(t, {'-'})
    case None => None
    case Some(n) =>
      var p := Value(n);
      if p == 0.0 then Some(0.0)
      else if StartsWith(t, "-") || arrow == Some('↓') then Some(-Abs(p))
      else Some(Abs(p))
  }

  /** `_percent_from_string` on a string value (None stands for Python's None). */
  function PercentFromString(value: Option<string>): (r: Option<real>)
    ensures value.None? || Strip(value.value) == "" ==> r.None?
  {
    if value.None? then None
    else
      var text := Strip(value.value);
      if text == "" then None
      else
        var (arrow, t) := SplitArrow(text);
        PercentFromText(arrow, t)
  }

  lemma StripUnchanged(s: string)
    requires s != [] && !IsSpace(s[0]) && !IsSpace(s[|s| - 1])
    ensures Strip(s) == s
  {
  }

  /** Reading back `str(n)` of a natural number gives that number. */
  lemma PercentOfNatText(n: nat)
    ensures PercentFromString(Some(NatToString(n))) == Some(n as real)
  {
    var s := NatToString(n);
    assert IsDigit(s[0]) && IsDigit(s[|s| - 1]);
    StripUnchanged(s);
    assert SplitArrow(s) == (None, s);
    NatTextMatches(n, {'-'});
    UnsignedPercent(s, n as real);
  }

  lemma UnsignedPercent(s: string, v: real)
    requires s != [] && IsDigit(s[0]) && v >= 0.0
    requires FirstNumber(s, {'-'}) == Some(Num("", s, "")) && Value(Num("", s, "")) == v
    ensures PercentFromText(None, s) == Some(v)
  {
    assert !StartsWith(s, "-");
  }

  /** Reading back `str(-n)` gives the negative number. */
  lemma PercentOfNegText(n: nat)
    requires n > 0
    ensures PercentFromString(Some("-" + NatToString(n))) == Some(-(n as real))
  {
    var d := NatToString(n);
    var s := "-" + d;
    assert s[|s| - 1] == d[|d| - 1];
    assert IsDigit(s[|s| - 1]);
    StripUnchanged(s);
    assert SplitArrow(s) == (None, s);
    NegTextMatches(n);
    NatTextMatches(n, {'-'});
    assert Value(Num("-", d, "")) == -(n as real);
    assert StartsWith(s, "-");
    assert PercentFromText(None, s) == Some(-(n as real));
  }

  /** `_format_percent(x)`: one decimal place, a trailing ".0" dropped. */
  function FormatPercent(x: real): (s: string)
    ensures s != [] && !IsSpace(s[0]) && !IsSpace(s[|s| - 1])
  {
    var k := RoundHalfEven(x * 10.0);
    var sign := if k < 0 then "-" else "";
    var a: nat := if k < 0 then -k else k;
    var last := NatToString(a % 10);
    assert last[0] == DigitChar(a % 10);
    sign + NatToString(a / 10) + (if a % 10 == 0 then "" else "." + last)
  }

  const DefaultPeriod := "12 mo"

  /**
   * The number `_normalize_growth_trend` works with: a finite value, or one of
   * the non-finite floats `float()` reads from "inf", "-inf" or "nan".
   */
  datatype Growth = Finite(x: real) | PosInf | NegInf | NaN

  /** `s.replace(c, "")` for one character. */
  function Without(s: string, c: char): string {
    if s == [] then [] else (if s[0] == c then [] else [s[0]]) + Without(s[1..], c)
  }

  /** `replace` keeps every other character, in order, and drops every `c`. */
  lemma {:induction false} WithoutKeeps(s: string, c: char)
    ensures |Without(s, c)| <= |s|
    ensures forall i :: 0 <= i < |Without(s, c)| ==> Without(s, c)[i] != c
    ensures forall i :: 0 <= i < |s| && s[i] != c ==> s[i] in Without(s, c)
    decreases |s|
  {
    if s != [] {
      WithoutKeeps(s[1..], c);
      var rest := Without(s[1..], c);
      var head: string := if s[0] == c then [] else [s[0]];
      assert Without(s, c) == head + rest;
      forall i | 1 <= i < |s| && s[i] != c
        ensures s[i] in Without(s, c)
      {
        assert s[i] == s[1..][i - 1];
      }
    }
  }

  /**
   * How `float()` reads a stripped, lower-cased text without digits: the
   * infinities and NaN, with an optional sign; None where it raises a ValueError.
   */
  function SpecialWord(l: string): (r: Option<Growth>)
    ensures r == Some(PosInf) <==> l == "inf" || l == "+inf" || l == "infinity" || l == "+infinity"
    ensures r == Some(NegInf) <==> l == "-inf" || l == "-infinity"
    ensures r == Some(NaN) <==> l == "nan" || l == "+nan" || l == "-nan"
    ensures r.Some? ==> !r.value.Finite?
  {
    if l == "inf" || l == "+inf" || l == "infinity" || l == "+infinity" then Some(PosInf)
    else if l == "-inf" || l == "-infinity" then Some(NegInf)
    else if l == "nan" || l == "+nan" || l == "-nan" then Some(NaN)
    else None
  }

  /** `float(t)` of a text without digits: case and surrounding white space do not matter. */
  function SpecialFloat(t: string): (r: Option<Growth>)
    ensures r.Some? ==> !r.value.Finite?
  {
    SpecialWord(Lower(Strip(t)))
  }

  /** A stripped lower-case word reads as itself. */
  lemma SpecialFloatOf(t: string)
    requires t != [] && !IsSpace(t[0]) && !IsSpace(t[|t| - 1])
    requires forall i :: 0 <= i < |t| ==> !('A' <= t[i] <= 'Z')
    ensures SpecialFloat(t) == SpecialWord(t)
  {
    StripUnchanged(t);
    LowerAscii(t);
  }

  /** Lower-casing text that has no upper-case letter changes nothing. */
  lemma {:induction false} LowerAscii(s: string)
    requires forall i :: 0 <= i < |s| ==> !('A' <= s[i] <= 'Z')
    ensures Lower(s) == s
    decreases |s|
  {
    if s != [] {
      LowerAscii(s[1..]);
    }
  }

  /** The arrow `_normalize_growth_trend` writes for a parsed number. */
  function ArrowFor(x: Growth, given: char): (r: char)
    ensures x == PosInf || (x.Finite? && x.x > 0.0) ==> r == '↑'
    ensures x == NegInf || (x.Finite? && x.x < 0.0) ==> r == '↓'
    ensures x == NaN || x == Finite(0.0) ==> r == given
  {
    match x
    case Finite(v) => if v > 0.0 then '↑' else if v < 0.0 then '↓' else given
    case PosInf => '↑'
    case NegInf => '↓'
    case NaN => given
  }

  /** Python `abs` on the number: both infinities become +inf, NaN stays NaN. */
  function AbsGrowth(x: Growth): (r: Growth)
    ensures x.Finite? ==> r == Finite(Abs(x.x))
    ensures x == PosInf || x == NegInf ==> r == PosInf
    ensures x == NaN ==> r == NaN
  {
    match x
    case Finite(v) => Finite(Abs(v))
    case NaN => NaN
    case _ => PosInf
  }

  /** `_format_percent` on the number: `f"{inf:.1f}"` is "inf", and NaN prints "nan". */
  function FormatGrowth(x: Growth): (s: string)
    ensures x.Finite? ==> s == FormatPercent(x.x)
    ensures x == PosInf ==> s == "inf"
    ensures x == NaN ==> s == "nan"
    ensures s != [] && !IsSpace(s[0]) && !IsSpace(s[|s| - 1])
  {
    match x
    case Finite(v) => FormatPercent(v)
    case PosInf => "inf"
    case NegInf => "-inf"
    case NaN => "nan"
  }

  /**
   * The number `_normalize_growth_trend` reads from the text after the arrow:
   * the first `-?\d+(\.\d+)?` match; without one, `float()` of the text with
   * its "%" signs removed (0 for an empty text or one `float()` refuses).
   */
  function GrowthNumber(remainder: string): (r: Growth)
    ensures FirstNumber(remainder, {'-'}).Some? ==> r == Finite(Value(FirstNumber(remainder, {'-'}).value))
    ensures FirstNumber(remainder, {'-'}).None? ==>
      if Without(remainder, '%') != [] && SpecialFloat(Without(remainder, '%')).Some?
      then Some(r) == SpecialFloat(Without(remainder, '%'))
      else r == Finite(0.0)
  {
    match FirstNumber(remainder, {'-'})
    case Some(n) => Finite(Value(n))
    case None =>
      var cleaned := Without(remainder, '%');
      if cleaned == [] then Finite(0.0)
      else match SpecialFloat(cleaned)
        case Some(v) => v
        case None => Finite(0.0)
  }

  /** The arrow a rewritten growth string starts with. */
  function GrowthArrow(text: string): (r: char)
    ensures IsArrow(r)
  {
    var (arrow, remainder) := SplitArrow(text);
    var given := if arrow.Some? then arrow.value else '→';
    assert IsArrow(given);
    ArrowFor(GrowthNumber(remainder), given)
  }

  /** The arrow and the printed magnitude of a rewritten growth string. */
  function GrowthHead(text: string): (r: string)
    ensures |r| > 2 && r[0] == GrowthArrow(text) && IsArrow(r[0]) && r[1] == ' '
  {
    var size := FormatGrowth(AbsGrowth(GrowthNumber(SplitArrow(text).1)));
    [GrowthArrow(text)] + " " + size
  }

  /**
   * The magnitude in the head: the one-decimal size of a finite number,
   * "inf" for either infinity, "nan" for NaN.
   */
  lemma HeadSize(text: string)
    ensures var n := GrowthNumber(SplitArrow(text).1);
      && (n.Finite? ==> GrowthHead(text)[2..] == FormatPercent(Abs(n.x)))
      && (n == PosInf || n == NegInf ==> GrowthHead(text)[2..] == "inf")
      && (n == NaN ==> GrowthHead(text)[2..] == "nan")
  {
    var m := FormatGrowth(AbsGrowth(GrowthNumber(SplitArrow(text).1)));
    assert GrowthHead(text)[2..] == m;
  }

  /** `_normalize_growth_trend(value)` with the default period "12 mo". */
  function NormalizeGrowthTrend(value: Option<string>): (r: string)
    ensures value.None? || Strip(value.value) == "" ==> r == "→ 0% change (12 mo)"
    ensures value.Some? && Contains(Strip(value.value), "%") && Contains(Strip(value.value), "change")
      ==> r == Strip(value.value)
    ensures r != []
  {
    if value.None? then "→ 0" + PeriodTail
    else
      var text := Strip(value.value);
      if text == "" then "→ 0" + PeriodTail
      else if Contains(text, "%") && Contains(text, "change") then text
      else GrowthHead(text) + PeriodTail
  }

  /**
   * A text that is rewritten becomes "arrow magnitude% change (12 mo)": the
   * arrow points the way of the number read, finite or infinite, and stays as
   * given for 0 and NaN; the magnitude is the one-decimal size of a finite
   * number, "inf" for either infinity and "nan" for NaN.
   */
  lemma NormalizedShape(value: Option<string>)
    requires value.Some? && Strip(value.value) != ""
    requires !(Contains(Strip(value.value), "%") && Contains(Strip(value.value), "change"))
    ensures var text := Strip(value.value);
      var n := GrowthNumber(SplitArrow(text).1);
      && NormalizeGrowthTrend(value) == [GrowthArrow(text)] + " " + FormatGrowth(AbsGrowth(n)) + PeriodTail
      && Contains(NormalizeGrowthTrend(value), "% change")
      && (n == PosInf || (n.Finite? && n.x > 0.0) ==> NormalizeGrowthTrend(value)[0] == '↑')
      && (n == NegInf || (n.Finite? && n.x < 0.0) ==> NormalizeGrowthTrend(value)[0] == '↓')
      && (n == NaN || n == Finite(0.0) ==>
            NormalizeGrowthTrend(value)[0] == (if SplitArrow(text).0.Some? then SplitArrow(text).0.value else '→'))
      && (n.Finite? ==> NormalizeGrowthTrend(value) == [GrowthArrow(text)] + " " + FormatPercent(Abs(n.x)) + PeriodTail)
      && (n == PosInf || n == NegInf ==> NormalizeGrowthTrend(value) == [GrowthArrow(text)] + " inf" + PeriodTail)
      && (n == NaN ==> NormalizeGrowthTrend(value) == [GrowthArrow(text)] + " nan" + PeriodTail)
  {
    var text := Strip(value.value);
    var (arrow, remainder) := SplitArrow(text);
    var n := GrowthNumber(remainder);
    var head := GrowthHead(text);
    var r := NormalizeGrowthTrend(value);
    assert r == head + PeriodTail;
    assert head == [GrowthArrow(text)] + " " + FormatGrowth(AbsGrowth(n));
    TailHasChange();
    ContainsAppend(head, PeriodTail, "% change");
    ShapeOf(if arrow.Some? then arrow.value else '→', n, r);
  }

  /** What a rewritten text shows for each kind of number. */
  lemma ShapeOf(given: char, n: Growth, r: string)
    requires r == [ArrowFor(n, given)] + " " + FormatGrowth(AbsGrowth(n)) + PeriodTail
    ensures n == PosInf || (n.Finite? && n.x > 0.0) ==> r[0] == '↑'
    ensures n == NegInf || (n.Finite? && n.x < 0.0) ==> r[0] == '↓'
    ensures n == NaN || n == Finite(0.0) ==> r[0] == given
    ensures n.Finite? ==> r == [ArrowFor(n, given)] + " " + FormatPercent(Abs(n.x)) + PeriodTail
    ensures n == PosInf || n == NegInf ==> r == [ArrowFor(n, given)] + " inf" + PeriodTail
    ensures n == NaN ==> r == [ArrowFor(n, given)] + " nan" + PeriodTail
  {
  }

  /** A text without the character holds no text starting with it. */
  lemma {:induction false} NoCharNotContained(s: string, c: char)
    requires forall i :: 0 <= i < |s| ==> s[i] != c
    ensures !Contains(s, [c])
    decreases |s|
  {
    if s != [] {
      assert s[..1][0] == s[0];
      NoCharNotContained(s[1..], c);
    }
  }

  /** A text without '%' is kept by `replace("%", "")`. */
  lemma {:induction false} WithoutAbsent(s: string, c: char)
    requires forall i :: 0 <= i < |s| ==> s[i] != c
    ensures Without(s, c) == s
    decreases |s|
  {
    if s != [] {
      WithoutAbsent(s[1..], c);
    }
  }

  /**
   * A trimmed lower-case word without digits, "%" or a leading arrow is
   * rewritten from what `float()` makes of it: the arrow of its sign and its
   * printed size, 0 when `float()` refuses it.
   */
  lemma WordGrowth(w: string)
    requires w != [] && !IsSpace(w[0]) && !IsSpace(w[|w| - 1]) && !IsArrow(w[0])
    requires forall i :: 0 <= i < |w| ==> !IsDigit(w[i]) && w[i] != '%' && !('A' <= w[i] <= 'Z')
    ensures var n := if SpecialWord(w).Some? then SpecialWord(w).value else Finite(0.0);
      NormalizeGrowthTrend(Some(w)) == [ArrowFor(n, '→')] + " " + FormatGrowth(AbsGrowth(n)) + PeriodTail
  {
    StripUnchanged(w);
    NoCharNotContained(w, '%');
    assert "%" == ['%'];
    assert SplitArrow(w) == (None, w);
    NoNumberWithoutDigits(w, {'-'});
    WithoutAbsent(w, '%');
    SpecialFloatOf(w);
    NormalizedShape(Some(w));
  }

  /** "inf" has no digits, so `float()` reads +inf: "↑ inf% change (12 mo)". */
  lemma InfGrowthUp()
    ensures NormalizeGrowthTrend(Some("inf")) == "↑ inf" + PeriodTail
  {
    var w := "inf";
    assert SpecialWord(w) == Some(PosInf) by {
      assert w[0] == 'i' && w[1] == 'n' && w[2] == 'f';
    }
    assert forall i :: 0 <= i < |w| ==> !IsDigit(w[i]) && w[i] != '%' && !('A' <= w[i] <= 'Z') by {
      assert w[0] == 'i' && w[1] == 'n' && w[2] == 'f';
    }
    assert [ArrowFor(PosInf, '→')] + " " + FormatGrowth(AbsGrowth(PosInf)) == "↑ inf";
    WordGrowth(w);
  }

  /** "-inf" reads as -inf: the arrow points down and the size prints "inf". */
  lemma NegInfGrowthDown()
    ensures NormalizeGrowthTrend(Some("-inf")) == "↓ inf" + PeriodTail
  {
    var w := "-inf";
    assert SpecialWord(w) == Some(NegInf) by {
      assert w[0] == '-' && w[1] == 'i' && w[2] == 'n' && w[3] == 'f';
    }
    assert forall i :: 0 <= i < |w| ==> !IsDigit(w[i]) && w[i] != '%' && !('A' <= w[i] <= 'Z') by {
      assert w[0] == '-' && w[1] == 'i' && w[2] == 'n' && w[3] == 'f';
    }
    assert [ArrowFor(NegInf, '→')] + " " + FormatGrowth(AbsGrowth(NegInf)) == "↓ inf";
    WordGrowth(w);
  }

  /** "nan" is neither positive nor negative: the arrow stays "→" and the size prints "nan". */
  lemma NaNGrowthFlat()
    ensures NormalizeGrowthTrend(Some("nan")) == "→ nan" + PeriodTail
  {
    var w := "nan";
    assert SpecialWord(w) == Some(NaN) by {
      assert w[0] == 'n' && w[1] == 'a' && w[2] == 'n';
    }
    assert forall i :: 0 <= i < |w| ==> !IsDigit(w[i]) && w[i] != '%' && !('A' <= w[i] <= 'Z') by {
      assert w[0] == 'n' && w[1] == 'a' && w[2] == 'n';
    }
    assert [ArrowFor(NaN, '→')] + " " + FormatGrowth(AbsGrowth(NaN)) == "→ nan";
    WordGrowth(w);
  }

  /** `_format_percent(0.0)` is "0". */
  lemma FormatZero()
    ensures FormatPercent(0.0) == "0"
  {
    assert RoundHalfEven(0.0 * 10.0) == 0;
    assert NatToString(0) == "0";
    assert NatToString(0 / 10) == "0";
  }

  /** A digit-free text `float()` refuses reads as 0: "→ 0% change (12 mo)". */
  lemma WordGrowthZero()
    ensures NormalizeGrowthTrend(Some("n/a")) == "→ 0" + PeriodTail
  {
    var w := "n/a";
    assert SpecialWord(w).None? by {
      assert w[0] == 'n' && w[1] == '/' && w[2] == 'a';
    }
    assert [ArrowFor(Finite(0.0), '→')] + " " + FormatGrowth(AbsGrowth(Finite(0.0))) == "→ 0" by {
      FormatZero();
    }
    assert forall i :: 0 <= i < |w| ==> !IsDigit(w[i]) && w[i] != '%' && !('A' <= w[i] <= 'Z') by {
      assert w[0] == 'n' && w[1] == '/' && w[2] == 'a';
    }
    WordGrowth(w);
  }

  lemma TailHasChange()
    ensures Contains(PeriodTail, "% change")
  {
    ContainsPrefix(PeriodTail, [], "% change");
    assert PeriodTail + [] == PeriodTail;
  }

  /** The text every generated growth string ends with. */
  const PeriodTail := "% change (" + DefaultPeriod + ")"

  lemma TailMarks(head: string)
    ensures Contains(head + PeriodTail, "%") && Contains(head + PeriodTail, "change")
  {
    var t := PeriodTail;
    assert StartsWith(t, "%");
    assert StartsWith(t[2..], "change");
    assert Contains(t[2..], "change");
    assert t == t[..2] + t[2..];
    ContainsAppend(t[..2], t[2..], "change");
    ContainsAppend(head, t, "change");
    ContainsPrefix(t, [], "%");
    assert t + [] == t;
    ContainsAppend(head, t, "%");
  }

  lemma TailStripped(head: string)
    requires head != [] && !IsSpace(head[0])
    ensures Strip(head + PeriodTail) == head + PeriodTail
  {
    var r := head + PeriodTail;
    assert r[|r| - 1] == ')';
    StripUnchanged(r);
  }

  lemma IdempotentOnDefault()
    ensures NormalizeGrowthTrend(Some("→ 0" + PeriodTail)) == "→ 0" + PeriodTail
  {
    TailMarks("→ 0");
    TailStripped("→ 0");
  }

  lemma IdempotentOnBuilt(head: string)
    requires head != [] && !IsSpace(head[0])
    ensures NormalizeGrowthTrend(Some(head + PeriodTail)) == head + PeriodTail
  {
    TailMarks(head);
    TailStripped(head);
  }

  /** Normalising an already normalised growth string returns it unchanged. */
  lemma NormalizeIdempotent(value: Option<string>)
    ensures NormalizeGrowthTrend(Some(NormalizeGrowthTrend(value))) == NormalizeGrowthTrend(value)
  {
    if value.None? || Strip(value.value) == "" {
      IdempotentOnDefault();
    } else if Contains(Strip(value.value), "%") && Contains(Strip(value.value), "change") {
      StripStable(value.value);
    } else {
      RewrittenIsHead(value);
      HeadArrow(Strip(value.value));
      IdempotentOnBuilt(GrowthHead(Strip(value.value)));
    }
  }

  /** A text that is neither empty nor already marked is rewritten from its head. */
  lemma RewrittenIsHead(value: Option<string>)
    requires value.Some? && Strip(value.value) != ""
    requires !(Contains(Strip(value.value), "%") && Contains(Strip(value.value), "change"))
    ensures NormalizeGrowthTrend(value) == GrowthHead(Strip(value.value)) + PeriodTail
  {
  }

  /** A rewritten head starts with its arrow, never with white space. */
  lemma HeadArrow(text: string)
    ensures !IsSpace(GrowthHead(text)[0])
  {
  }

  lemma StripStable(s: string)
    ensures Strip(Strip(s)) == Strip(s)
  {
    var t := Strip(s);
    if t != [] {
      StripUnchanged(t);
    }
  }

  // ---------------------------------------------------------------
  // Short growth strings (the String(8) growth_trend column)
  // ---------------------------------------------------------------

  /** The text `f"{arrow} {percent}%"` shortened to at most 8 characters, as the tail of `_shorten_growth_trend` does. */
  function FitEight(arrow: string, percent: string): (r: string)
    ensures |r| <= 8
  {
    var short := Strip(arrow + " " + percent + "%");
    if |short| <= 8 then short
    else if IsDigitString(percent) then
      var compact := Strip(arrow + percent + "%");
      if |compact| <= 8 then compact else Take(compact, 8)
    else Take(short, 8)
  }

  /** The arrow at the head of the stripped text, as a string ("" when none). */
  function LeadingArrow(text: string): string {
    if text != [] && IsArrow(text[0]) then [text[0]] else ""
  }

  /**
   * The percentage text `_shorten_growth_trend` keeps, as written: the
   * matched number loses every trailing "0" and then every trailing ".",
   * so a whole number ending in 0 loses digits ("10" becomes "1").
   */
  function PercentTextAsWritten(m: Option<Num>): (r: string)
    ensures r != []
  {
    var percent := if m.Some? then NumText(m.value) else "0";
    var trimmed := RStripChar(RStripChar(percent, '0'), '.');
    if trimmed == "" then "0" else trimmed
  }

  /** A number's text with the trailing zeros of its fraction dropped ("10" stays, "2.50" becomes "2.5", "3.0" becomes "3"). */
  function TrimFraction(n: Num): string {
    var f := RStripChar(n.frac, '0');
    n.sign + n.whole + (if f == [] then "" else "." + f)
  }

  /** The percentage text with zeros dropped from the fraction only. */
  function PercentText(m: Option<Num>): string {
    if m.Some? then TrimFraction(m.value) else "0"
  }

  /** `_shorten_growth_trend` as written. */
  function ShortenGrowthTrendAsWritten(value: Option<string>): (r: Option<string>)
    ensures r.None? <==> value.None? || Strip(value.value) == ""
    ensures r.Some? ==> |r.value| <= 8
  {
    if value.None? || value.value == "" then None
    else
      var text := Strip(value.value);
      if text == "" then None
      else Some(FitEight(LeadingArrow(text), PercentTextAsWritten(FirstNumber(text, {'-'}))))
  }

  /** `_shorten_growth_trend` with the whole part of the number kept. */
  function ShortenGrowthTrend(value: Option<string>): (r: Option<string>)
    ensures r.None? <==> value.None? || Strip(value.value) == ""
    ensures r.Some? ==> |r.value| <= 8
  {
    if value.None? || value.value == "" then None
    else
      var text := Strip(value.value);
      if text == "" then None
      else Some(FitEight(LeadingArrow(text), PercentText(FirstNumber(text, {'-'}))))
  }

  lemma ParseNatAppendZero(s: string)
    requires AllDigits(s)
    ensures AllDigits(s + "0") && ParseNat(s + "0") == 10 * ParseNat(s)
  {
    assert (s + "0")[..|s|] == s;
  }

  lemma ScaleFraction(a: nat, p: nat)
    requires p > 0
    ensures (10 * a) as real / (10 * p) as real == a as real / p as real
  {
    var x := a as real / p as real;
    assert x * p as real == a as real;
    assert x * (10 * p) as real == (10 * a) as real;
  }

  /** Dropping trailing zeros of a fraction keeps its value. */
  lemma {:induction false} FractionZerosKeepValue(f: string)
    requires AllDigits(f)
    ensures AllDigits(RStripChar(f, '0'))
    ensures ParseNat(RStripChar(f, '0')) as real / Pow10(|RStripChar(f, '0')|) as real
         == ParseNat(f) as real / Pow10(|f|) as real
    decreases |f|
  {
    if f != [] && f[|f| - 1] == '0' {
      var g := f[..|f| - 1];
      assert RStripChar(f, '0') == RStripChar(g, '0');
      assert f == g + "0";
      FractionZerosKeepValue(g);
      ParseNatAppendZero(g);
      assert ParseNat(f) == 10 * ParseNat(g);
      assert Pow10(|f|) == 10 * Pow10(|g|);
      ScaleFraction(ParseNat(g), Pow10(|g|));
    }
  }

  /** The corrected shortening keeps the number's value. */
  lemma TrimFractionKeepsValue(n: Num)
    requires WellFormed(n)
    ensures var f := RStripChar(n.frac, '0');
      WellFormed(Num(n.sign, n.whole, f)) && Value(Num(n.sign, n.whole, f)) == Value(n)
      && NumText(Num(n.sign, n.whole, f)) == TrimFraction(n)
  {
    FractionZerosKeepValue(n.frac);
  }

  /** As written, a whole number ending in 0 loses a digit; the corrected text keeps it. */
  lemma WholeTrailingZeroLost(n: Num)
    requires WellFormed(n) && n.frac == "" && |n.whole| >= 2 && n.whole[|n.whole| - 1] == '0'
    ensures |PercentTextAsWritten(Some(n))| < |NumText(n)|
    ensures PercentText(Some(n)) == NumText(n)
  {
    var t := NumText(n);
    assert t == n.sign + n.whole;
    assert t[|t| - 1] == '0';
    var z := RStripChar(t, '0');
    assert |z| < |t|;
    assert RStripChar("", '0') == "";
  }

  /** The input that shows it: in "↑ 10%" the number found is 10, kept as "1" as written and "10" when corrected. */
  lemma ShortenTenPercent()
    ensures FirstNumber("↑ 10%", {'-'}) == Some(Num("", "10", ""))
    ensures PercentTextAsWritten(FirstNumber("↑ 10%", {'-'})) == "1"
    ensures PercentText(FirstNumber("↑ 10%", {'-'})) == "10"
  {
    var t := "↑ 10%";
    assert t[2..] == "10%";
    assert DigitRun("10%") == "10";
    assert UnsignedAt("10%") == Some(Num("", "10", ""));
    assert NumberAt(t[2..], {'-'}) == Some(Num("", "10", ""));
    assert NumberAt(t[0..], {'-'}).None? && NumberAt(t[1..], {'-'}).None?;
    assert NumText(Num("", "10", "")) == "10";
    assert RStripChar("10", '0') == "1";
    assert RStripChar("1", '.') == "1";
    assert RStripChar("", '0') == "";
  }
}
