/**
 * frontend/src/components/CareerPathCard.tsx: the card a recommendation is
 * shown on, the bullet cleaning of its reasons, the growth badge read from
 * the short growth string, and the slices of reasons and skills the card
 * displays.
 */
module CareerPathCard {
  import opened Wrappers
  import opened Text
  import opened NumberText

  datatype Reason = Reason(icon: string, text: string)

  /** The `card` prop. `id` is what ExploreMatches passes as `currentCard.id!`, which may still be null. */
  datatype CardView = CardView(
    id: Option<int>, title: string, industries: string, matchPercentage: int, growth: string,
    reasons: seq<Reason>, skills: seq<string>, tips: seq<string>, isBookmarked: bool)

  /** `cleanText`: a match of `^•\s*` is removed (one leading bullet and the spaces after it), then the text is trimmed. */
  function CleanText(text: string): (r: string)
    ensures r == [] || (!IsSpace(r[0]) && !IsSpace(r[|r| - 1]))
    ensures !StartsWith(text, "•") ==> r == Strip(text)
    ensures StartsWith(text, "•") ==> r == Strip(text[1..])
  {
    var t := if StartsWith(text, "•") then LStrip(text[1..]) else text;
    assert StartsWith(text, "•") ==> Strip(t) == Strip(text[1..]) by {
      if StartsWith(text, "•") {
        LStripTwice(text[1..]);
      }
    }
    Strip(t)
  }

  lemma LStripTwice(s: string)
    ensures LStrip(LStrip(s)) == LStrip(s)
  {
  }

  /** A trimmed text is its own strip. */
  lemma {:induction false} StripTrimmed(t: string)
    requires t == [] || (!IsSpace(t[0]) && !IsSpace(t[|t| - 1]))
    ensures Strip(t) == t
  {
  }

  /** The backend's "• " bullets come off, and a trimmed text without a bullet is left alone. */
  lemma CleanBullet(t: string)
    requires t == [] || (!IsSpace(t[0]) && !IsSpace(t[|t| - 1]))
    ensures CleanText("• " + t) == t
    ensures !StartsWith(t, "•") ==> CleanText(t) == t
  {
    var s := "• " + t;
    assert StartsWith(s, "•");
    assert s[1..] == " " + t;
    assert LStrip(" " + t) == LStrip(t) by {
      assert (" " + t)[1..] == t;
    }
    StripTrimmed(t);
  }

  /** Only one bullet is removed: "••x" is shown as "•x". */
  lemma OneBulletOnly()
    ensures CleanText("••x") == "•x"
  {
    assert StartsWith("••x", "•");
    assert "••x"[1..] == "•x";
    StripTrimmed("•x");
  }

  // ---------------------------------------------------------------
  // parseGrowth
  // ---------------------------------------------------------------

  datatype Trend = Up | Down | Stable

  /** The badge: its icon and colour follow `kind`, `value` is the text shown. */
  datatype GrowthBadge = GrowthBadge(kind: Trend, value: string)

  /** `growthStr.match(/[-+]?\d+(\.\d+)?/)?.[0] ?? "0"` */
  function MatchedNumber(s: string): (r: string)
    ensures r != []
  {
    match FirstNumber(s, {'-', '+'})
    case Some(n) => assert n.whole != []; NumText(n)
    case None => "0"
  }

  /** `parseGrowth(growthStr)` */
  function ParseGrowth(growthStr: string): (r: GrowthBadge)
    ensures growthStr == "" ==> r == GrowthBadge(Stable, "0%")
    ensures growthStr != "" ==> var t := Strip(growthStr);
      && (t != [] && t[0] == '↑' <==> r.kind == Up)
      && (t != [] && t[0] == '↓' <==> r.kind == Down)
      && (r.kind == Up ==> r.value == "+" + MatchedNumber(growthStr) + "%")
      && (r.kind == Down ==> r.value == "-" + MatchedNumber(growthStr) + "%")
      && (r.kind == Stable ==> r.value == MatchedNumber(growthStr) + "%")
  {
    if growthStr == "" then GrowthBadge(Stable, "0%")
    else
      var trimmed := Strip(growthStr);
      var arrow := if trimmed != [] then [trimmed[0]] else "";
      var number := MatchedNumber(growthStr);
      if arrow == "↑" then GrowthBadge(Up, "+" + number + "%")
      else if arrow == "↓" then GrowthBadge(Down, "-" + number + "%")
      else GrowthBadge(Stable, number + "%")
  }

  /** Greedy `\d+` stops at the first non-digit. */
  lemma {:induction false} DigitRunStops(w: string, rest: string)
    requires AllDigits(w)
    requires rest == [] || !IsDigit(rest[0])
    ensures DigitRun(w + rest) == w
    decreases |w|
  {
    if w == [] {
      assert w + rest == rest;
    } else {
      assert (w + rest)[1..] == w[1..] + rest;
      DigitRunStops(w[1..], rest);
      assert [w[0]] + w[1..] == w;
    }
  }

  /** Digits followed by "%" match as those digits. */
  lemma PercentDigits(d: string)
    requires IsDigitString(d)
    ensures UnsignedAt(d + "%") == Some(Num("", d, ""))
  {
    DigitRunStops(d, "%");
    assert (d + "%")[|d|..] == "%";
  }

  /** A character where no number starts moves the leftmost match one place on. */
  lemma SearchSkips(c: char, rest: string, k: nat, n: Num)
    requires NumberAt([c] + rest, {'-', '+'}).None?
    requires Search(rest, {'-', '+'}) == Some((k, n))
    ensures Search([c] + rest, {'-', '+'}) == Some((k + 1, n))
  {
    assert ([c] + rest)[1..] == rest;
  }

  /** In "A D%" with an arrow A and digits D, the number found is D. */
  lemma ShortTrendNumber(a: char, d: string)
    requires a == '↑' || a == '↓' || a == '→'
    requires IsDigitString(d)
    ensures FirstNumber([a] + " " + d + "%", {'-', '+'}) == Some(Num("", d, ""))
  {
    var t := d + "%";
    PercentDigits(d);
    assert Search(t, {'-', '+'}) == Some((0, Num("", d, "")));
    SearchSkips(' ', t, 0, Num("", d, ""));
    SearchSkips(a, " " + t, 1, Num("", d, ""));
    assert [a] + " " + d + "%" == [a] + (" " + t);
  }

  /** A short growth string with a whole percentage ("↑ 5%", "↓ 3%", "→ 0%") gives the badge its arrow means, the sign written out. */
  lemma ParseShortTrend(a: char, d: string)
    requires a == '↑' || a == '↓' || a == '→'
    requires IsDigitString(d)
    ensures ParseGrowth([a] + " " + d + "%") ==
      if a == '↑' then GrowthBadge(Up, "+" + d + "%")
      else if a == '↓' then GrowthBadge(Down, "-" + d + "%")
      else GrowthBadge(Stable, d + "%")
  {
    var s := [a] + " " + d + "%";
    ShortTrendNumber(a, d);
    assert NumText(Num("", d, "")) == d;
    assert !IsSpace(s[0]) && !IsSpace(s[|s| - 1]);
    StripTrimmed(s);
  }

  lemma DownMinusNumber(d: string)
    requires IsDigitString(d)
    ensures FirstNumber(['↓'] + " " + ("-" + d) + "%", {'-', '+'}) == Some(Num("-", d, ""))
  {
    var t := d + "%";
    var u := "-" + t;
    PercentDigits(d);
    assert u[1..] == t;
    assert NumberAt(u, {'-', '+'}) == Some(Num("-", d, ""));
    assert Search(u, {'-', '+'}) == Some((0, Num("-", d, "")));
    SearchSkips(' ', u, 0, Num("-", d, ""));
    SearchSkips('↓', " " + u, 1, Num("-", d, ""));
    assert ['↓'] + " " + ("-" + d) + "%" == ['↓'] + (" " + u);
  }

  /** A falling trend written with its own minus sign shows two: "↓ -5%" becomes "--5%". */
  lemma DownWithMinusDoubled(d: string)
    requires IsDigitString(d)
    ensures ParseGrowth(['↓'] + " " + ("-" + d) + "%") == GrowthBadge(Down, "-" + ("-" + d) + "%")
  {
    var s := ['↓'] + " " + ("-" + d) + "%";
    DownMinusNumber(d);
    assert NumText(Num("-", d, "")) == "-" + d;
    assert !IsSpace(s[0]) && !IsSpace(s[|s| - 1]);
    StripTrimmed(s);
  }

  /** ExploreMatches' default "→ 0%" shows as a stable "0%", as an empty string does. */
  lemma DefaultTrendStable()
    ensures ParseGrowth("→ 0%") == GrowthBadge(Stable, "0%")
    ensures ParseGrowth("") == GrowthBadge(Stable, "0%")
  {
    var d := "0";
    assert IsDigitString(d);
    var s := ['→'] + " " + d + "%";
    assert s == "→ 0%";
    ParseShortTrend('→', d);
  }

  // ---------------------------------------------------------------
  // What the card displays
  // ---------------------------------------------------------------

  /** `card.reasons.slice(0, 2)`, each through `cleanText`. */
  function ShownReasons(card: CardView): (r: seq<string>)
    ensures |r| == if |card.reasons| < 2 then |card.reasons| else 2
    ensures forall i :: 0 <= i < |r| ==> r[i] == CleanText(card.reasons[i].text)
  {
    var first := Take(card.reasons, 2);
    seq(|first|, i requires 0 <= i < |first| => CleanText(first[i].text))
  }

  /** `card.skills.slice(0, 4)` */
  function ShownSkills(card: CardView): (r: seq<string>)
    ensures |r| == if |card.skills| < 4 then |card.skills| else 4
    ensures r == card.skills[..|r|]
  {
    Take(card.skills, 4)
  }

  /** The bookmark button asks for the opposite of what is shown. */
  function BookmarkRequest(card: CardView): (Option<int>, bool) {
    (card.id, !card.isBookmarked)
  }
}
