/**
 * frontend/src/pages/ExploreMatches.tsx: the carousel of recommendation
 * cards.  The page holds the list of recommendations and the index of the
 * card shown; the handlers below are its state updates once the request
 * they make has succeeded (a failed request leaves the state as it was).
 */
module ExploreMatchesPage {
  import opened Wrappers
  import opened Text
  import opened Ordering
  import opened Rounding
  import opened CareerPathCard
  import Explanation

  /** One item of the latest batch (`CareerCard`); the salary range is not modelled. */
  datatype Rec = Rec(
    id: Option<int>, title: string, fitScore: real, growthTrend: Option<string>,
    industryTag: Option<string>, whyThisFits: Option<string>, topSkills: Option<seq<string>>,
    tips: Option<seq<string>>, userAction: Option<string>)

  // ---------------------------------------------------------------
  // From a recommendation to the card
  // ---------------------------------------------------------------

  const Icons: seq<string> := ["check", "users", "code", "lightbulb", "target", "message"]

  /** `Boolean(line)` */
  function NonEmpty(line: string): bool { line != "" }

  /** `why.split("\n").filter(Boolean)`, each line with the icon of its position. */
  function ReasonsOf(why: string): (r: seq<Reason>)
    ensures |r| == |Filter(Split(why, '\n'), NonEmpty)|
    ensures forall k :: 0 <= k < |r| ==> r[k].text == Filter(Split(why, '\n'), NonEmpty)[k]
    ensures forall k :: 0 <= k < |r| ==> r[k].icon == Icons[k % 6] && r[k].text != "" && '\n' !in r[k].text
  {
    var lines := Filter(Split(why, '\n'), NonEmpty);
    assert forall k :: 0 <= k < |lines| ==> lines[k] in lines;
    seq(|lines|, k requires 0 <= k < |lines| => Reason(Icons[k % 6], lines[k]))
  }

  function Texts(rs: seq<Reason>): (r: seq<string>)
    ensures |r| == |rs| && forall k :: 0 <= k < |rs| ==> r[k] == rs[k].text
  {
    seq(|rs|, k requires 0 <= k < |rs| => rs[k].text)
  }

  /** Without blank lines nothing is dropped: joining the reasons' texts gives back the explanation. */
  lemma ReasonsRejoin(why: string)
    requires forall k :: 0 <= k < |Split(why, '\n')| ==> Split(why, '\n')[k] != ""
    ensures Join(Texts(ReasonsOf(why)), "\n") == why
  {
    FilterAll(Split(why, '\n'), NonEmpty);
    assert Texts(ReasonsOf(why)) == Split(why, '\n');
    SplitJoin(why, '\n');
  }

  /** `x || fallback` for an optional string. */
  function OrText(x: Option<string>, fallback: string): (r: string)
    ensures x.Some? && x.value != "" ==> r == x.value
    ensures x.None? || x.value == "" ==> r == fallback
  {
    if x.Some? && x.value != "" then x.value else fallback
  }

  /** `x || []` for an optional array: an empty array is truthy and is kept. */
  function OrEmpty(x: Option<seq<string>>): seq<string> {
    if x.Some? then x.value else []
  }

  /** The `card` prop built for the current recommendation. */
  function ToCard(rec: Rec): (c: CardView)
    ensures c.id == rec.id && c.title == rec.title && c.matchPercentage == MathRound(rec.fitScore)
    ensures c.industries != "" && c.growth != ""
    ensures rec.industryTag.Some? && rec.industryTag.value != "" ==> c.industries == rec.industryTag.value
    ensures rec.growthTrend.Some? && rec.growthTrend.value != "" ==> c.growth == rec.growthTrend.value
    ensures c.skills == (if rec.topSkills.Some? then rec.topSkills.value else [])
    ensures c.tips == (if rec.tips.Some? then rec.tips.value else [])
    ensures c.isBookmarked <==> rec.userAction == Some("saved")
  {
    CardView(rec.id, rec.title, OrText(rec.industryTag, "General"), MathRound(rec.fitScore),
      OrText(rec.growthTrend, "→ 0%"), ReasonsOf(OrText(rec.whyThisFits, "")),
      OrEmpty(rec.topSkills), OrEmpty(rec.tips), rec.userAction == Some("saved"))
  }

  /** A fit score between 0 and 100 shows as a whole percentage between 0 and 100. */
  lemma MatchPercentBounds(rec: Rec)
    requires 0.0 <= rec.fitScore <= 100.0
    ensures 0 <= ToCard(rec).matchPercentage <= 100
  {
  }

  /** A missing growth trend shows as the stable "0%" badge. */
  lemma MissingTrendStable(rec: Rec)
    requires rec.growthTrend.None? || rec.growthTrend == Some("")
    ensures ParseGrowth(ToCard(rec).growth) == GrowthBadge(Stable, "0%")
  {
    DefaultTrendStable();
  }

  /** Two lines without line breaks split into those two lines. */
  lemma SplitTwoLines(first: string, second: string)
    requires '\n' !in first && '\n' !in second
    ensures Split(first + "\n" + second, '\n') == [first, second]
  {
    SplitAtSeparator(first, '\n', second);
    SplitNoSeparator(second, '\n');
  }

  lemma BulletNoBreak(a: string)
    requires '\n' !in a
    ensures '\n' !in "• " + a
  {
    var s := "• " + a;
    assert forall i :: 2 <= i < |s| ==> s[i] == a[i - 2];
  }

  /** Two bullet lines become two reasons, shown without their bullets. */
  lemma BulletPairShown(a: string, b: string, rec: Rec)
    requires '\n' !in a && '\n' !in b
    requires rec.whyThisFits == Some(("• " + a) + "\n" + ("• " + b))
    ensures ShownReasons(ToCard(rec)) == [Strip(a), Strip(b)]
  {
    var card := ToCard(rec);
    assert card.reasons == ReasonsOf(("• " + a) + "\n" + ("• " + b));
    TwoReasons(a, b);
    ShownOfTwo(card, "• " + a, "• " + b);
    BulletStripped(a);
    BulletStripped(b);
  }

  /** A card with exactly two reasons shows both, cleaned. */
  lemma ShownOfTwo(card: CardView, x: string, y: string)
    requires |card.reasons| == 2 && card.reasons[0].text == x && card.reasons[1].text == y
    ensures ShownReasons(card) == [CleanText(x), CleanText(y)]
  {
    var r := ShownReasons(card);
    PairOf(r);
  }

  lemma {:induction false} PairOf<T>(r: seq<T>)
    requires |r| == 2
    ensures r == [r[0], r[1]]
  {
  }

  /** Two bullet lines give two reasons holding those lines. */
  lemma TwoReasons(a: string, b: string)
    requires '\n' !in a && '\n' !in b
    ensures var r := ReasonsOf(("• " + a) + "\n" + ("• " + b));
      |r| == 2 && r[0].text == "• " + a && r[1].text == "• " + b
  {
    var first, second := "• " + a, "• " + b;
    BulletNoBreak(a);
    BulletNoBreak(b);
    SplitTwoLines(first, second);
    FilterAll([first, second], NonEmpty);
  }

  lemma BulletStripped(a: string)
    ensures CleanText("• " + a) == Strip(a)
  {
    var s := "• " + a;
    assert StartsWith(s, "•");
    assert s[1..] == " " + a;
    assert (" " + a)[1..] == a;
  }

  /** The backend's fallback explanation appears on the card as its two sentences. */
  lemma FallbackExplanationShown(matchedSkills: seq<string>, themes: seq<string>, roleTitle: string,
                                 coachContext: string, rec: Rec)
    requires '\n' !in Explanation.FallbackFirst(matchedSkills, themes, roleTitle)
    requires '\n' !in Explanation.FallbackSecond(matchedSkills, coachContext)
    requires rec.whyThisFits == Some(Explanation.ExplanationFallback(matchedSkills, themes, roleTitle, coachContext))
    ensures ShownReasons(ToCard(rec)) ==
      [Strip(Explanation.FallbackFirst(matchedSkills, themes, roleTitle)), Strip(Explanation.FallbackSecond(matchedSkills, coachContext))]
  {
    BulletPairShown(Explanation.FallbackFirst(matchedSkills, themes, roleTitle),
      Explanation.FallbackSecond(matchedSkills, coachContext), rec);
  }

  // ---------------------------------------------------------------
  // The carousel index
  // ---------------------------------------------------------------

  /** JavaScript `a % n` for a length `n`: the remainder takes the dividend's sign, and `% 0` is NaN (None). */
  function JsRem(a: int, n: nat): (r: Option<int>)
    ensures n == 0 <==> r.None?
    ensures r.Some? && a >= 0 ==> r.value == a % n
    ensures r.Some? && a < 0 ==> r.value == -((-a) % n)
  {
    if n == 0 then None
    else if a >= 0 then Some(a % n)
    else Some(-((-a) % n))
  }

  /** `handleNext`: `(prev + 1) % recommendations.length` */
  function NextIndex(i: int, n: nat): Option<int> { JsRem(i + 1, n) }

  /** `handlePrevious`: `(prev - 1 + recommendations.length) % recommendations.length` */
  function PrevIndex(i: int, n: nat): Option<int> { JsRem(i - 1 + n, n) }

  lemma ModSmall(x: int, n: nat)
    requires 0 <= x < n
    ensures x % n == x
  {
  }

  lemma ModOnce(x: int, n: nat)
    requires n <= x < 2 * n
    ensures x % n == x - n
  {
    ModSmall(x - n, n);
    assert (x - n) % n == (x - n + n) % n;
  }

  /** From a card, both arrows reach a card, wrapping at the ends, and each undoes the other. */
  lemma CarouselWraps(i: int, n: nat)
    requires 0 <= i < n
    ensures NextIndex(i, n).Some? && 0 <= NextIndex(i, n).value < n
    ensures PrevIndex(i, n).Some? && 0 <= PrevIndex(i, n).value < n
    ensures NextIndex(i, n).value == (if i == n - 1 then 0 else i + 1)
    ensures PrevIndex(i, n).value == (if i == 0 then n - 1 else i - 1)
    ensures PrevIndex(NextIndex(i, n).value, n) == Some(i)
    ensures NextIndex(PrevIndex(i, n).value, n) == Some(i)
  {
    if i == n - 1 {
      ModOnce(i + 1, n);
    } else {
      ModSmall(i + 1, n);
    }
    if i > 0 {
      ModOnce(i - 1 + n, n);
    } else {
      ModSmall(i - 1 + n, n);
    }
    var j := NextIndex(i, n).value;
    var h := PrevIndex(i, n).value;
    if j == 0 {
      ModSmall(j - 1 + n, n);
    } else {
      ModOnce(j - 1 + n, n);
    }
    if h == n - 1 {
      ModOnce(h + 1, n);
    } else {
      ModSmall(h + 1, n);
    }
  }

  // ---------------------------------------------------------------
  // The page
  // ---------------------------------------------------------------

  datatype Page = Page(recs: seq<Rec>, index: int)

  /** What the body renders. */
  datatype View =
    | NoMore                                          // the "No more recommendations" state
    | Showing(card: CardView, total: nat, at: int)
    | RenderCrash                                     // `currentCard` is undefined and `currentCard.id` throws

  function Render(p: Page): (v: View)
    ensures v == NoMore <==> |p.recs| == 0
    ensures v == RenderCrash <==> |p.recs| > 0 && !(0 <= p.index < |p.recs|)
    ensures v.Showing? ==> v.card == ToCard(p.recs[p.index]) && v.total == |p.recs| && v.at == p.index
  {
    if |p.recs| == 0 then NoMore
    else if 0 <= p.index < |p.recs| then Showing(ToCard(p.recs[p.index]), |p.recs|, p.index)
    else RenderCrash
  }

  /** The index names a card whenever there is one. */
  predicate Valid(p: Page) { |p.recs| == 0 || 0 <= p.index < |p.recs| }

  lemma ValidRenders(p: Page)
    ensures Valid(p) <==> Render(p) != RenderCrash
  {
  }

  /** The arrows; they are on the card, so they exist only while there are cards. */
  function HandleNext(p: Page): (q: Page)
    requires |p.recs| > 0
    ensures q.recs == p.recs && Some(q.index) == NextIndex(p.index, |p.recs|)
  {
    p.(index := NextIndex(p.index, |p.recs|).value)
  }

  function HandlePrevious(p: Page): (q: Page)
    requires |p.recs| > 0
    ensures q.recs == p.recs && Some(q.index) == PrevIndex(p.index, |p.recs|)
  {
    p.(index := PrevIndex(p.index, |p.recs|).value)
  }

  /** The action the bookmark writes. */
  function SavedAction(newState: bool): string { if newState then "saved" else "no_action" }

  /** `prev.map(rec => rec.id === id ? {...rec, user_action: ...} : rec)` */
  function Save(recs: seq<Rec>, id: Option<int>, newState: bool): (r: seq<Rec>)
    ensures |r| == |recs|
    ensures forall k :: 0 <= k < |recs| && recs[k].id != id ==> r[k] == recs[k]
    ensures forall k :: 0 <= k < |recs| && recs[k].id == id ==>
      r[k] == recs[k].(userAction := Some(SavedAction(newState)))
  {
    seq(|recs|, k requires 0 <= k < |recs| =>
      if recs[k].id == id then recs[k].(userAction := Some(SavedAction(newState))) else recs[k])
  }

  /** `handleSave`: the list is rewritten, the index stays. */
  function HandleSave(p: Page, id: Option<int>, newState: bool): (q: Page)
    ensures q.recs == Save(p.recs, id, newState) && q.index == p.index
    ensures |q.recs| == |p.recs|
  {
    p.(recs := Save(p.recs, id, newState))
  }

  /** Pressing the bookmark on the card shown flips it and changes nothing else that is shown. */
  lemma BookmarkFlips(p: Page)
    requires Render(p).Showing?
    ensures var c := Render(p).card;
      var (id, newState) := BookmarkRequest(c);
      Render(HandleSave(p, id, newState)) == Showing(c.(isBookmarked := !c.isBookmarked), |p.recs|, p.index)
  {
  }

  /** Saving twice with the same state is saving once. */
  lemma SaveIdempotent(recs: seq<Rec>, id: Option<int>, newState: bool)
    ensures Save(Save(recs, id, newState), id, newState) == Save(recs, id, newState)
  {
  }

  /** `prev.filter(rec => rec.id !== id)` */
  function Dismiss(recs: seq<Rec>, id: Option<int>): (r: seq<Rec>)
    ensures forall x :: x in r <==> x in recs && x.id != id
    ensures |r| <= |recs|
  {
    Filter(recs, IdIsNot(id))
  }

  function IdIsNot(id: Option<int>): Rec -> bool { (x: Rec) => x.id != id }

  /** `handleDismiss` as written: the card goes, the index stays. */
  function HandleDismissAsWritten(p: Page, id: Option<int>): (q: Page)
    ensures q.recs == Dismiss(p.recs, id) && q.index == p.index
    ensures |q.recs| <= |p.recs|
  {
    p.(recs := Dismiss(p.recs, id))
  }

  /** `handleDismiss` with the index moved back onto the list when it falls off its end. */
  function HandleDismiss(p: Page, id: Option<int>): (q: Page)
    ensures q.recs == Dismiss(p.recs, id)
    ensures 0 <= p.index < |q.recs| ==> q.index == p.index
    ensures Valid(q)
  {
    var rs := Dismiss(p.recs, id);
    Page(rs, if 0 <= p.index < |rs| then p.index else if |rs| == 0 then 0 else |rs| - 1)
  }

  /** `handleLoadMore`: the refreshed batch from its first card. */
  function HandleLoadMore(p: Page, refreshed: seq<Rec>): (q: Page)
    ensures q.recs == refreshed && Valid(q)
  {
    Page(refreshed, 0)
  }

  /** Every handler of the corrected page keeps the index on a card. */
  lemma HandlersKeepValid(p: Page, id: Option<int>, newState: bool)
    requires Valid(p)
    ensures |p.recs| > 0 ==> Valid(HandleNext(p)) && Valid(HandlePrevious(p))
    ensures Valid(HandleSave(p, id, newState))
    ensures Valid(HandleDismiss(p, id))
  {
    if |p.recs| > 0 {
      CarouselWraps(p.index, |p.recs|);
    }
  }

  /** Dismissing the one card with that id shortens the list by one. */
  lemma DismissUnique(recs: seq<Rec>, k: nat)
    requires k < |recs|
    requires forall j :: 0 <= j < |recs| && j != k ==> recs[j].id != recs[k].id
    ensures Dismiss(recs, recs[k].id) == recs[..k] + recs[k + 1..]
  {
    FilterDropsOne(recs, k, IdIsNot(recs[k].id));
  }

  /**
   * As written, declining the last of several cards while it is shown
   * leaves the index one past the end, and the page throws on render; the
   * corrected handler shows the new last card.
   */
  lemma DismissLastCardCrashes(p: Page)
    requires |p.recs| >= 2 && p.index == |p.recs| - 1
    requires forall j :: 0 <= j < p.index ==> p.recs[j].id != p.recs[p.index].id
    ensures Render(HandleDismissAsWritten(p, p.recs[p.index].id)) == RenderCrash
    ensures Render(HandleDismiss(p, p.recs[p.index].id)) == Showing(ToCard(p.recs[p.index - 1]), |p.recs| - 1, p.index - 1)
  {
    DismissUnique(p.recs, p.index);
    assert p.recs[p.index + 1..] == [];
    assert Dismiss(p.recs, p.recs[p.index].id) == p.recs[..p.index];
  }

  /** The input that shows it: two cards, the second shown and declined. */
  lemma DismissSecondOfTwo(a: Rec, b: Rec)
    requires a.id == Some(1) && b.id == Some(2)
    ensures Render(HandleDismissAsWritten(Page([a, b], 1), Some(2))) == RenderCrash
  {
    DismissLastCardCrashes(Page([a, b], 1));
  }
}
