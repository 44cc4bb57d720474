/**
 * frontend/src/components/Sidebar.tsx: which questionnaire sections count as
 * completed, the two lock rules for opening a section, and the flags that
 * open the coach and the matches pages.
 */
module SidebarNav {
  import opened Wrappers
  import opened Text
  import opened Json
  import opened Ordering

  datatype Section = Section(category: string, displayName: string)

  /** `Array.from(new Set(xs))`: each value once, at its first occurrence. */
  function Distinct(xs: seq<Option<string>>): (r: seq<Option<string>>)
    ensures forall x :: x in r <==> x in xs
    ensures forall i, j :: 0 <= i < j < |r| ==> r[i] != r[j]
  {
    if xs == [] then []
    else
      var d := Distinct(xs[..|xs| - 1]);
      assert forall x :: x in xs[..|xs| - 1] || x == xs[|xs| - 1] <==> x in xs by {
        assert xs == xs[..|xs| - 1] + [xs[|xs| - 1]];
      }
      if xs[|xs| - 1] in d then d else d + [xs[|xs| - 1]]
  }

  /**
   * `sections.findIndex(s => s.category === cat)`.  A response whose
   * category is missing or not a string is `None` and matches no section.
   */
  function FindIndex(sections: seq<Section>, cat: Option<string>): (r: int)
    ensures r == -1 <==> (cat.None? || forall i :: 0 <= i < |sections| ==> sections[i].category != cat.value)
    ensures r != -1 ==> (0 <= r < |sections| && sections[r].category == cat.value
      && forall j :: 0 <= j < r ==> sections[j].category != cat.value)
  {
    if cat.None? || sections == [] then -1
    else if sections[0].category == cat.value then 0
    else
      var k := FindIndex(sections[1..], cat);
      if k == -1 then -1 else k + 1
  }

  function Found(i: int): bool { i != -1 }

  /** `completedSections`: the index of every answered category, unknown categories dropped. */
  function CompletedSections(sections: seq<Section>, answered: seq<Option<string>>): seq<int> {
    var cats := Distinct(answered);
    Filter(seq(|cats|, k requires 0 <= k < |cats| => FindIndex(sections, cats[k])), Found)
  }

  /** The first section carrying a category: the one `findIndex` returns for it. */
  predicate FirstOfCategory(sections: seq<Section>, i: int)
    requires 0 <= i < |sections|
  {
    forall j :: 0 <= j < i ==> sections[j].category != sections[i].category
  }

  /**
   * A section is completed exactly when some response carries its category
   * and no earlier section has the same category.
   */
  lemma CompletedExactly(sections: seq<Section>, answered: seq<Option<string>>, i: int)
    ensures i in CompletedSections(sections, answered) <==>
      (0 <= i < |sections| && Some(sections[i].category) in answered && FirstOfCategory(sections, i))
  {
    var cats := Distinct(answered);
    var found := seq(|cats|, k requires 0 <= k < |cats| => FindIndex(sections, cats[k]));
    if i in CompletedSections(sections, answered) {
      assert i in found && i != -1;
      var k :| 0 <= k < |cats| && found[k] == i;
      assert cats[k] in answered;
    }
    if 0 <= i < |sections| && Some(sections[i].category) in answered && FirstOfCategory(sections, i) {
      var c := Some(sections[i].category);
      assert c in cats;
      var k :| 0 <= k < |cats| && cats[k] == c;
      var r := FindIndex(sections, c);
      assert r != -1;
      assert r == i;
      assert found[k] == i;
    }
  }

  // ---------------------------------------------------------------
  // Opening a section
  // ---------------------------------------------------------------

  /** The lock drawn on section `i` of the list: locked unless `i` itself is completed. */
  predicate RenderLocked(completed: seq<int>, i: int) { i !in completed }

  /** The lock `handleQuestionnaireClick` applies: locked when the section before `i` is not completed. */
  predicate HandlerLocked(completed: seq<int>, i: int) { i > 0 && i - 1 !in completed }

  datatype Nav = Stay | Go(path: string)

  /** `/questionnaire?section=${index}&category=${category}` */
  function SectionPath(i: nat, category: string): string {
    "/questionnaire?section=" + NatToString(i) + "&category=" + category
  }

  /** A click on list item `i`: the item's own guard, then the handler's. */
  function SectionClick(sections: seq<Section>, completed: seq<int>, i: nat): (r: Nav)
    requires i < |sections|
    ensures r.Go? <==> i in completed && (i == 0 || i - 1 in completed)
    ensures r.Go? ==> StartsWith(r.path, "/questionnaire?section=")
  {
    if RenderLocked(completed, i) then Stay
    else if HandlerLocked(completed, i) then Stay
    else
      var p := SectionPath(i, sections[i].category);
      assert p[..|"/questionnaire?section="|] == "/questionnaire?section=";
      Go(p)
  }

  /**
   * The two locks disagree: a completed section after an unanswered one is
   * drawn unlocked but ignores the click, and the section after a completed
   * one passes the handler's rule but is drawn locked.
   */
  lemma LocksDisagree()
    ensures !RenderLocked([1], 1) && HandlerLocked([1], 1)
    ensures RenderLocked([0], 1) && !HandlerLocked([0], 1)
  {
  }

  /**
   * With the sections answered in order (exactly the first `n` completed),
   * the completed ones open and every other one, the next one to answer
   * included, stays shut.
   */
  lemma InOrderProgress(sections: seq<Section>, completed: seq<int>, n: nat, i: nat)
    requires i < |sections|
    requires forall j :: j in completed <==> 0 <= j < n
    ensures SectionClick(sections, completed, i).Go? <==> i < n
  {
  }

  // ---------------------------------------------------------------
  // Coach, matches and saved careers
  // ---------------------------------------------------------------

  /** `data?.[key] === true`: only the JSON value `true` counts. */
  predicate ExactlyTrue(data: Json, key: string) {
    data.JObj? && GetField(data.fields, key) == JBool(true)
  }

  /**
   * `isQuestionnaireComplete` after the progress fetch: a response that is not
   * `ok` (or a failed fetch, `None`) leaves the previous value.
   */
  function CompletionAfterFetch(previous: bool, ok: bool, data: Option<Json>): (r: bool)
    ensures ok && data.Some? ==> (r <==> (data.value.JObj? && "is_completed" in data.value.fields
      && data.value.fields["is_completed"] == JBool(true)))
    ensures !ok || data.None? ==> r == previous
  {
    if ok && data.Some? then ExactlyTrue(data.value, "is_completed") else previous
  }

  /** `matchesUnlocked` after the user fetch; a fetch or parse that throws (`None`) leaves it. */
  function UnlockAfterFetch(previous: bool, data: Option<Json>): (r: bool)
    ensures data.Some? ==> (r <==> (data.value.JObj? && "is_career_unlock_confirmed" in data.value.fields
      && data.value.fields["is_career_unlock_confirmed"] == JBool(true)))
    ensures data.None? ==> r == previous
  {
    if data.Some? then ExactlyTrue(data.value, "is_career_unlock_confirmed") else previous
  }

  /** Truthy values other than `true` do not unlock. */
  lemma OnlyTrueUnlocks(previous: bool)
    ensures !UnlockAfterFetch(previous, Some(JObj(map["is_career_unlock_confirmed" := JStr("true")])))
    ensures !UnlockAfterFetch(previous, Some(JObj(map["is_career_unlock_confirmed" := JInt(1)])))
    ensures UnlockAfterFetch(previous, Some(JObj(map["is_career_unlock_confirmed" := JBool(true)])))
  {
  }

  /** `handleCoachClick` */
  function CoachClick(isQuestionnaireComplete: bool): (r: Nav)
    ensures r.Go? <==> isQuestionnaireComplete
    ensures r.Go? ==> r.path == "/coach"
  {
    if !isQuestionnaireComplete then Stay else Go("/coach")
  }

  /** `handleExploreMatches` */
  function ExploreMatchesClick(matchesUnlocked: bool): (r: Nav)
    ensures r.Go? <==> matchesUnlocked
    ensures r.Go? ==> r.path == "/explorematches"
  {
    if !matchesUnlocked then Stay else Go("/explorematches")
  }

  /** `handleSavedCareers` */
  function SavedCareersClick(matchesUnlocked: bool): (r: Nav)
    ensures r.Go? <==> matchesUnlocked
    ensures r.Go? ==> r.path == "/savedcareers"
  {
    if !matchesUnlocked then Stay else Go("/savedcareers")
  }

  /** Without a user record saying exactly `true`, neither matches page opens. */
  lemma MatchesStayLocked(data: Json)
    requires !ExactlyTrue(data, "is_career_unlock_confirmed")
    ensures ExploreMatchesClick(UnlockAfterFetch(true, Some(data))) == Stay
    ensures SavedCareersClick(UnlockAfterFetch(true, Some(data))) == Stay
  {
  }
}
