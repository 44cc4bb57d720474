/**
 * backend/app/services/user_profile_service.py: the questionnaire profile
 * (the stored final JSON) rendered as the coach's context block, and as a
 * one-line summary.  The profile is the decoded JSON object; how Python's
 * `str()` spells a float, a list or a dict is the parameter `repr`.
 */
module UserProfile {
  import opened Wrappers
  import opened Text
  import opened Json
  import QuestionLookup

  // ---------------------------------------------------------------
  // Answer text
  // ---------------------------------------------------------------

  /** `str(a)`: a string is itself; None, booleans and integers as Python spells them. */
  function Show(a: Json, repr: Json -> string): string {
    match a
    case JStr(s) => s
    case JNull => "None"
    case JBool(b) => if b then "True" else "False"
    case JInt(i) => IntToString(i)
    case _ => repr(a)
  }

  function ShowAll(items: seq<Json>, repr: Json -> string): (r: seq<string>)
    ensures |r| == |items|
    ensures forall i :: 0 <= i < |items| ==> r[i] == Show(items[i], repr)
  {
    if items == [] then [] else [Show(items[0], repr)] + ShowAll(items[1..], repr)
  }

  /** `', '.join(str(a) for a in answer)` for a list, `str(answer)` otherwise. */
  function AnswerText(a: Json, repr: Json -> string): string {
    if a.JList? then Join(ShowAll(a.items, repr), ", ") else Show(a, repr)
  }

  predicate IsLetter(c: char) { 'a' <= c <= 'z' || 'A' <= c <= 'Z' }

  /** Whether the character before position `i` is a letter (`before` for the first position). */
  predicate AfterLetter(s: string, i: nat, before: bool)
    requires i < |s|
  {
    if i == 0 then before else IsLetter(s[i - 1])
  }

  /** A letter is lower-cased after a letter and upper-cased otherwise; other characters stay. */
  function TitleChar(c: char, afterLetter: bool): char {
    if !IsLetter(c) then c else if afterLetter then LowerChar(c) else UpperChar(c)
  }

  /** `str.title()` from a position whose previous character was (or was not) a letter. */
  function TitleFrom(s: string, before: bool): (r: string)
    ensures |r| == |s|
  {
    if s == [] then [] else [TitleChar(s[0], before)] + TitleFrom(s[1..], IsLetter(s[0]))
  }

  /** Each character of the title-cased text depends only on itself and the character before it. */
  lemma {:induction false} TitleFromEach(s: string, before: bool)
    ensures forall i :: 0 <= i < |s| ==> TitleFrom(s, before)[i] == TitleChar(s[i], AfterLetter(s, i, before))
    decreases |s|
  {
    if s != [] {
      TitleFromEach(s[1..], IsLetter(s[0]));
      forall i | 1 <= i < |s| ensures TitleFrom(s, before)[i] == TitleChar(s[i], AfterLetter(s, i, before)) {
        assert TitleFrom(s, before)[i] == TitleFrom(s[1..], IsLetter(s[0]))[i - 1];
        assert s[1..][i - 1] == s[i];
        if i >= 2 {
          assert s[1..][i - 2] == s[i - 1];
        }
      }
    }
  }

  /** `s.title()`: a letter after a non-letter (or at the start) is upper-cased, any other letter lower-cased. */
  function Title(s: string): (r: string)
    ensures |r| == |s|
    ensures forall i :: 0 <= i < |s| ==> r[i] == TitleChar(s[i], i > 0 && IsLetter(s[i - 1]))
  {
    TitleFromEach(s, false);
    TitleFrom(s, false)
  }

  // ---------------------------------------------------------------
  // responses_by_category
  // ---------------------------------------------------------------

  /** An insertion-ordered dict from category to the answers seen under it. */
  datatype Groups = Groups(order: seq<Json>, answers: map<Json, seq<Json>>)

  ghost predicate GroupsValid(g: Groups) {
    && (forall i, j :: 0 <= i < j < |g.order| ==> g.order[i] != g.order[j])
    && (forall k :: k in g.answers <==> k in g.order)
  }

  /** `responses_by_category.get(k, [])` */
  function Get(g: Groups, k: Json): seq<Json> {
    if k in g.answers then g.answers[k] else []
  }

  /** `response.get("category", "unknown")` of a dict response. */
  function Cat(response: Json): Json {
    if response.JObj? then GetOr(response.fields, "category", JStr("unknown")) else JNull
  }

  /** `response.get("answer", "")` of a dict response. */
  function Ans(response: Json): Json {
    if response.JObj? then GetOr(response.fields, "answer", JStr("")) else JNull
  }

  /** One iteration: a new category is appended to the dict, a known one gets the answer appended. */
  function AddAnswer(g: Groups, cat: Json, answer: Json): (r: Groups)
    requires GroupsValid(g)
    ensures GroupsValid(r)
  {
    if cat in g.answers then g.(answers := g.answers[cat := g.answers[cat] + [answer]])
    else Groups(g.order + [cat], g.answers[cat := [answer]])
  }

  /** A response is grouped when it is a dict whose category can be a dict key. */
  predicate Groupable(response: Json) {
    response.JObj? && QuestionLookup.Hashable(Cat(response))
  }

  /** The grouping loop over the responses seen so far. */
  function GroupResponses(rs: seq<Json>): (r: Result<Groups>)
    ensures r.Ok? ==> GroupsValid(r.value)
    ensures r.Ok? <==> forall i :: 0 <= i < |rs| ==> Groupable(rs[i])
  {
    if rs == [] then Ok(Groups([], map[]))
    else
      var init := rs[..|rs| - 1];
      var last := rs[|rs| - 1];
      var acc := GroupResponses(init);
      assert forall i :: 0 <= i < |init| ==> init[i] == rs[i];
      if acc.Err? then acc
      else if !last.JObj? then Err(ServerError(NoGet))
      else if !QuestionLookup.Hashable(Cat(last)) then Err(ServerError(QuestionLookup.Unhashable))
      else Ok(AddAnswer(acc.value, Cat(last), Ans(last)))
  }

  /** The answers filed under `k`, in response order: the reference for one group. */
  function AnswersFor(rs: seq<Json>, k: Json): seq<Json> {
    if rs == [] then []
    else AnswersFor(rs[..|rs| - 1], k) + (if Cat(rs[|rs| - 1]) == k then [Ans(rs[|rs| - 1])] else [])
  }

  /** The index of the first response filed under `k`, or `|rs|` when there is none. */
  function FirstIndex(rs: seq<Json>, k: Json): (n: nat)
    ensures n <= |rs|
    ensures n < |rs| ==> Cat(rs[n]) == k
    ensures forall j :: 0 <= j < n ==> Cat(rs[j]) != k
  {
    if rs == [] then 0
    else
      var init := rs[..|rs| - 1];
      var p := FirstIndex(init, k);
      assert forall j :: 0 <= j < |init| ==> init[j] == rs[j];
      if p < |init| then p else if Cat(rs[|rs| - 1]) == k then |init| else |rs|
  }

  /** Adding one response moves no earlier first appearance. */
  lemma FirstIndexStep(rs: seq<Json>, k: Json)
    requires rs != []
    ensures var init := rs[..|rs| - 1];
      FirstIndex(rs, k) == if FirstIndex(init, k) < |init| then FirstIndex(init, k)
                           else if Cat(rs[|rs| - 1]) == k then |init| else |rs|
  {
  }

  /** The dict holds exactly the categories that occur. */
  lemma {:induction false} GroupKeysOccur(rs: seq<Json>)
    requires GroupResponses(rs).Ok?
    ensures forall k :: k in GroupResponses(rs).value.answers <==> FirstIndex(rs, k) < |rs|
    decreases |rs|
  {
    if rs != [] {
      var init := rs[..|rs| - 1];
      GroupKeysOccur(init);
      forall k ensures k in GroupResponses(rs).value.answers <==> FirstIndex(rs, k) < |rs| {
        FirstIndexStep(rs, k);
      }
    }
  }

  /** Each category holds all of its answers, in response order. */
  lemma {:induction false} GroupAnswersInOrder(rs: seq<Json>)
    requires GroupResponses(rs).Ok?
    ensures var g := GroupResponses(rs).value;
      forall k :: k in g.answers ==> g.answers[k] == AnswersFor(rs, k)
    decreases |rs|
  {
    if rs != [] {
      var init := rs[..|rs| - 1];
      var last := rs[|rs| - 1];
      GroupAnswersInOrder(init);
      var g0 := GroupResponses(init).value;
      var g := GroupResponses(rs).value;
      assert g == AddAnswer(g0, Cat(last), Ans(last));
      GroupKeysOccur(init);
      forall k | k in g.answers ensures g.answers[k] == AnswersFor(rs, k) {
        if k != Cat(last) {
          assert g.answers[k] == g0.answers[k];
        } else if k !in g0.answers {
          NoFirstNoAnswers(init, k);
        }
      }
    }
  }

  /** A category that never occurs has no answers. */
  lemma {:induction false} NoFirstNoAnswers(rs: seq<Json>, k: Json)
    requires FirstIndex(rs, k) == |rs|
    ensures AnswersFor(rs, k) == []
    decreases |rs|
  {
    if rs != [] {
      FirstIndexStep(rs, k);
      NoFirstNoAnswers(rs[..|rs| - 1], k);
    }
  }

  /** The keys are in order of first appearance. */
  lemma {:induction false} GroupKeysFirstSeen(rs: seq<Json>)
    requires GroupResponses(rs).Ok?
    ensures var g := GroupResponses(rs).value;
      forall a, b :: 0 <= a < b < |g.order| ==> FirstIndex(rs, g.order[a]) < FirstIndex(rs, g.order[b])
    decreases |rs|
  {
    if rs != [] {
      var init := rs[..|rs| - 1];
      var last := rs[|rs| - 1];
      GroupKeysFirstSeen(init);
      GroupKeysOccur(init);
      var g0 := GroupResponses(init).value;
      var g := GroupResponses(rs).value;
      assert g == AddAnswer(g0, Cat(last), Ans(last));
      forall a, b | 0 <= a < b < |g.order| ensures FirstIndex(rs, g.order[a]) < FirstIndex(rs, g.order[b]) {
        FirstIndexStep(rs, g.order[a]);
        FirstIndexStep(rs, g.order[b]);
        if b < |g0.order| {
          assert g.order[a] == g0.order[a] && g.order[b] == g0.order[b];
        } else {
          assert g.order[a] == g0.order[a] && g.order[a] in g0.answers;
          assert g.order[b] == Cat(last) && g.order[b] !in g0.answers;
        }
      }
    }
  }

  /** Grouping stops at the first response that is not a dict or whose category cannot be a key. */
  lemma {:induction false} GroupingFailsFirst(rs: seq<Json>, k: nat)
    requires k < |rs| && !Groupable(rs[k]) && forall i :: 0 <= i < k ==> Groupable(rs[i])
    ensures GroupResponses(rs) == Err(ServerError(if rs[k].JObj? then QuestionLookup.Unhashable else NoGet))
    decreases |rs|
  {
    var init := rs[..|rs| - 1];
    assert forall i :: 0 <= i < |init| ==> init[i] == rs[i];
    if k < |init| {
      GroupingFailsFirst(init, k);
    } else {
      assert GroupResponses(init).Ok?;
    }
  }

  lemma {:induction false} GroupFailureSticks(rs: seq<Json>, k: nat)
    requires k <= |rs| && GroupResponses(rs[..k]).Err?
    ensures GroupResponses(rs) == GroupResponses(rs[..k])
    decreases |rs| - k
  {
    if k < |rs| {
      assert rs[..k + 1][..k] == rs[..k];
      GroupFailureSticks(rs, k + 1);
    } else {
      assert rs[..k] == rs;
    }
  }

  // ---------------------------------------------------------------
  // format_profile_for_ai
  // ---------------------------------------------------------------

  /** How a section lists its answers. */
  datatype Style =
    | Listed     // every answer as a bullet
    | Paragraph  // truthy answers, indented, no bullet
    | Other      // lists always, other answers when truthy

  /** The lines one answer adds to its section. */
  function ItemLine(a: Json, style: Style, repr: Json -> string): seq<string> {
    match style
    case Listed => ["  - " + AnswerText(a, repr)]
    case Paragraph => if Truthy(a) then ["  " + Show(a, repr)] else []
    case Other =>
      if a.JList? then ["  - " + AnswerText(a, repr)]
      else if Truthy(a) then ["  - " + Show(a, repr)]
      else []
  }

  function ItemLines(items: seq<Json>, style: Style, repr: Json -> string): (r: seq<string>)
    ensures style == Listed ==> |r| == |items|
    ensures |r| <= |items|
  {
    if items == [] then []
    else ItemLines(items[..|items| - 1], style, repr) + ItemLine(items[|items| - 1], style, repr)
  }

  const Rule := "============================================================"  // "=" * 60
  const Banner := [Rule, "USER CAREER PROFILE (From Initial Questionnaire)", Rule]
  const Footer := "\n" + Rule

  const MotivationHeader := "\n### \U{1F3AF} Career Change Motivation"
  const StrengthsHeader := "\n### \U{1F4AA} Top Strengths"
  const NonNegotiablesHeader := "\n### \U{2B50} Non-Negotiables for Next Role"
  const ExperienceHeader := "\n### \U{1F4DD} Experience & Skills Summary"
  const ConstraintsHeader := "\n### \U{1F6A7} Work Constraints"
  const NoReplace := "AttributeError: object has no attribute 'replace'"

  const Known: set<Json> := {JStr("career_interests"), JStr("interests"), JStr("strengths"), JStr("non_negotiables"),
                             JStr("requirements"), JStr("experience"), JStr("skills"), JStr("constraints"),
                             JStr("preferences")}

  function OtherHeader(category: string): string {
    "\n### \U{1F4CC} " + Title(ReplaceChar(category, '_', ' '))
  }

  /** `get(primary, get(alias, []))`: the first name wins whenever it is present. */
  function Pick(g: Groups, primary: string, alias: string): seq<Json> {
    if JStr(primary) in g.answers then g.answers[JStr(primary)] else Get(g, JStr(alias))
  }

  /** A known section: its header and lines when either of its names is present, else nothing. */
  function KnownSection(g: Groups, primary: string, alias: string, header: string, style: Style,
                        repr: Json -> string): seq<string>
  {
    if JStr(primary) in g.answers || JStr(alias) in g.answers then [header] + ItemLines(Pick(g, primary, alias), style, repr)
    else []
  }

  function KnownSections(g: Groups, repr: Json -> string): seq<string> {
    KnownSection(g, "career_interests", "interests", MotivationHeader, Listed, repr)
    + KnownSection(g, "strengths", "strengths", StrengthsHeader, Listed, repr)
    + KnownSection(g, "non_negotiables", "requirements", NonNegotiablesHeader, Listed, repr)
    + KnownSection(g, "experience", "skills", ExperienceHeader, Paragraph, repr)
    + KnownSection(g, "constraints", "preferences", ConstraintsHeader, Listed, repr)
  }

  /** The loop over the other categories, in dict order; a category that is not a string has no `replace`. */
  function OtherSections(order: seq<Json>, g: Groups, repr: Json -> string): Result<seq<string>> {
    if order == [] then Ok([])
    else
      var acc := OtherSections(order[..|order| - 1], g, repr);
      var k := order[|order| - 1];
      if acc.Err? then acc
      else if k in Known then acc
      else if !k.JStr? then Err(ServerError(NoReplace))
      else Ok(acc.value + [OtherHeader(k.s)] + ItemLines(Get(g, k), Other, repr))
  }

  function CompletedLine(profile: map<string, Json>, repr: Json -> string): seq<string> {
    if "completed_at" in profile then ["\n\n\U{1F4C5} Profile completed: " + Show(profile["completed_at"], repr)]
    else []
  }

  /** The lines of a non-empty profile, once its responses are grouped. */
  function RenderGroups(g: Groups, profile: map<string, Json>, repr: Json -> string): Result<seq<string>> {
    var others := OtherSections(g.order, g, repr);
    if others.Err? then Err(others.error)
    else Ok(Banner + KnownSections(g, repr) + others.value + CompletedLine(profile, repr) + [Footer])
  }

  /** `profile_data.get("questionnaire_responses", [])` as the loop iterates it. */
  function Responses(profile: map<string, Json>): Result<seq<Json>> {
    IterForGet(GetOr(profile, "questionnaire_responses", JList([])))
  }

  /** `format_profile_for_ai` */
  function FormatProfile(profile: map<string, Json>, repr: Json -> string): (r: Result<string>)
    ensures profile == map[] ==> r == Ok("")
    ensures r.Ok? && profile != map[] ==> StartsWith(r.value, Rule + "\n")
  {
    if profile == map[] then Ok("")
    else
      var rs := Responses(profile);
      if rs.Err? then Err(rs.error)
      else
        var g := GroupResponses(rs.value);
        if g.Err? then Err(g.error)
        else
          var lines := RenderGroups(g.value, profile, repr);
          if lines.Err? then Err(lines.error)
          else
            JoinStarts(lines.value, "\n");
            Ok(Join(lines.value, "\n"))
  }

  /** A joined list of two or more lines starts with its first line and the separator. */
  lemma JoinStarts(parts: seq<string>, sep: string)
    requires |parts| >= 2
    ensures StartsWith(Join(parts, sep), parts[0] + sep)
  {
    var j := Join(parts, sep);
    assert j == (parts[0] + sep) + Join(parts[1..], sep);
  }

  /** The other-category loop reads only the answers of categories outside the known names. */
  lemma {:induction false} OthersIgnoreKnown(order: seq<Json>, g: Groups, k: Json, v: seq<Json>, repr: Json -> string)
    requires k in Known
    ensures OtherSections(order, g.(answers := g.answers[k := v]), repr) == OtherSections(order, g, repr)
    decreases |order|
  {
    if order != [] {
      OthersIgnoreKnown(order[..|order| - 1], g, k, v, repr);
    }
  }

  /**
   * For each pair of names only the first is rendered: once the first name
   * is present, whatever was filed under the second changes nothing.
   */
  lemma AliasNotRendered(g: Groups, profile: map<string, Json>, primary: string, alias: string, v: seq<Json>,
                         repr: Json -> string)
    requires (primary, alias) in {("career_interests", "interests"), ("non_negotiables", "requirements"),
                                  ("experience", "skills"), ("constraints", "preferences")}
    requires JStr(primary) in g.answers && JStr(alias) in g.answers
    ensures RenderGroups(g.(answers := g.answers[JStr(alias) := v]), profile, repr) == RenderGroups(g, profile, repr)
  {
    var h := g.(answers := g.answers[JStr(alias) := v]);
    OthersIgnoreKnown(g.order, g, JStr(alias), v, repr);
    assert Pick(h, primary, alias) == Pick(g, primary, alias);
    SectionUnchanged(g, JStr(alias), v, "career_interests", "interests", MotivationHeader, Listed, repr);
    SectionUnchanged(g, JStr(alias), v, "strengths", "strengths", StrengthsHeader, Listed, repr);
    SectionUnchanged(g, JStr(alias), v, "non_negotiables", "requirements", NonNegotiablesHeader, Listed, repr);
    SectionUnchanged(g, JStr(alias), v, "experience", "skills", ExperienceHeader, Paragraph, repr);
    SectionUnchanged(g, JStr(alias), v, "constraints", "preferences", ConstraintsHeader, Listed, repr);
  }

  /** A known section reads only its own two names, and the first one when it is present. */
  lemma SectionUnchanged(g: Groups, k: Json, v: seq<Json>, primary: string, alias: string, header: string,
                         style: Style, repr: Json -> string)
    requires k in g.answers
    requires k != JStr(alias) || JStr(primary) in g.answers
    ensures KnownSection(g.(answers := g.answers[k := v]), primary, alias, header, style, repr)
         == KnownSection(g, primary, alias, header, style, repr) || k == JStr(primary)
  {
  }

  /** Every category outside the known names gets its own section under its title-cased name. */
  lemma {:induction false} OtherSectionsTitled(order: seq<Json>, g: Groups, repr: Json -> string)
    ensures OtherSections(order, g, repr).Ok? <==> forall i :: 0 <= i < |order| && order[i] !in Known ==> order[i].JStr?
    ensures var r := OtherSections(order, g, repr);
      r.Ok? ==> forall i :: 0 <= i < |order| && order[i] !in Known ==> OtherHeader(order[i].s) in r.value
    decreases |order|
  {
    if order != [] {
      var init := order[..|order| - 1];
      OtherSectionsTitled(init, g, repr);
      assert forall i :: 0 <= i < |init| ==> init[i] == order[i];
    }
  }

  // ---------------------------------------------------------------
  // The loops of format_profile_for_ai
  // ---------------------------------------------------------------

  /** The answer loop of one section. */
  method AppendItems(items: seq<Json>, style: Style, repr: Json -> string) returns (lines: seq<string>)
    ensures lines == ItemLines(items, style, repr)
  {
    lines := [];
    var i := 0;
    while i < |items|
      invariant 0 <= i <= |items|
      invariant lines == ItemLines(items[..i], style, repr)
    {
      ItemLinesStep(items, i, style, repr);
      lines := lines + ItemLine(items[i], style, repr);
      i := i + 1;
    }
    assert items[..i] == items;
  }

  lemma ItemLinesStep(items: seq<Json>, i: nat, style: Style, repr: Json -> string)
    requires i < |items|
    ensures ItemLines(items[..i + 1], style, repr) == ItemLines(items[..i], style, repr) + ItemLine(items[i], style, repr)
  {
    assert items[..i + 1][..i] == items[..i];
  }

  /** The grouping loop: `responses_by_category` built by appends. */
  method GroupAll(rs: seq<Json>) returns (r: Result<Groups>)
    ensures r == GroupResponses(rs)
  {
    var order: seq<Json> := [];
    var answers: map<Json, seq<Json>> := map[];
    var i := 0;
    while i < |rs|
      invariant 0 <= i <= |rs|
      invariant GroupResponses(rs[..i]) == Ok(Groups(order, answers))
    {
      assert rs[..i + 1][..i] == rs[..i];
      var response := rs[i];
      if !response.JObj? || !QuestionLookup.Hashable(Cat(response)) {
        var e := if response.JObj? then QuestionLookup.Unhashable else NoGet;
        assert GroupResponses(rs[..i + 1]) == Err(ServerError(e));
        GroupFailureSticks(rs, i + 1);
        return Err(ServerError(e));
      }
      var category := Cat(response);
      if category in answers {
        answers := answers[category := answers[category] + [Ans(response)]];
      } else {
        order := order + [category];
        answers := answers[category := [Ans(response)]];
      }
      i := i + 1;
    }
    assert rs[..i] == rs;
    return Ok(Groups(order, answers));
  }

  /** One known section: its header, then the loop over its answers. */
  method AppendKnown(g: Groups, primary: string, alias: string, header: string, style: Style, repr: Json -> string)
    returns (lines: seq<string>)
    ensures lines == KnownSection(g, primary, alias, header, style, repr)
  {
    lines := [];
    if JStr(primary) in g.answers || JStr(alias) in g.answers {
      var items := AppendItems(Pick(g, primary, alias), style, repr);
      lines := [header] + items;
    }
  }

  /** The loop over the remaining categories, in dict order. */
  method AppendOthers(g: Groups, repr: Json -> string) returns (r: Result<seq<string>>)
    ensures r == OtherSections(g.order, g, repr)
  {
    var others: seq<string> := [];
    var i := 0;
    while i < |g.order|
      invariant 0 <= i <= |g.order|
      invariant OtherSections(g.order[..i], g, repr) == Ok(others)
    {
      assert g.order[..i + 1][..i] == g.order[..i];
      var category := g.order[i];
      if category !in Known {
        if !category.JStr? {
          OtherFailureSticks(g.order, g, i + 1, repr);
          return Err(ServerError(NoReplace));
        }
        var items := AppendItems(Get(g, category), Other, repr);
        others := others + [OtherHeader(category.s)] + items;
      }
      i := i + 1;
    }
    assert g.order[..i] == g.order;
    return Ok(others);
  }

  /** `format_profile_for_ai`, section by section. */
  method FormatProfileForAi(profile: map<string, Json>, repr: Json -> string) returns (r: Result<string>)
    ensures r == FormatProfile(profile, repr)
  {
    if profile == map[] {
      return Ok("");
    }
    var rs := Responses(profile);
    if rs.Err? {
      return Err(rs.error);
    }
    var grouped := GroupAll(rs.value);
    if grouped.Err? {
      return Err(grouped.error);
    }
    var g := grouped.value;
    var motivation := AppendKnown(g, "career_interests", "interests", MotivationHeader, Listed, repr);
    var strengths := AppendKnown(g, "strengths", "strengths", StrengthsHeader, Listed, repr);
    var nonNegotiables := AppendKnown(g, "non_negotiables", "requirements", NonNegotiablesHeader, Listed, repr);
    var experience := AppendKnown(g, "experience", "skills", ExperienceHeader, Paragraph, repr);
    var constraints := AppendKnown(g, "constraints", "preferences", ConstraintsHeader, Listed, repr);
    var known := motivation + strengths + nonNegotiables + experience + constraints;
    var others := AppendOthers(g, repr);
    if others.Err? {
      return Err(others.error);
    }
    var lines := Banner + known + others.value + CompletedLine(profile, repr) + [Footer];
    return Ok(Join(lines, "\n"));
  }

  lemma {:induction false} OtherFailureSticks(order: seq<Json>, g: Groups, k: nat, repr: Json -> string)
    requires k <= |order| && OtherSections(order[..k], g, repr).Err?
    ensures OtherSections(order, g, repr) == OtherSections(order[..k], g, repr)
    decreases |order| - k
  {
    if k < |order| {
      assert order[..k + 1][..k] == order[..k];
      OtherFailureSticks(order, g, k + 1, repr);
    } else {
      assert order[..k] == order;
    }
  }

  // ---------------------------------------------------------------
  // format_profile_summary
  // ---------------------------------------------------------------

  /** The three lists the summary collects answers into. */
  datatype Buckets = Buckets(interests: seq<Json>, strengths: seq<Json>, constraints: seq<Json>)

  /** Where one response goes: the if/elif chain lets it land in at most one list. */
  datatype Bucket = InterestBucket | StrengthBucket | ConstraintBucket | NoBucket

  const NoLower := "AttributeError: object has no attribute 'lower'"

  function BucketOf(category: string): Bucket {
    var c := Lower(category);
    if Contains(c, "interest") then InterestBucket
    else if Contains(c, "strength") then StrengthBucket
    else if Contains(c, "constraint") || Contains(c, "preference") then ConstraintBucket
    else NoBucket
  }

  /** `response.get("category", "")` */
  function SummaryCat(response: Json): Json {
    if response.JObj? then GetOr(response.fields, "category", JStr("")) else JNull
  }

  /** The bucket of a response whose category is a string. */
  function BucketOfResponse(response: Json): Bucket {
    if SummaryCat(response).JStr? then BucketOf(SummaryCat(response).s) else NoBucket
  }

  /** `extend` for a list answer, `append` for any other. */
  function Spread(a: Json): seq<Json> {
    if a.JList? then a.items else [a]
  }

  function AddToBucket(b: Buckets, which: Bucket, a: Json): Buckets {
    match which
    case InterestBucket => b.(interests := b.interests + Spread(a))
    case StrengthBucket => b.(strengths := b.strengths + Spread(a))
    case ConstraintBucket => b.(constraints := b.constraints + Spread(a))
    case NoBucket => b
  }

  /** The summary's loop over the responses seen so far. */
  function SummaryBuckets(rs: seq<Json>): (r: Result<Buckets>)
    ensures r.Ok? <==> forall i :: 0 <= i < |rs| ==> rs[i].JObj? && SummaryCat(rs[i]).JStr?
  {
    if rs == [] then Ok(Buckets([], [], []))
    else
      var init := rs[..|rs| - 1];
      var last := rs[|rs| - 1];
      var acc := SummaryBuckets(init);
      assert forall i :: 0 <= i < |init| ==> init[i] == rs[i];
      if acc.Err? then acc
      else if !last.JObj? then Err(ServerError(NoGet))
      else if !SummaryCat(last).JStr? then Err(ServerError(NoLower))
      else Ok(AddToBucket(acc.value, BucketOf(SummaryCat(last).s), Ans(last)))
  }

  /** The answers of the responses that belong to `which`, spread, in response order. */
  function Collect(rs: seq<Json>, which: Bucket): seq<Json> {
    if rs == [] then []
    else Collect(rs[..|rs| - 1], which) + (if BucketOfResponse(rs[|rs| - 1]) == which then Spread(Ans(rs[|rs| - 1])) else [])
  }

  /** All the answer values the responses carry, a list counting its elements. */
  function Volume(rs: seq<Json>): nat {
    if rs == [] then 0 else Volume(rs[..|rs| - 1]) + |Spread(Ans(rs[|rs| - 1]))|
  }

  /** Each list holds exactly the answers of the responses that belong to it. */
  lemma {:induction false} BucketsCollect(rs: seq<Json>)
    requires SummaryBuckets(rs).Ok?
    ensures var b := SummaryBuckets(rs).value;
      b.interests == Collect(rs, InterestBucket) && b.strengths == Collect(rs, StrengthBucket)
      && b.constraints == Collect(rs, ConstraintBucket)
    decreases |rs|
  {
    if rs != [] {
      BucketsCollect(rs[..|rs| - 1]);
    }
  }

  /** Every answer value lands in exactly one of the four places, so no response is counted twice. */
  lemma {:induction false} BucketsPartition(rs: seq<Json>)
    ensures |Collect(rs, InterestBucket)| + |Collect(rs, StrengthBucket)| + |Collect(rs, ConstraintBucket)|
            + |Collect(rs, NoBucket)| == Volume(rs)
    decreases |rs|
  {
    if rs != [] {
      BucketsPartition(rs[..|rs| - 1]);
    }
  }

  /** The part for one list: its first `n` values after the caption, or nothing for an empty list. */
  function Part(caption: string, values: seq<Json>, n: nat, repr: Json -> string): seq<string> {
    if values == [] then [] else [caption + Join(ShowAll(Take(values, n), repr), ", ")]
  }

  const Incomplete := "Profile incomplete."

  /** The summary text of the three lists. */
  function SummaryText(b: Buckets, repr: Json -> string): (r: string)
    ensures r == Incomplete <==> b.interests == [] && b.strengths == [] && b.constraints == []
    ensures r != [] && r[0] in {'P', 'I', 'K', 'W'}
  {
    var parts := Part("Interested in: ", b.interests, 3, repr) + Part("Key strengths: ", b.strengths, 3, repr)
      + Part("Work preferences: ", b.constraints, 2, repr);
    if parts == [] then Incomplete
    else
      var r := Join(parts, ". ") + ".";
      JoinHead(parts, ". ");
      assert r[0] == parts[0][0];
      assert parts[0][0] in {'I', 'K', 'W'};
      r
  }

  /** A join starts with the first part's first character. */
  lemma JoinHead(parts: seq<string>, sep: string)
    requires parts != [] && parts[0] != []
    ensures Join(parts, sep) != [] && Join(parts, sep)[0] == parts[0][0]
  {
    if |parts| > 1 {
      assert Join(parts, sep) == parts[0] + (sep + Join(parts[1..], sep));
    }
  }

  /** Only the first three interests, three strengths and two preferences can appear. */
  lemma SummaryShowsFirstFew(b: Buckets, repr: Json -> string)
    ensures SummaryText(b, repr) == SummaryText(Buckets(Take(b.interests, 3), Take(b.strengths, 3), Take(b.constraints, 2)), repr)
  {
    var t := Buckets(Take(b.interests, 3), Take(b.strengths, 3), Take(b.constraints, 2));
    assert Take(t.interests, 3) == Take(b.interests, 3);
    assert Take(t.strengths, 3) == Take(b.strengths, 3);
    assert Take(t.constraints, 2) == Take(b.constraints, 2);
    assert Part("Interested in: ", t.interests, 3, repr) == Part("Interested in: ", b.interests, 3, repr);
    assert Part("Key strengths: ", t.strengths, 3, repr) == Part("Key strengths: ", b.strengths, 3, repr);
    assert Part("Work preferences: ", t.constraints, 2, repr) == Part("Work preferences: ", b.constraints, 2, repr);
  }

  /** `format_profile_summary` */
  function FormatSummary(profile: map<string, Json>, repr: Json -> string): (r: Result<string>)
    ensures profile == map[] ==> r == Ok("No profile available.")
    ensures r.Ok? && profile != map[] ==> r.value != "No profile available."
  {
    if profile == map[] then Ok("No profile available.")
    else
      var rs := Responses(profile);
      if rs.Err? then Err(rs.error)
      else
        var b := SummaryBuckets(rs.value);
        if b.Err? then Err(b.error)
        else
          var t := SummaryText(b.value, repr);
          assert t[0] != "No profile available."[0];
          Ok(t)
  }

  lemma {:induction false} SummaryFailureSticks(rs: seq<Json>, k: nat)
    requires k <= |rs| && SummaryBuckets(rs[..k]).Err?
    ensures SummaryBuckets(rs) == SummaryBuckets(rs[..k])
    decreases |rs| - k
  {
    if k < |rs| {
      assert rs[..k + 1][..k] == rs[..k];
      SummaryFailureSticks(rs, k + 1);
    } else {
      assert rs[..k] == rs;
    }
  }

  /** `format_profile_summary`: the loop extends or appends each response's answer to its list. */
  method FormatProfileSummary(profile: map<string, Json>, repr: Json -> string) returns (r: Result<string>)
    ensures r == FormatSummary(profile, repr)
  {
    if profile == map[] {
      return Ok("No profile available.");
    }
    var rs := Responses(profile);
    if rs.Err? {
      return Err(rs.error);
    }
    var responses := rs.value;
    var interests: seq<Json> := [];
    var strengths: seq<Json> := [];
    var constraints: seq<Json> := [];
    var i := 0;
    while i < |responses|
      invariant 0 <= i <= |responses|
      invariant SummaryBuckets(responses[..i]) == Ok(Buckets(interests, strengths, constraints))
    {
      assert responses[..i + 1][..i] == responses[..i];
      var response := responses[i];
      if !response.JObj? || !SummaryCat(response).JStr? {
        var e := if response.JObj? then NoLower else NoGet;
        assert SummaryBuckets(responses[..i + 1]) == Err(ServerError(e));
        SummaryFailureSticks(responses, i + 1);
        return Err(ServerError(e));
      }
      var answer := Ans(response);
      var which := BucketOf(SummaryCat(response).s);
      var values := if answer.JList? then answer.items else [answer];
      if which == InterestBucket {
        interests := interests + values;
      } else if which == StrengthBucket {
        strengths := strengths + values;
      } else if which == ConstraintBucket {
        constraints := constraints + values;
      }
      i := i + 1;
    }
    assert responses[..i] == responses;
    return Ok(SummaryText(Buckets(interests, strengths, constraints), repr));
  }
}
