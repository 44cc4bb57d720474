/**
 * `_card_from_profile` of backend/app/services/recommendation_service.py:
 * the card the recommendation endpoints return, merged from the stored
 * recommendation (when there is one) and the career profile.
 */
module CareerCard {
  import opened Wrappers
  import opened Text
  import opened Json
  import opened Rounding
  import opened SalaryRange
  import opened GrowthText
  import opened IndustryTag
  import opened Explanation

  datatype Profile = Profile(
    id: int, soc: Option<string>, title: Option<string>, salaryRange: Json,
    demandIndicator: Option<string>, description: Option<string>, requiredSkills: Json)

  datatype Recommendation = Recommendation(
    salaryRange: Json, growthTrend: Option<string>, fitScore: Option<real>,
    why: Option<string>, topSkills: Json, tips: Json)

  datatype Card = Card(
    id: int, soc: Option<string>, title: Option<string>, fitScore: real,
    salary: Option<Salary>, growth: string, industryTag: string, why: string,
    topSkills: seq<string>, tips: seq<string>, userAction: string)

  /**
   * Python `str(item)` for a list item.  `render` is `str` on values that
   * are not strings.
   */
  function StrOf(j: Json, render: Json -> string): string {
    if j.JStr? then j.s else render(j)
  }

  /** `[str(item) for item in items if item]` */
  function Stringify(items: seq<Json>, render: Json -> string): (r: seq<string>)
    ensures |r| <= |items|
  {
    if items == [] then []
    else (if Truthy(items[0]) then [StrOf(items[0], render)] else []) + Stringify(items[1..], render)
  }

  /** `_normalize_skills`: the first eight truthy items of a list, else nothing. */
  function NormalizeSkills(skills: Json, render: Json -> string): (r: seq<string>)
    ensures |r| <= 8
    ensures !skills.JList? ==> r == []
  {
    if skills.JList? then Take(Stringify(skills.items, render), 8) else []
  }

  /** Python truthiness of an optional string. */
  predicate Present(s: Option<string>) { s.Some? && s.value != "" }

  /** The text if present, else the fallback (`a or b`). */
  function OrElse(s: Option<string>, fallback: string): string {
    if Present(s) then s.value else fallback
  }

  predicate ArrowLed(s: string) { s != [] && IsArrow(s[0]) }

  const ChangeSuffix := " change (12 mo)"

  /** The growth text of a stored recommendation: a short arrow form is expanded. */
  function StoredGrowth(trend: Option<string>): (r: Option<string>)
    ensures r.Some? <==> Present(trend)
    ensures r.Some? ==> r.value != []
    ensures Present(trend) && ArrowLed(Strip(trend.value)) ==> r == Some(Strip(trend.value) + ChangeSuffix)
  {
    if !Present(trend) then None
    else
      var short := Strip(trend.value);
      if ArrowLed(short) then Some(short + ChangeSuffix) else Some(NormalizeGrowthTrend(Some(short)))
  }

  /** The growth text of the profile's demand indicator: an arrow form is kept as it is. */
  function DemandGrowth(indicator: Option<string>): (r: Option<string>)
    ensures r.Some? <==> Present(indicator)
    ensures r.Some? ==> r.value != []
    ensures Present(indicator) && ArrowLed(Strip(indicator.value)) ==> r == Some(Strip(indicator.value))
  {
    if !Present(indicator) then None
    else
      var short := Strip(indicator.value);
      if ArrowLed(short) then Some(short) else Some(NormalizeGrowthTrend(Some(short)))
  }

  const DefaultGrowth := "→ 0%"
  const DefaultWhy := "This role aligns with your strengths and goals."

  /** `card["user_action"]`: no action reads "no_action", and "favorite" reads "saved". */
  function UserLabel(action: Option<string>): (r: string)
    ensures r != "favorite" && r != ""
    ensures !Present(action) ==> r == "no_action"
    ensures Present(action) && action.value != "favorite" ==> r == action.value
    ensures action == Some("favorite") ==> r == "saved"
  {
    var shown := OrElse(action, "no_action");
    if shown == "favorite" then "saved" else shown
  }

  /** The card's growth text. */
  function CardGrowth(rec: Option<Recommendation>, profile: Profile): (r: string)
    ensures r != []
    ensures rec.Some? && Present(rec.value.growthTrend) ==> Some(r) == StoredGrowth(rec.value.growthTrend)
    ensures (rec.None? || !Present(rec.value.growthTrend)) && Present(profile.demandIndicator)
      ==> Some(r) == DemandGrowth(profile.demandIndicator)
    ensures (rec.None? || !Present(rec.value.growthTrend)) && !Present(profile.demandIndicator) ==> r == DefaultGrowth
  {
    var stored := if rec.Some? then StoredGrowth(rec.value.growthTrend) else None;
    var growth := if stored.Some? then stored else DemandGrowth(profile.demandIndicator);
    if growth.Some? && growth.value != "" then growth.value else DefaultGrowth
  }

  /** The stored tips, when the recommendation has a list of them. */
  function StoredTips(rec: Option<Recommendation>, render: Json -> string): seq<string> {
    if rec.Some? && Truthy(rec.value.tips) && rec.value.tips.JList? then Stringify(rec.value.tips.items, render)
    else []
  }

  /** The card's tips: the stored ones, else the two fallback tips; two at most. */
  function CardTips(rec: Option<Recommendation>, growth: string, render: Json -> string): (r: seq<string>)
    ensures 1 <= |r| <= 2
    ensures StoredTips(rec, render) == [] ==> r == FallbackTips(Some(growth))
    ensures StoredTips(rec, render) != [] ==> r == Take(StoredTips(rec, render), 2)
  {
    var stored := StoredTips(rec, render);
    if stored != [] then Take(stored, 2) else FallbackTips(Some(growth))
  }

  /** The card's skills: the recommendation's, else the profile's required skills; four at most. */
  function CardSkills(rec: Option<Recommendation>, profile: Profile, render: Json -> string): (r: seq<string>)
    ensures |r| <= 4
    ensures rec.Some? && NormalizeSkills(rec.value.topSkills, render) != [] ==>
      r == Take(NormalizeSkills(rec.value.topSkills, render), 4)
    ensures rec.None? || NormalizeSkills(rec.value.topSkills, render) == [] ==>
      r == Take(NormalizeSkills(profile.requiredSkills, render), 4)
  {
    var recSkills := if rec.Some? then NormalizeSkills(rec.value.topSkills, render) else [];
    Take(if recSkills != [] then recSkills else NormalizeSkills(profile.requiredSkills, render), 4)
  }

  /** The card's explanation: the stored one, else the description, else a default. */
  function CardWhy(rec: Option<Recommendation>, profile: Profile): (r: string)
    ensures r != []
    ensures rec.Some? && Present(rec.value.why) ==> r == rec.value.why.value
    ensures (rec.None? || !Present(rec.value.why)) && Present(profile.description) ==> r == profile.description.value
    ensures (rec.None? || !Present(rec.value.why)) && !Present(profile.description) ==> r == DefaultWhy
  {
    if rec.Some? && Present(rec.value.why) then rec.value.why.value
    else OrElse(profile.description, DefaultWhy)
  }

  /** The card's salary: the recommendation's range when it normalises, else the profile's. */
  function CardSalary(rec: Option<Recommendation>, profile: Profile, loads: string -> Option<Json>): (r: Option<Salary>)
    ensures rec.Some? && NormalizeSalaryRange(rec.value.salaryRange, loads).Some? ==>
      r == NormalizeSalaryRange(rec.value.salaryRange, loads)
    ensures rec.None? || NormalizeSalaryRange(rec.value.salaryRange, loads).None? ==>
      r == NormalizeSalaryRange(profile.salaryRange, loads)
  {
    var recSalary := if rec.Some? then NormalizeSalaryRange(rec.value.salaryRange, loads) else None;
    if recSalary.Some? then recSalary else NormalizeSalaryRange(profile.salaryRange, loads)
  }

  /** `_card_from_profile(profile, recommendation, action)` */
  function CardFromProfile(profile: Profile, rec: Option<Recommendation>, action: Option<string>,
                           render: Json -> string, loads: string -> Option<Json>): (c: Card)
    ensures c.id == profile.id && c.soc == profile.soc && c.title == profile.title
    ensures c.fitScore == (if rec.Some? && rec.value.fitScore.Some? then Round1(rec.value.fitScore.value) else 0.0)
    ensures c.growth != [] && c.why != []
    ensures |c.topSkills| <= 4 && 1 <= |c.tips| <= 2
    ensures c.userAction != "favorite"
    ensures c.growth == CardGrowth(rec, profile) && c.why == CardWhy(rec, profile)
    ensures c.topSkills == CardSkills(rec, profile, render) && c.tips == CardTips(rec, c.growth, render)
    ensures c.salary == CardSalary(rec, profile, loads)
    ensures c.industryTag == InferIndustryTag(profile.soc, profile.title) && c.userAction == UserLabel(action)
  {
    var growth := CardGrowth(rec, profile);
    Card(profile.id, profile.soc, profile.title,
         if rec.Some? && rec.value.fitScore.Some? then Round1(rec.value.fitScore.value) else 0.0,
         CardSalary(rec, profile, loads), growth, InferIndustryTag(profile.soc, profile.title),
         CardWhy(rec, profile), CardSkills(rec, profile, render), CardTips(rec, growth, render), UserLabel(action))
  }

  /** Saving under either spelling shows the same label, and the label is stable. */
  lemma LabelStable(action: Option<string>)
    ensures UserLabel(Some("favorite")) == UserLabel(Some("saved")) == "saved"
    ensures UserLabel(Some(UserLabel(action))) == UserLabel(action)
  {
  }
}
