/** `_infer_industry_tag` of backend/app/services/recommendation_service.py. */
module IndustryTag {
  import opened Wrappers
  import opened Text

  /** SOC major group (first two digits) to sector label. */
  const SocSectorMap: map<string, string> := map[
    "11" := "Corporate Leadership",
    "13" := "Finance & Business",
    "15" := "Technology & Computing",
    "17" := "Engineering & Architecture",
    "19" := "Science & Analytics",
    "21" := "Community & Social Services",
    "23" := "Legal Services",
    "25" := "Education & Training",
    "27" := "Arts, Design & Media",
    "29" := "Healthcare Practitioners",
    "31" := "Healthcare Support",
    "33" := "Protective Services",
    "35" := "Food & Hospitality",
    "37" := "Facilities & Maintenance",
    "39" := "Personal Care & Services",
    "41" := "Sales & Client Relations",
    "43" := "Administrative & Operations",
    "45" := "Agriculture & Natural Resources",
    "47" := "Construction & Extraction",
    "49" := "Installation & Repair",
    "51" := "Manufacturing & Production",
    "53" := "Transportation & Logistics",
    "55" := "Military & Protective Service"]

  /** Title keywords, tried in this order, with the SOC group whose label each gives. */
  const TitleKeywords: seq<(string, string)> := [
    ("software", "15"),       // Technology & Computing
    ("data", "19"),           // Science & Analytics
    ("nurse", "29"),          // Healthcare Practitioners
    ("teacher", "25"),        // Education & Training
    ("marketing", "41"),      // Sales & Client Relations
    ("construction", "47"),   // Construction & Extraction
    ("manufacturing", "51"),  // Manufacturing & Production
    ("logistics", "53")]      // Transportation & Logistics

  lemma KeywordGroupsKnown()
    ensures forall i :: 0 <= i < |TitleKeywords| ==> TitleKeywords[i].1 in SocSectorMap
  {
  }

  const GeneralLabel := "General Professional Services"

  /** `"".join(ch for ch in soc if ch.isdigit())` */
  function DigitsOf(s: string): (r: string)
    ensures AllDigits(r) && |r| <= |s|
  {
    if s == [] then "" else (if IsDigit(s[0]) then [s[0]] else "") + DigitsOf(s[1..])
  }

  /** The sector of a SOC code's major group, when it has one. */
  function SectorOf(soc: Option<string>): Option<string> {
    if soc.None? || soc.value == "" then None
    else
      var d := DigitsOf(soc.value);
      if |d| >= 2 && d[..2] in SocSectorMap then Some(SocSectorMap[d[..2]]) else None
  }

  /** The label of the first keyword contained in `lowered`. */
  function FirstKeyword(lowered: string, kws: seq<(string, string)>): (r: Option<string>)
    ensures r.Some? ==> exists i :: (0 <= i < |kws| && r.value == kws[i].1 && Contains(lowered, kws[i].0)
      && forall j :: 0 <= j < i ==> !Contains(lowered, kws[j].0))
    ensures r.None? ==> forall i :: 0 <= i < |kws| ==> !Contains(lowered, kws[i].0)
  {
    if kws == [] then None
    else if Contains(lowered, kws[0].0) then Some(kws[0].1)
    else
      var r := FirstKeyword(lowered, kws[1..]);
      assert forall i :: 1 <= i < |kws| ==> kws[i] == kws[1..][i - 1];
      r
  }

  /** `_infer_industry_tag` */
  function InferIndustryTag(soc: Option<string>, title: Option<string>): (r: string)
    ensures r == GeneralLabel || r in SocSectorMap.Values
    ensures SectorOf(soc).Some? ==> r == SectorOf(soc).value
    ensures SectorOf(soc).None? && (title.None? || FirstKeyword(Lower(title.value), TitleKeywords).None?)
      ==> r == GeneralLabel
    ensures SectorOf(soc).None? && title.Some? && title.value != "" && FirstKeyword(Lower(title.value), TitleKeywords).Some?
      ==> (FirstKeyword(Lower(title.value), TitleKeywords).value in SocSectorMap
           && r == SocSectorMap[FirstKeyword(Lower(title.value), TitleKeywords).value])
  {
    match SectorOf(soc)
    case Some(sector) => sector
    case None =>
      if title.Some? && title.value != "" then
        (match FirstKeyword(Lower(title.value), TitleKeywords)
         case Some(code) =>
           KeywordGroupsKnown();
           SocSectorMap[code]
         case None => GeneralLabel)
      else GeneralLabel
  }

  /** Without a SOC code the keyword list's order decides, not the title's: "data software" gets the label of SOC group 15, Technology & Computing. */
  lemma KeywordOrderDecides()
    ensures InferIndustryTag(None, Some("data software")) == SocSectorMap["15"]
  {
    var t := "data software";
    LowerCaseTitle(t);
    SoftwareTitle(t);
    KeywordTag(t, "15");
  }

  lemma LowerCaseTitle(t: string)
    requires t == "data software"
    ensures Lower(t) == t
  {
    LowerEach(t);
  }

  /** A title containing "software" meets the first keyword. */
  lemma SoftwareTitle(t: string)
    requires t == "data software"
    ensures FirstKeyword(t, TitleKeywords) == Some("15")
  {
    ContainsPrefix("software", "", "software");
    assert "software" + "" == "software";
    ContainsAppend("data ", "software", "software");
    assert "data " + "software" == t;
    assert TitleKeywords[0] == ("software", "15");
  }

  lemma KeywordTag(t: string, code: string)
    requires t != "" && FirstKeyword(Lower(t), TitleKeywords) == Some(code)
    ensures code in SocSectorMap && InferIndustryTag(None, Some(t)) == SocSectorMap[code]
  {
  }
}
