/**
 * The configuration guards of backend/app/services/external_data_service.py:
 * each O*NET or Adzuna lookup fails with a RuntimeError before issuing any
 * request when its feature flag is off or its credentials are missing.
 */
module ExternalConfig {
  import opened Wrappers
  import opened Text

  /** The settings of `app.core.config` the lookups read; a credential may be unset. */
  datatype Config = Config(
    featureOnet: bool, onetUser: Option<string>, onetKey: Option<string>,
    featureAdzuna: bool, adzunaId: Option<string>, adzunaKey: Option<string>,
    adzunaCountry: Option<string>)

  /** Python truthiness of an optional string setting. */
  predicate Given(s: Option<string>) { s.Some? && s.value != "" }

  const OnetDisabled := "FEATURE_ONET must be enabled for O*NET lookups"
  const OnetNoCredentials := "O*NET credentials are required"
  const AdzunaDisabled := "FEATURE_ADZUNA must be enabled for Adzuna lookups"
  const AdzunaNoCredentials := "Adzuna credentials are required"

  /** `_ensure_onet_ready`: the flag is checked before the credentials. */
  function EnsureOnetReady(c: Config): (r: Result<()>)
    ensures r.Ok? <==> c.featureOnet && Given(c.onetUser) && Given(c.onetKey)
    ensures !c.featureOnet ==> r == Err(RuntimeError(OnetDisabled))
    ensures c.featureOnet && !(Given(c.onetUser) && Given(c.onetKey)) ==> r == Err(RuntimeError(OnetNoCredentials))
  {
    if !c.featureOnet then Err(RuntimeError(OnetDisabled))
    else if !Given(c.onetUser) || !Given(c.onetKey) then Err(RuntimeError(OnetNoCredentials))
    else Ok(())
  }

  /** `_ensure_adzuna_ready`: the flag is checked before the credentials. */
  function EnsureAdzunaReady(c: Config): (r: Result<()>)
    ensures r.Ok? <==> c.featureAdzuna && Given(c.adzunaId) && Given(c.adzunaKey)
    ensures !c.featureAdzuna ==> r == Err(RuntimeError(AdzunaDisabled))
    ensures c.featureAdzuna && !(Given(c.adzunaId) && Given(c.adzunaKey)) ==> r == Err(RuntimeError(AdzunaNoCredentials))
  {
    if !c.featureAdzuna then Err(RuntimeError(AdzunaDisabled))
    else if !Given(c.adzunaId) || !Given(c.adzunaKey) then Err(RuntimeError(AdzunaNoCredentials))
    else Ok(())
  }

  /** `_adzuna_country_path`: the stripped, lower-cased country, "us" when unset or blank. */
  function CountryPath(c: Config): (r: string)
    ensures r != []
    ensures !Given(c.adzunaCountry) ==> r == "us"
    ensures forall i :: 0 <= i < |r| ==> !('A' <= r[i] <= 'Z')
  {
    var country := Lower(Strip(if Given(c.adzunaCountry) then c.adzunaCountry.value else "us"));
    LowerEach(Strip(if Given(c.adzunaCountry) then c.adzunaCountry.value else "us"));
    if country == "" then "us" else country
  }
}

/**
 * The post-processing of the O*NET responses in
 * backend/app/services/external_data_service.py: occupation filtering, and
 * the title, description and ranked, de-duplicated skill list of
 * `onet_get_details`.  The HTTP responses are inputs.
 */
module OnetData {
  import opened Wrappers
  import opened Text
  import opened Json
  import opened CaseInsensitive
  import opened ExternalConfig

  // ---------------------------------------------------------------
  // onet_search_occupations
  // ---------------------------------------------------------------

  datatype Occupation = Occupation(soc: Json, title: Json)

  function OccupationOf(entry: map<string, Json>): Occupation {
    Occupation(GetField(entry, "code"), GetField(entry, "title"))
  }

  predicate Named(entry: map<string, Json>) {
    Truthy(GetField(entry, "code")) && Truthy(GetField(entry, "title"))
  }

  /** The comprehension's filter: entries with both a code and a title. */
  function NamedOccupations(entries: seq<map<string, Json>>): (r: seq<Occupation>)
    ensures |r| <= |entries|
    ensures forall o :: o in r ==> Truthy(o.soc) && Truthy(o.title)
    ensures forall i :: 0 <= i < |entries| && Named(entries[i]) ==> OccupationOf(entries[i]) in r
  {
    if entries == [] then []
    else (if Named(entries[0]) then [OccupationOf(entries[0])] else []) + NamedOccupations(entries[1..])
  }

  /** The filter keeps the entries' order: filtering a concatenation concatenates the filtered parts. */
  lemma {:induction false} NamedOccupationsAppend(a: seq<map<string, Json>>, b: seq<map<string, Json>>)
    ensures NamedOccupations(a + b) == NamedOccupations(a) + NamedOccupations(b)
    decreases |a|
  {
    if a == [] {
      assert a + b == b;
    } else {
      assert (a + b)[1..] == a[1..] + b;
      NamedOccupationsAppend(a[1..], b);
    }
  }

  /** `onet_search_occupations(keywords)` given the decoded search response. */
  function SearchOccupations(c: Config, payload: Json): (r: Result<seq<Occupation>>)
    ensures EnsureOnetReady(c).Err? ==> r == Err(EnsureOnetReady(c).error)
    ensures r.Ok? ==> forall o :: o in r.value ==> Truthy(o.soc) && Truthy(o.title)
    ensures EnsureOnetReady(c).Ok? && payload.JObj? && "occupation" !in payload.fields ==> r == Ok([])
    ensures r.Ok? <==> (EnsureOnetReady(c).Ok? && payload.JObj?
      && IterForGet(GetOr(payload.fields, "occupation", JList([]))).Ok?
      && AllDicts(IterForGet(GetOr(payload.fields, "occupation", JList([]))).value).Ok?)
    ensures r.Ok? ==> r.value == NamedOccupations(AllDicts(IterForGet(GetOr(payload.fields, "occupation", JList([]))).value).value)
  {
    var ready := EnsureOnetReady(c);
    if ready.Err? then Err(ready.error)
    else if !payload.JObj? then Err(ServerError(NoGet))
    else
      var items := IterForGet(GetOr(payload.fields, "occupation", JList([])));
      if items.Err? then Err(items.error)
      else
        var entries := AllDicts(items.value);
        if entries.Err? then Err(entries.error) else Ok(NamedOccupations(entries.value))
  }

  /** A failed guard decides the result whatever the response would have been. */
  lemma SearchGuardFirst(c: Config, p1: Json, p2: Json)
    requires EnsureOnetReady(c).Err?
    ensures SearchOccupations(c, p1) == SearchOccupations(c, p2)
  {
  }

  // ---------------------------------------------------------------
  // onet_get_details: title and description
  // ---------------------------------------------------------------

  /** `data.get("title") or data.get("occupation", {}).get("title") or soc` */
  function DetailTitle(data: map<string, Json>, soc: string): (r: Result<Json>)
    ensures Truthy(GetField(data, "title")) ==> r == Ok(GetField(data, "title"))
    ensures !Truthy(GetField(data, "title")) ==> var occupation := GetOr(data, "occupation", JObj(map[]));
      && (!occupation.JObj? ==> r == Err(ServerError(NoGet)))
      && (occupation.JObj? && Truthy(GetField(occupation.fields, "title")) ==> r == Ok(GetField(occupation.fields, "title")))
      && (occupation.JObj? && !Truthy(GetField(occupation.fields, "title")) ==> r == Ok(JStr(soc)))
    ensures r.Ok? ==> Truthy(r.value) || r.value == JStr(soc)
  {
    var title := GetField(data, "title");
    if Truthy(title) then Ok(title)
    else
      var occupation := GetOr(data, "occupation", JObj(map[]));
      if !occupation.JObj? then Err(ServerError(NoGet))
      else Ok(Or(GetField(occupation.fields, "title"), JStr(soc)))
  }

  /** `data.get("summary") or data.get("description") or ""` */
  function DetailDescription(data: map<string, Json>): (r: Json)
    ensures Truthy(r) || r == JStr("")
    ensures Truthy(GetField(data, "summary")) ==> r == GetField(data, "summary")
    ensures !Truthy(GetField(data, "summary")) && Truthy(GetField(data, "description")) ==> r == GetField(data, "description")
    ensures !Truthy(GetField(data, "summary")) && !Truthy(GetField(data, "description")) ==> r == JStr("")
  {
    Or(GetField(data, "summary"), Or(GetField(data, "description"), JStr("")))
  }

  // ---------------------------------------------------------------
  // onet_get_details: skills
  // ---------------------------------------------------------------

  /** A `(value, name)` pair of the skill list. */
  datatype Skill = Skill(value: real, name: string)

  /** `float(raw)` when `isinstance(raw, (int, float))`; a bool is an int. */
  function NumericValue(j: Json): Option<real> {
    match j
    case JInt(i) => Some(i as real)
    case JFloat(x) => Some(x)
    case JBool(b) => Some(if b then 1.0 else 0.0)
    case _ => None
  }

  /** The score a skill element's `score` dict gives: its numeric value, or 0, plus one half when important. */
  function ScoreValue(score: map<string, Json>): (v: real)
    ensures var raw := NumericValue(GetField(score, "value"));
      var base := if raw.Some? then raw.value else 0.0;
      v - base == (if Truthy(GetField(score, "important")) then 0.5 else 0.0)
  {
    var raw := NumericValue(GetField(score, "value"));
    var base := if raw.Some? then raw.value else 0.0;
    if Truthy(GetField(score, "important")) then base + 0.5 else base
  }

  /**
   * One pass of the skill loop: None when the name is not a string (the
   * score is then never read), otherwise the skill; a 500 when the element
   * or its score is not a dict.
   */
  function SkillOf(element: Json): (r: Result<Option<Skill>>)
    ensures element.JObj? && !GetField(element.fields, "name").JStr? ==> r == Ok(None)
    ensures r.Ok? && r.value.Some? ==> element.JObj? && GetField(element.fields, "name") == JStr(r.value.value.name)
    ensures !element.JObj? ==> r.Err?
  {
    if !element.JObj? then Err(ServerError(NoGet))
    else
      var name := GetField(element.fields, "name");
      var score := GetOr(element.fields, "score", JObj(map[]));
      if !name.JStr? then Ok(None)
      else if !score.JObj? then Err(ServerError(NoGet))
      else Ok(Some(Skill(ScoreValue(score.fields), name.s)))
  }

  /** The list the loop builds, or the first element's error. */
  function SkillEntries(elements: seq<Json>): (r: Result<seq<Skill>>)
    ensures r.Ok? ==> |r.value| <= |elements|
  {
    if elements == [] then Ok([])
    else
      var first := SkillOf(elements[0]);
      var rest := SkillEntries(elements[1..]);
      if first.Err? then Err(first.error)
      else if rest.Err? then rest
      else if first.value.None? then rest
      else Ok([first.value.value] + rest.value)
  }

  /** Prefix a list to a successful result. */
  function Prepend(xs: seq<Skill>, r: Result<seq<Skill>>): Result<seq<Skill>> {
    if r.Ok? then Ok(xs + r.value) else r
  }

  lemma PrependOne(xs: seq<Skill>, x: Skill, r: Result<seq<Skill>>)
    ensures Prepend(xs, Prepend([x], r)) == Prepend(xs + [x], r)
  {
    if r.Ok? {
      assert xs + ([x] + r.value) == (xs + [x]) + r.value;
    }
  }

  /** The `for element in ...` loop appending `(value, name)` pairs. */
  method CollectSkills(elements: seq<Json>) returns (r: Result<seq<Skill>>)
    ensures r == SkillEntries(elements)
  {
    var skills: seq<Skill> := [];
    var i := 0;
    assert elements[0..] == elements;
    assert SkillEntries(elements).Ok? ==> [] + SkillEntries(elements).value == SkillEntries(elements).value;
    while i < |elements|
      invariant 0 <= i <= |elements|
      invariant SkillEntries(elements) == Prepend(skills, SkillEntries(elements[i..]))
    {
      assert elements[i..][1..] == elements[i + 1..];
      var entry := SkillOf(elements[i]);
      if entry.Err? {
        return Err(entry.error);
      }
      if entry.value.Some? {
        PrependOne(skills, entry.value.value, SkillEntries(elements[i + 1..]));
        skills := skills + [entry.value.value];
      }
      i := i + 1;
    }
    assert elements[i..] == [];
    assert skills + [] == skills;
    return Ok(skills);
  }

  predicate SortedDesc(xs: seq<Skill>) {
    forall i, j :: 0 <= i < j < |xs| ==> xs[i].value >= xs[j].value
  }

  /** Insert before the first skill whose value does not exceed `x`'s. */
  function InsertSkill(x: Skill, xs: seq<Skill>): (r: seq<Skill>)
    ensures multiset(r) == multiset(xs) + multiset{x}
  {
    if xs == [] || x.value >= xs[0].value then [x] + xs
    else
      assert xs == [xs[0]] + xs[1..];
      [xs[0]] + InsertSkill(x, xs[1..])
  }

  lemma {:induction false} InsertSkillSorted(x: Skill, xs: seq<Skill>)
    requires SortedDesc(xs)
    ensures SortedDesc(InsertSkill(x, xs))
    decreases |xs|
  {
    if !(xs == [] || x.value >= xs[0].value) {
      var rest := InsertSkill(x, xs[1..]);
      InsertSkillSorted(x, xs[1..]);
      forall k | 0 <= k < |rest| ensures xs[0].value >= rest[k].value {
        assert rest[k] in multiset(xs[1..]) + multiset{x};
        if rest[k] != x {
          assert rest[k] in xs[1..];
        }
      }
    }
  }

  /** `skills.sort(key=lambda pair: pair[0], reverse=True)`: stable, by descending value. */
  function SortSkills(xs: seq<Skill>): (r: seq<Skill>)
    ensures multiset(r) == multiset(xs)
  {
    if xs == [] then []
    else
      assert xs == [xs[0]] + xs[1..];
      InsertSkill(xs[0], SortSkills(xs[1..]))
  }

  lemma {:induction false} SortSkillsSorted(xs: seq<Skill>)
    ensures SortedDesc(SortSkills(xs))
    decreases |xs|
  {
    if xs != [] {
      SortSkillsSorted(xs[1..]);
      InsertSkillSorted(xs[0], SortSkills(xs[1..]));
    }
  }

  function Names(xs: seq<Skill>): (r: seq<string>)
    ensures |r| == |xs|
  {
    if xs == [] then [] else [xs[0].name] + Names(xs[1..])
  }

  /** The `seen` loop on the pairs: a skill is kept unless its lower-cased name was seen. */
  function DedupeSkills(seen: set<string>, xs: seq<Skill>): (r: seq<Skill>)
    ensures forall s :: s in r ==> s in xs
    decreases |xs|
  {
    if xs == [] then []
    else if Lower(xs[0].name) in seen then DedupeSkills(seen, xs[1..])
    else [xs[0]] + DedupeSkills(seen + {Lower(xs[0].name)}, xs[1..])
  }

  /** The names the `seen` loop keeps are the case-insensitive de-duplication of the names. */
  lemma {:induction false} DedupeSkillsNames(seen: set<string>, xs: seq<Skill>)
    ensures Names(DedupeSkills(seen, xs)) == Dedupe(seen, Names(xs))
    decreases |xs|
  {
    if xs != [] {
      assert Names(xs)[0] == xs[0].name && Names(xs)[1..] == Names(xs[1..]);
      if Lower(xs[0].name) in seen {
        DedupeSkillsNames(seen, xs[1..]);
      } else {
        DedupeSkillsNames(seen + {Lower(xs[0].name)}, xs[1..]);
      }
    }
  }

  /** Dropping skills from a descending list keeps it descending. */
  lemma {:induction false} DedupeSkillsSorted(seen: set<string>, xs: seq<Skill>)
    requires SortedDesc(xs)
    ensures SortedDesc(DedupeSkills(seen, xs))
    decreases |xs|
  {
    if xs != [] {
      assert SortedDesc(xs[1..]);
      if Lower(xs[0].name) in seen {
        DedupeSkillsSorted(seen, xs[1..]);
      } else {
        var rest := DedupeSkills(seen + {Lower(xs[0].name)}, xs[1..]);
        DedupeSkillsSorted(seen + {Lower(xs[0].name)}, xs[1..]);
        forall k | 0 <= k < |rest| ensures xs[0].value >= rest[k].value {
          assert rest[k] in rest;
          assert rest[k] in xs[1..];
        }
      }
    }
  }

  /** A prefix of a list whose keys are distinct has distinct keys. */
  lemma DistinctKeysTake(xs: seq<string>, n: nat)
    requires Distinct(Keys(xs))
    ensures Distinct(Keys(Take(xs, n)))
  {
    var t := Take(xs, n);
    assert xs == t + xs[|t|..];
    KeysAppend(t, xs[|t|..]);
    assert Keys(t) == Keys(xs)[..|t|];
  }

  /** `unique_skills[:25]` from the collected pairs. */
  function TopSkills(entries: seq<Skill>): seq<string> {
    Take(Dedupe({}, Names(SortSkills(entries))), 25)
  }

  /**
   * The returned skills: at most 25, no two equal ignoring case, and the
   * names, in order, of a list of the collected skills ranked by descending
   * value that keeps the first of each case-insensitive name.
   */
  lemma SkillsRanked(entries: seq<Skill>)
    ensures |TopSkills(entries)| <= 25
    ensures Distinct(Keys(TopSkills(entries)))
    ensures var ranked := DedupeSkills({}, SortSkills(entries));
      && SortedDesc(ranked)
      && (forall s :: s in ranked ==> s in multiset(entries))
      && TopSkills(entries) == Take(Names(ranked), 25)
  {
    var sorted := SortSkills(entries);
    SortSkillsSorted(entries);
    DedupeSkillsSorted({}, sorted);
    DedupeSkillsNames({}, sorted);
    DedupeDistinct({}, Names(sorted));
    DistinctKeysTake(Dedupe({}, Names(sorted)), 25);
    forall s | s in DedupeSkills({}, sorted) ensures s in multiset(entries) {
      assert s in sorted;
      assert s in multiset(sorted);
    }
  }

  datatype Details = Details(soc: string, title: Json, description: Json, skills: seq<string>)

  /** The elements of the skills response: `skills_payload.get("element", []) or []`. */
  function SkillElements(skillsPayload: Json): Result<seq<Json>> {
    if !skillsPayload.JObj? then Err(ServerError(NoGet))
    else IterForGet(Or(GetOr(skillsPayload.fields, "element", JList([])), JList([])))
  }

  /** `onet_get_details(soc)` given the two decoded responses. */
  method OnetGetDetails(c: Config, soc: string, data: Json, skillsPayload: Json) returns (r: Result<Details>)
    ensures EnsureOnetReady(c).Err? ==> r == Err(EnsureOnetReady(c).error)
    ensures r.Ok? ==> |r.value.skills| <= 25 && Distinct(Keys(r.value.skills))
    ensures r.Ok? ==> r.value.soc == soc && data.JObj? && r.value.description == DetailDescription(data.fields)
    ensures r.Ok? ==> DetailTitle(data.fields, soc) == Ok(r.value.title)
    ensures r.Ok? ==> (SkillElements(skillsPayload).Ok? && SkillEntries(SkillElements(skillsPayload).value).Ok?
      && r.value.skills == TopSkills(SkillEntries(SkillElements(skillsPayload).value).value))
  {
    var ready := EnsureOnetReady(c);
    if ready.Err? {
      return Err(ready.error);
    }
    if !data.JObj? {
      return Err(ServerError(NoGet));
    }
    var title := DetailTitle(data.fields, soc);
    if title.Err? {
      return Err(title.error);
    }
    var description := DetailDescription(data.fields);
    var elements := SkillElements(skillsPayload);
    if elements.Err? {
      return Err(elements.error);
    }
    var collected := CollectSkills(elements.value);
    if collected.Err? {
      return Err(collected.error);
    }
    var sorted := SortSkills(collected.value);
    var unique := Collect(Names(sorted));
    SkillsRanked(collected.value);
    return Ok(Details(soc, title.value, description, Take(unique, 25)));
  }
}
