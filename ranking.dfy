/**
 * The ranking post-processing of `generate` in
 * backend/app/services/recommendation_service.py: the clamped raw fit, the
 * walk that drops candidates the user has already seen, the widening over
 * three broader searches, the re-sort, and the rescaling of raw fits into
 * [0.72, 0.96].  Cosine similarities and the searches' results are inputs.
 */
module Ranking {
  import opened Wrappers
  import opened Text
  import opened Rounding

  /** A built career profile as the ranking sees it. */
  datatype Candidate = Candidate(title: string, soc: Option<string>, skills: seq<string>, cosine: real)

  /**
   * A ranked entry: the raw fit, the profile, and the two keys the
   * exclusion walk compares (`title.strip().lower()` and
   * `(soc_code or "").strip().lower()`).
   */
  datatype Scored = Scored(fit: real, profile: Candidate, titleKey: string, socKey: string)

  /** `profile["title"].strip().lower()` */
  function TitleKey(c: Candidate): string { Lower(Strip(c.title)) }

  /** `(profile.get("soc_code") or "").strip().lower()` */
  function SocKey(c: Candidate): string { Lower(Strip(if c.soc.Some? then c.soc.value else "")) }

  /** The entry's keys are those of its profile. */
  predicate WellKeyed(s: Scored) {
    s.titleKey == TitleKey(s.profile) && s.socKey == SocKey(s.profile)
  }

  // ---------------------------------------------------------------
  // Raw fit
  // ---------------------------------------------------------------

  /** `max(0.0, min(1.0, x))` */
  function Clamp01(x: real): (r: real)
    ensures 0.0 <= r <= 1.0
    ensures 0.0 <= x <= 1.0 ==> r == x
    ensures x < 0.0 ==> r == 0.0
    ensures x > 1.0 ==> r == 1.0
  {
    if x < 0.0 then 0.0 else if x > 1.0 then 1.0 else x
  }

  /** The number of required skills whose lower-cased text is one of the user's skills. */
  function MatchCount(skills: seq<string>, userSkills: set<string>): (n: nat)
    ensures n <= |skills|
  {
    if skills == [] then 0
    else (if Lower(skills[0]) in userSkills then 1 else 0) + MatchCount(skills[1..], userSkills)
  }

  /** `max(0.0, min(1.0, cosine + 0.02 * matches))` */
  function RawFit(c: Candidate, userSkills: set<string>): (r: real)
    ensures 0.0 <= r <= 1.0
  {
    Clamp01(c.cosine + 0.02 * MatchCount(c.skills, userSkills) as real)
  }

  /** More matching skills never lower the raw fit. */
  lemma RawFitMonotone(c: Candidate, d: Candidate, userSkills: set<string>)
    requires c.cosine == d.cosine
    requires MatchCount(c.skills, userSkills) <= MatchCount(d.skills, userSkills)
    ensures RawFit(c, userSkills) <= RawFit(d, userSkills)
  {
  }

  // ---------------------------------------------------------------
  // Sorting by raw fit, descending (`list.sort(key=..., reverse=True)`)
  // ---------------------------------------------------------------

  predicate SortedDesc(xs: seq<Scored>) {
    forall i, j :: 0 <= i < j < |xs| ==> xs[i].fit >= xs[j].fit
  }

  /** Insert `x` before the first entry whose fit does not exceed it. */
  function Insert(x: Scored, xs: seq<Scored>): (r: seq<Scored>)
    ensures multiset(r) == multiset(xs) + multiset{x}
  {
    if xs == [] || x.fit >= xs[0].fit then [x] + xs
    else
      assert xs == [xs[0]] + xs[1..];
      [xs[0]] + Insert(x, xs[1..])
  }

  lemma {:induction false} InsertSorted(x: Scored, xs: seq<Scored>)
    requires SortedDesc(xs)
    ensures SortedDesc(Insert(x, xs))
    decreases |xs|
  {
    if !(xs == [] || x.fit >= xs[0].fit) {
      var rest := Insert(x, xs[1..]);
      InsertSorted(x, xs[1..]);
      forall k | 0 <= k < |rest| ensures xs[0].fit >= rest[k].fit {
        assert rest[k] in multiset(xs[1..]) + multiset{x};
        if rest[k] != x {
          assert rest[k] in xs[1..];
        }
      }
    }
  }

  /** Sorting by descending raw fit; equal fits keep their order. */
  function SortDesc(xs: seq<Scored>): (r: seq<Scored>)
    ensures multiset(r) == multiset(xs)
  {
    if xs == [] then []
    else
      assert xs == [xs[0]] + xs[1..];
      Insert(xs[0], SortDesc(xs[1..]))
  }

  lemma {:induction false} SortSorted(xs: seq<Scored>)
    ensures SortedDesc(SortDesc(xs))
    decreases |xs|
  {
    if xs != [] {
      SortSorted(xs[1..]);
      InsertSorted(xs[0], SortDesc(xs[1..]));
    }
  }

  /** A profile's entry: its raw fit and its keys. */
  function ScoreOf(c: Candidate, userSkills: set<string>): (r: Scored)
    ensures WellKeyed(r) && 0.0 <= r.fit <= 1.0
  {
    Scored(RawFit(c, userSkills), c, TitleKey(c), SocKey(c))
  }

  /** The candidates with their raw fits, in the order given. */
  function ScoreAll(built: seq<Candidate>, userSkills: set<string>): (r: seq<Scored>)
    ensures |r| == |built|
    ensures forall i :: 0 <= i < |r| ==> r[i] == ScoreOf(built[i], userSkills)
  {
    if built == [] then [] else [ScoreOf(built[0], userSkills)] + ScoreAll(built[1..], userSkills)
  }

  // ---------------------------------------------------------------
  // The exclusion walk
  // ---------------------------------------------------------------

  /** The walk's state: accepted candidates, the shared seen-sets and the batch sets. */
  datatype Walk = Walk(accepted: seq<Scored>, seenSocs: set<string>, seenTitles: set<string>,
                       batchSocs: set<string>, batchTitles: set<string>)

  /** Neither key of `c` has been seen or taken in this batch (an empty SOC key never collides). */
  predicate Fresh(w: Walk, s: Scored) {
    && !(s.socKey != "" && (s.socKey in w.seenSocs || s.socKey in w.batchSocs))
    && !(s.titleKey in w.seenTitles || s.titleKey in w.batchTitles)
  }

  /** Accept a candidate: append it and record its keys. */
  function Accept(w: Walk, s: Scored): Walk {
    var sk := s.socKey;
    var tk := s.titleKey;
    Walk(w.accepted + [s],
         if sk != "" then w.seenSocs + {sk} else w.seenSocs,
         w.seenTitles + {tk},
         if sk != "" then w.batchSocs + {sk} else w.batchSocs,
         w.batchTitles + {tk})
  }

  function Step(w: Walk, s: Scored): Walk {
    if Fresh(w, s) then Accept(w, s) else w
  }

  /** The walk over `xs`, stopping once `target` candidates are accepted. */
  function WalkFrom(w: Walk, xs: seq<Scored>, target: nat): Walk
    decreases |xs|
  {
    if xs == [] || |w.accepted| >= target then w else WalkFrom(Step(w, xs[0]), xs[1..], target)
  }

  /** The loop of step 6 (and, with the gateway order, the inner loop of the widening). */
  method ExcludeSeen(w0: Walk, xs: seq<Scored>, target: nat) returns (w: Walk)
    ensures w == WalkFrom(w0, xs, target)
  {
    w := w0;
    if |w.accepted| >= target {
      return;
    }
    var filtered := w0.accepted;
    var seenSocs, seenTitles := w0.seenSocs, w0.seenTitles;
    var batchSocs, batchTitles := w0.batchSocs, w0.batchTitles;
    var i := 0;
    while i < |xs|
      invariant 0 <= i <= |xs|
      invariant w == Walk(filtered, seenSocs, seenTitles, batchSocs, batchTitles)
      invariant |filtered| < target
      invariant WalkFrom(w0, xs, target) == WalkFrom(w, xs[i..], target)
    {
      assert xs[i..][1..] == xs[i + 1..];
      var titleKey := xs[i].titleKey;
      var socKey := xs[i].socKey;
      if socKey != "" && (socKey in seenSocs || socKey in batchSocs) {
        assert Step(w, xs[i]) == w;
        i := i + 1;
        continue;
      }
      if titleKey in seenTitles || titleKey in batchTitles {
        assert Step(w, xs[i]) == w;
        i := i + 1;
        continue;
      }
      ghost var prev := w;
      filtered := filtered + [xs[i]];
      if socKey != "" {
        batchSocs := batchSocs + {socKey};
        seenSocs := seenSocs + {socKey};
      }
      batchTitles := batchTitles + {titleKey};
      seenTitles := seenTitles + {titleKey};
      w := Walk(filtered, seenSocs, seenTitles, batchSocs, batchTitles);
      assert w == Step(prev, xs[i]);
      i := i + 1;
      if |filtered| >= target {
        return;
      }
    }
  }

  /** Every entry's keys are those of its profile. */
  predicate AllKeyed(xs: seq<Scored>) {
    forall i :: 0 <= i < |xs| ==> WellKeyed(xs[i])
  }

  /** The walk accepts only entries of `xs`, so their keys stay those of their profiles. */
  lemma WalkKeepsKeyed(w: Walk, xs: seq<Scored>, target: nat)
    requires AllKeyed(w.accepted) && AllKeyed(xs)
    ensures AllKeyed(WalkFrom(w, xs, target).accepted)
  {
    WalkGrows(w, xs, target);
  }

  /** What the walk keeps true: batch keys are seen, accepted keys are distinct and were not seen at the start. */
  predicate WalkInv(w: Walk, socs0: set<string>, titles0: set<string>) {
    && socs0 <= w.seenSocs && titles0 <= w.seenTitles
    && w.batchSocs <= w.seenSocs && w.batchTitles <= w.seenTitles
    && (forall i :: 0 <= i < |w.accepted| ==>
          && w.accepted[i].titleKey in w.seenTitles && w.accepted[i].titleKey !in titles0
          && (w.accepted[i].socKey != "" ==>
                w.accepted[i].socKey in w.seenSocs && w.accepted[i].socKey !in socs0))
    && (forall i, j :: 0 <= i < j < |w.accepted| ==>
          && w.accepted[i].titleKey != w.accepted[j].titleKey
          && (w.accepted[i].socKey != "" ==> w.accepted[i].socKey != w.accepted[j].socKey))
  }

  lemma StepInv(w: Walk, s: Scored, socs0: set<string>, titles0: set<string>)
    requires WalkInv(w, socs0, titles0)
    ensures WalkInv(Step(w, s), socs0, titles0)
  {
    if Fresh(w, s) {
      var r := Accept(w, s);
      assert r.accepted[|w.accepted|] == s;
      assert forall i :: 0 <= i < |w.accepted| ==> r.accepted[i] == w.accepted[i];
    }
  }

  /** The walk's state only grows: earlier acceptances and seen keys stay. */
  lemma {:induction false} WalkGrows(w: Walk, xs: seq<Scored>, target: nat)
    ensures var r := WalkFrom(w, xs, target);
      && |w.accepted| <= |r.accepted| && r.accepted[..|w.accepted|] == w.accepted
      && w.seenSocs <= r.seenSocs && w.seenTitles <= r.seenTitles
      && (|w.accepted| <= target ==> |r.accepted| <= target)
      && (forall k :: 0 <= k < |r.accepted| ==> r.accepted[k] in w.accepted || r.accepted[k] in xs)
    decreases |xs|
  {
    if xs != [] && |w.accepted| < target {
      var w1 := Step(w, xs[0]);
      WalkGrows(w1, xs[1..], target);
      var r := WalkFrom(w1, xs[1..], target);
      assert r.accepted[..|w1.accepted|] == w1.accepted;
      assert w1.accepted[..|w.accepted|] == w.accepted;
      assert forall k :: 0 <= k < |w1.accepted| ==> w1.accepted[k] in w.accepted || w1.accepted[k] == xs[0];
      forall k | 0 <= k < |r.accepted|
        ensures r.accepted[k] in w.accepted || r.accepted[k] in xs
      {
        if r.accepted[k] in xs[1..] {
          assert r.accepted[k] in xs;
        }
      }
    }
  }

  /**
   * No accepted candidate repeats a SOC or title key, none matches a key
   * seen before the walk, and at most `target` are accepted.
   */
  lemma {:induction false} WalkKeepsInv(w: Walk, xs: seq<Scored>, target: nat, socs0: set<string>, titles0: set<string>)
    requires WalkInv(w, socs0, titles0)
    ensures WalkInv(WalkFrom(w, xs, target), socs0, titles0)
    decreases |xs|
  {
    if xs != [] && |w.accepted| < target {
      StepInv(w, xs[0], socs0, titles0);
      WalkKeepsInv(Step(w, xs[0]), xs[1..], target, socs0, titles0);
    }
  }

  /**
   * Nothing fresh is passed over: when the walk ends short of the target,
   * every candidate's title key, or its non-empty SOC key, is in the final
   * seen-sets.
   */
  lemma {:induction false} WalkMaximal(w: Walk, xs: seq<Scored>, target: nat)
    requires w.batchSocs <= w.seenSocs && w.batchTitles <= w.seenTitles
    ensures var r := WalkFrom(w, xs, target);
      |r.accepted| < target ==>
        forall k :: 0 <= k < |xs| ==>
          xs[k].titleKey in r.seenTitles || (xs[k].socKey != "" && xs[k].socKey in r.seenSocs)
    decreases |xs|
  {
    if xs != [] && |w.accepted| < target {
      var w1 := Step(w, xs[0]);
      WalkMaximal(w1, xs[1..], target);
      WalkGrows(w1, xs[1..], target);
      forall k | 1 <= k < |xs| ensures xs[k] == xs[1..][k - 1] { }
    }
  }

  /** Every accepted score is at least every score in `xs`. */
  predicate Dominates(acc: seq<Scored>, xs: seq<Scored>) {
    forall i, j :: 0 <= i < |acc| && 0 <= j < |xs| ==> acc[i].fit >= xs[j].fit
  }

  /** Walking a list sorted by descending fit keeps the accepted list sorted. */
  lemma {:induction false} WalkKeepsOrder(w: Walk, xs: seq<Scored>, target: nat)
    requires SortedDesc(w.accepted) && SortedDesc(xs) && Dominates(w.accepted, xs)
    ensures SortedDesc(WalkFrom(w, xs, target).accepted)
    decreases |xs|
  {
    if xs != [] && |w.accepted| < target {
      var w1 := Step(w, xs[0]);
      assert forall j :: 0 <= j < |xs[1..]| ==> xs[1..][j] == xs[j + 1];
      if Fresh(w, xs[0]) {
        assert w1.accepted == w.accepted + [xs[0]];
      }
      WalkKeepsOrder(w1, xs[1..], target);
    }
  }

  // ---------------------------------------------------------------
  // The user's history (`_get_seen_profile_keys`)
  // ---------------------------------------------------------------

  /** The `career_profiles` columns the history reads. */
  datatype ProfileRow = ProfileRow(soc: Option<string>, title: Option<string>)

  /** The truthy profile ids of the user's recommendation and action rows. */
  function HistoryIds(recIds: seq<Option<int>>, actionIds: seq<Option<int>>): (r: set<int>)
    ensures forall id :: id in r <==>
      (id != 0 && ((exists i :: 0 <= i < |recIds| && recIds[i] == Some(id))
                   || (exists i :: 0 <= i < |actionIds| && actionIds[i] == Some(id))))
  {
    (set i | 0 <= i < |recIds| && recIds[i].Some? && recIds[i].value != 0 :: recIds[i].value)
    + (set i | 0 <= i < |actionIds| && actionIds[i].Some? && actionIds[i].value != 0 :: actionIds[i].value)
  }

  /** A column value's key, when it is a string that is not blank. */
  function KeyOf(v: Option<string>): Option<string> {
    if v.Some? && Strip(v.value) != "" then Some(Lower(Strip(v.value))) else None
  }

  datatype SeenKeys = SeenKeys(ids: set<int>, socs: set<string>, titles: set<string>)

  /** `_get_seen_profile_keys`: the ids, SOC keys and title keys of every profile in the user's history. */
  function GetSeenProfileKeys(recIds: seq<Option<int>>, actionIds: seq<Option<int>>, profiles: map<int, ProfileRow>)
    : (r: SeenKeys)
    ensures forall id :: id in r.ids <==> id in HistoryIds(recIds, actionIds) && id in profiles
    ensures forall k :: k in r.socs <==>
      exists id :: id in HistoryIds(recIds, actionIds) && id in profiles && KeyOf(profiles[id].soc) == Some(k)
    ensures forall k :: k in r.titles <==>
      exists id :: id in HistoryIds(recIds, actionIds) && id in profiles && KeyOf(profiles[id].title) == Some(k)
  {
    var ids := HistoryIds(recIds, actionIds);
    if ids == {} then SeenKeys({}, {}, {})
    else
      var rows := set id | id in ids && id in profiles;
      SeenKeys(rows,
               set id | id in rows && KeyOf(profiles[id].soc).Some? :: KeyOf(profiles[id].soc).value,
               set id | id in rows && KeyOf(profiles[id].title).Some? :: KeyOf(profiles[id].title).value)
  }

  /** A profile in the user's history is excluded by the walk: its title key is seen. */
  lemma HistoryTitleSeen(recIds: seq<Option<int>>, actionIds: seq<Option<int>>, profiles: map<int, ProfileRow>,
                         id: int, c: Candidate)
    requires id in HistoryIds(recIds, actionIds) && id in profiles
    requires profiles[id].title == Some(c.title) && Strip(c.title) != ""
    ensures TitleKey(c) in GetSeenProfileKeys(recIds, actionIds, profiles).titles
    ensures !Fresh(Walk([], GetSeenProfileKeys(recIds, actionIds, profiles).socs,
                        GetSeenProfileKeys(recIds, actionIds, profiles).titles, {}, {}), ScoreOf(c, {}))
  {
    assert KeyOf(profiles[id].title) == Some(TitleKey(c));
  }

  // ---------------------------------------------------------------
  // Widening and rescaling
  // ---------------------------------------------------------------

  /** The three broader search terms, tried in this order. */
  const BroaderSearches: seq<string> :=
    ["professional career opportunities", "skilled occupations employment", "career development positions"]

  /**
   * The widening block: when fewer than `target` candidates were accepted,
   * each broader search in turn (the gateway's results `extra[k]`, scored)
   * feeds the same walk until the target is met; the merged list is then
   * re-sorted.  `searches` counts the searches issued.
   */
  method Widen(w0: Walk, extra: seq<seq<Candidate>>, userSkills: set<string>, target: nat)
      returns (w: Walk, searches: nat)
    requires |extra| == |BroaderSearches|
    ensures searches <= |BroaderSearches|
    ensures |w0.accepted| >= target ==> w == w0 && searches == 0
    ensures |w0.accepted| < target ==> w.accepted == SortDesc(WidenSpec(w0, extra, userSkills, target).accepted)
    ensures |w0.accepted| < target ==> w.seenSocs == WidenSpec(w0, extra, userSkills, target).seenSocs
    ensures |w0.accepted| < target ==> w.seenTitles == WidenSpec(w0, extra, userSkills, target).seenTitles
  {
    w := w0;
    searches := 0;
    if |w0.accepted| >= target {
      return;
    }
    var k := 0;
    while k < |BroaderSearches|
      invariant 0 <= k <= |BroaderSearches| && searches <= k
      invariant WidenSpec(w0, extra, userSkills, target) == WidenSpec(w, extra[k..], userSkills, target)
    {
      if |w.accepted| >= target {
        break;
      }
      searches := searches + 1;
      w := ExcludeSeen(w, ScoreAll(extra[k], userSkills), target);
      assert extra[k..][1..] == extra[k + 1..];
      k := k + 1;
    }
    WidenStops(w, extra[k..], userSkills, target);
    w := w.(accepted := SortDesc(w.accepted));
  }

  /** The walk over each search's scored results in turn. */
  function WidenSpec(w: Walk, extra: seq<seq<Candidate>>, userSkills: set<string>, target: nat): Walk
    decreases |extra|
  {
    if extra == [] || |w.accepted| >= target then w
    else WidenSpec(WalkFrom(w, ScoreAll(extra[0], userSkills), target), extra[1..], userSkills, target)
  }

  lemma WidenStops(w: Walk, extra: seq<seq<Candidate>>, userSkills: set<string>, target: nat)
    requires extra == [] || |w.accepted| >= target
    ensures WidenSpec(w, extra, userSkills, target) == w
  {
  }

  /** Widening keeps the walk's guarantees and the bound on the count. */
  lemma {:induction false} WidenKeepsInv(w: Walk, extra: seq<seq<Candidate>>, userSkills: set<string>, target: nat,
                                         socs0: set<string>, titles0: set<string>)
    requires WalkInv(w, socs0, titles0) && |w.accepted| <= target
    ensures WalkInv(WidenSpec(w, extra, userSkills, target), socs0, titles0)
    ensures |WidenSpec(w, extra, userSkills, target).accepted| <= target
    decreases |extra|
  {
    if extra != [] && |w.accepted| < target {
      var xs := ScoreAll(extra[0], userSkills);
      WalkKeepsInv(w, xs, target, socs0, titles0);
      WalkGrows(w, xs, target);
      WidenKeepsInv(WalkFrom(w, xs, target), extra[1..], userSkills, target, socs0, titles0);
    }
  }

  lemma {:induction false} WidenKeepsKeyed(w: Walk, extra: seq<seq<Candidate>>, userSkills: set<string>, target: nat)
    requires AllKeyed(w.accepted)
    ensures AllKeyed(WidenSpec(w, extra, userSkills, target).accepted)
    decreases |extra|
  {
    if extra != [] && |w.accepted| < target {
      var xs := ScoreAll(extra[0], userSkills);
      WalkKeepsKeyed(w, xs, target);
      WidenKeepsKeyed(WalkFrom(w, xs, target), extra[1..], userSkills, target);
    }
  }

  /** `_rescale(score)`: raw fits between `mn` and `mx` mapped linearly onto [0.72, 0.96]. */
  function Rescale(score: real, mn: real, mx: real): (r: real)
    ensures mx == mn ==> r == 0.84
    ensures mn < mx && mn <= score <= mx ==> 0.72 <= r <= 0.96
  {
    if mx == mn then 0.72 + 0.24 / 2.0
    else
      var t := (score - mn) / (mx - mn);
      if mn < mx && mn <= score <= mx then
        UnitRatio(score - mn, mx - mn);
        0.72 + 0.24 * t
      else 0.72 + 0.24 * t
  }

  /** The rescaling sends the lowest raw fit to 0.72, the highest to 0.96, and keeps the order. */
  lemma RescaleEnds(s1: real, s2: real, mn: real, mx: real)
    requires mn < mx && s1 <= s2
    ensures Rescale(mn, mn, mx) == 0.72 && Rescale(mx, mn, mx) == 0.96
    ensures Rescale(s1, mn, mx) <= Rescale(s2, mn, mx)
  {
    var d := mx - mn;
    assert (mx - mn) / d == 1.0;
    assert (s2 - mn) / d - (s1 - mn) / d == (s2 - s1) / d;
  }

  /** `round(fit * 100, 1)`, the fit score shown on a card. */
  function FitScore(fit: real): (r: real)
    ensures 0.72 <= fit <= 0.96 ==> 72.0 <= r <= 96.0
  {
    if 0.72 <= fit <= 0.96 then
      RoundBetween(fit * 100.0 * 10.0, 720, 960);
      Round1(fit * 100.0)
    else Round1(fit * 100.0)
  }

  function MinScore(xs: seq<Scored>): (m: real)
    requires xs != []
    ensures forall i :: 0 <= i < |xs| ==> m <= xs[i].fit
    ensures exists i :: 0 <= i < |xs| && m == xs[i].fit
  {
    if |xs| == 1 then xs[0].fit
    else
      var r := MinScore(xs[1..]);
      assert forall i :: 1 <= i < |xs| ==> xs[i] == xs[1..][i - 1];
      if xs[0].fit <= r then xs[0].fit else r
  }

  function MaxScore(xs: seq<Scored>): (m: real)
    requires xs != []
    ensures forall i :: 0 <= i < |xs| ==> xs[i].fit <= m
    ensures exists i :: 0 <= i < |xs| && m == xs[i].fit
  {
    if |xs| == 1 then xs[0].fit
    else
      var r := MaxScore(xs[1..]);
      assert forall i :: 1 <= i < |xs| ==> xs[i] == xs[1..][i - 1];
      if xs[0].fit >= r then xs[0].fit else r
  }

  /** The fit score of every selected candidate, in order. */
  function FitScores(top: seq<Scored>): (r: seq<real>)
    ensures |r| == |top|
    ensures forall i :: 0 <= i < |r| ==> 72.0 <= r[i] <= 96.0
    ensures top != [] ==>
      forall i :: 0 <= i < |r| ==> r[i] == FitScore(Rescale(top[i].fit, MinScore(top), MaxScore(top)))
  {
    if top == [] then []
    else
      var mn, mx := MinScore(top), MaxScore(top);
      seq(|top|, i requires 0 <= i < |top| => FitScore(Rescale(top[i].fit, mn, mx)))
  }

  /** `round(fit * 100, 1)` keeps order. */
  lemma FitScoreMonotone(a: real, b: real)
    requires a <= b
    ensures FitScore(a) <= FitScore(b)
  {
    RoundMonotone(a * 100.0 * 10.0, b * 100.0 * 10.0);
  }

  /** The rescaling keeps order, also when every raw fit is the same. */
  lemma RescaleMonotone(s1: real, s2: real, mn: real, mx: real)
    requires mn <= mx && s1 <= s2
    ensures Rescale(s1, mn, mx) <= Rescale(s2, mn, mx)
  {
    if mn < mx {
      RescaleEnds(s1, s2, mn, mx);
    }
  }

  /**
   * A selection in descending raw fit shows its fit scores in descending
   * order; when the raw fits are not all equal, the lowest shows 72.0 and
   * the highest 96.0.
   */
  lemma FitScoresFollowFit(top: seq<Scored>)
    requires SortedDesc(top)
    ensures var r := FitScores(top);
      && (forall i, j :: 0 <= i < j < |r| ==> r[j] <= r[i])
      && (top != [] && MinScore(top) < MaxScore(top) ==>
            (exists i :: 0 <= i < |r| && r[i] == 72.0) && (exists j :: 0 <= j < |r| && r[j] == 96.0))
  {
    var r := FitScores(top);
    if top != [] {
      var mn, mx := MinScore(top), MaxScore(top);
      forall i, j | 0 <= i < j < |r| ensures r[j] <= r[i] {
        RescaleMonotone(top[j].fit, top[i].fit, mn, mx);
        FitScoreMonotone(Rescale(top[j].fit, mn, mx), Rescale(top[i].fit, mn, mx));
      }
      if mn < mx {
        RescaleEnds(mn, mx, mn, mx);
        var i :| 0 <= i < |top| && mn == top[i].fit;
        var j :| 0 <= j < |top| && mx == top[j].fit;
        FitScoreAt(0.72);
        FitScoreAt(0.96);
        assert r[i] == 72.0;
        assert r[j] == 96.0;
      }
    }
  }

  /** The two ends of the band show as 72.0 and 96.0. */
  lemma FitScoreAt(fit: real)
    requires fit == 0.72 || fit == 0.96
    ensures fit == 0.72 ==> FitScore(fit) == 72.0
    ensures fit == 0.96 ==> FitScore(fit) == 96.0
  {
    assert fit * 100.0 * 10.0 == (fit * 1000.0).Floor as real;
  }

  /** The ranking section of `generate`: the selected candidates and their fit scores. */
  datatype Selection = Selection(top: seq<Scored>, fitScores: seq<real>)

  /** `max(1, top_k)` */
  function Target(topK: int): nat { if topK < 1 then 1 else topK }

  /** The walk over the sorted built profiles, from the seen keys. */
  function FirstWalk(built: seq<Candidate>, userSkills: set<string>, seenSocs: set<string>, seenTitles: set<string>,
                     target: nat): Walk {
    WalkFrom(Walk([], seenSocs, seenTitles, {}, {}), SortDesc(ScoreAll(built, userSkills)), target)
  }

  /** The candidates `generate` keeps: the walk, widened and re-sorted when short. */
  function Selected(built: seq<Candidate>, userSkills: set<string>, seenSocs: set<string>, seenTitles: set<string>,
                    extra: seq<seq<Candidate>>, target: nat): seq<Scored> {
    var w := FirstWalk(built, userSkills, seenSocs, seenTitles, target);
    if |w.accepted| >= target then w.accepted else SortDesc(WidenSpec(w, extra, userSkills, target).accepted)
  }

  /** What a selection satisfies. */
  predicate SelectionOk(top: seq<Scored>, seenSocs: set<string>, seenTitles: set<string>, target: nat) {
    && |top| <= target
    && SortedDesc(top)
    && DistinctTitles(top)
    && DistinctSocs(top)
    && (forall i :: 0 <= i < |top| ==>
          && WellKeyed(top[i])
          && top[i].titleKey !in seenTitles
          && (top[i].socKey != "" ==> top[i].socKey !in seenSocs))
  }

  /**
   * At most `target` candidates are kept, in descending raw fit, no two with
   * the same title key or the same non-empty SOC key, and none whose title or
   * non-empty SOC key the user has already seen.
   */
  lemma SelectedOk(built: seq<Candidate>, userSkills: set<string>, seenSocs: set<string>, seenTitles: set<string>,
                   extra: seq<seq<Candidate>>, target: nat)
    ensures SelectionOk(Selected(built, userSkills, seenSocs, seenTitles, extra, target), seenSocs, seenTitles, target)
  {
    FirstWalkOk(built, userSkills, seenSocs, seenTitles, target);
    var w := FirstWalk(built, userSkills, seenSocs, seenTitles, target);
    if |w.accepted| < target {
      WidenedOk(w, extra, userSkills, target, seenSocs, seenTitles);
    }
  }

  /** The first walk over the sorted candidates keeps the walk invariant, the keys and the order. */
  lemma FirstWalkOk(built: seq<Candidate>, userSkills: set<string>, seenSocs: set<string>, seenTitles: set<string>,
                    target: nat)
    ensures var w := FirstWalk(built, userSkills, seenSocs, seenTitles, target);
      && WalkInv(w, seenSocs, seenTitles) && AllKeyed(w.accepted) && |w.accepted| <= target
      && SortedDesc(w.accepted)
  {
    var scored := ScoreAll(built, userSkills);
    var ranked := SortDesc(scored);
    var w0 := Walk([], seenSocs, seenTitles, {}, {});
    SortSorted(scored);
    SortSameMembers(scored);
    WalkKeepsInv(w0, ranked, target, seenSocs, seenTitles);
    WalkGrows(w0, ranked, target);
    WalkKeepsOrder(w0, ranked, target);
    WalkKeepsKeyed(w0, ranked, target);
  }

  /** The widened walk, re-sorted, is still a valid selection. */
  lemma WidenedOk(w: Walk, extra: seq<seq<Candidate>>, userSkills: set<string>, target: nat,
                  seenSocs: set<string>, seenTitles: set<string>)
    requires WalkInv(w, seenSocs, seenTitles) && AllKeyed(w.accepted) && |w.accepted| < target
    ensures SelectionOk(SortDesc(WidenSpec(w, extra, userSkills, target).accepted), seenSocs, seenTitles, target)
  {
    var spec := WidenSpec(w, extra, userSkills, target);
    WidenKeepsInv(w, extra, userSkills, target, seenSocs, seenTitles);
    WidenKeepsKeyed(w, extra, userSkills, target);
    assert DistinctTitles(spec.accepted) && DistinctSocs(spec.accepted);
    SortKeepsDistinct(spec.accepted, false);
    SortKeepsDistinct(spec.accepted, true);
    SortSameMembers(spec.accepted);
    SortSorted(spec.accepted);
    var top := SortDesc(spec.accepted);
    assert |top| == |spec.accepted| by {
      assert |multiset(top)| == |multiset(spec.accepted)|;
    }
  }

  /**
   * Steps 5 and 6 and the widening: score and sort the built profiles,
   * walk them against the seen keys, widen when short, and rescale.
   * The caller returns [] before this step when the search finds no
   * candidates or no profile is built; for an empty `built` this method
   * still widens into the broader searches.
   */
  method Select(built: seq<Candidate>, userSkills: set<string>, seenSocs: set<string>, seenTitles: set<string>,
                extra: seq<seq<Candidate>>, topK: int) returns (s: Selection, searches: nat)
    requires |extra| == |BroaderSearches|
    ensures s.top == Selected(built, userSkills, seenSocs, seenTitles, extra, Target(topK))
    ensures SelectionOk(s.top, seenSocs, seenTitles, Target(topK))
    ensures s.fitScores == FitScores(s.top)
    ensures searches <= |BroaderSearches|
  {
    var target := Target(topK);
    var ranked := SortDesc(ScoreAll(built, userSkills));
    var w := ExcludeSeen(Walk([], seenSocs, seenTitles, {}, {}), ranked, target);
    var widened;
    widened, searches := Widen(w, extra, userSkills, target);
    SelectedOk(built, userSkills, seenSocs, seenTitles, extra, target);
    s := Selection(widened.accepted, FitScores(widened.accepted));
  }

  /** Two entries share a title key, or (`bySoc`) the same non-empty SOC key. */
  predicate SameKey(a: Scored, b: Scored, bySoc: bool) {
    if bySoc then a.socKey != "" && a.socKey == b.socKey else a.titleKey == b.titleKey
  }

  /** No two entries share a key of the kind `bySoc` names. */
  predicate DistinctBy(xs: seq<Scored>, bySoc: bool) {
    forall i, j :: 0 <= i < j < |xs| ==> !SameKey(xs[i], xs[j], bySoc)
  }

  /** No two entries share a title key. */
  predicate DistinctTitles(xs: seq<Scored>) { DistinctBy(xs, false) }

  /** No two entries share a non-empty SOC key. */
  predicate DistinctSocs(xs: seq<Scored>) { DistinctBy(xs, true) }

  lemma {:induction false} InsertDistinct(x: Scored, xs: seq<Scored>, bySoc: bool)
    requires DistinctBy(xs, bySoc)
    requires forall k :: 0 <= k < |xs| ==> !SameKey(xs[k], x, bySoc)
    ensures DistinctBy(Insert(x, xs), bySoc)
    decreases |xs|
  {
    if !(xs == [] || x.fit >= xs[0].fit) {
      assert forall k :: 0 <= k < |xs[1..]| ==> xs[1..][k] == xs[k + 1];
      InsertDistinct(x, xs[1..], bySoc);
      var rest := Insert(x, xs[1..]);
      forall k | 0 <= k < |rest| ensures !SameKey(xs[0], rest[k], bySoc) {
        assert rest[k] in multiset(xs[1..]) + multiset{x};
        if rest[k] != x {
          assert rest[k] in xs[1..];
        }
      }
    }
  }

  /** Sorting keeps the keys of either kind distinct. */
  lemma {:induction false} SortKeepsDistinct(xs: seq<Scored>, bySoc: bool)
    requires DistinctBy(xs, bySoc)
    ensures DistinctBy(SortDesc(xs), bySoc)
    decreases |xs|
  {
    if xs != [] {
      assert forall k :: 0 <= k < |xs[1..]| ==> xs[1..][k] == xs[k + 1];
      SortKeepsDistinct(xs[1..], bySoc);
      var r := SortDesc(xs[1..]);
      forall k | 0 <= k < |r| ensures !SameKey(r[k], xs[0], bySoc) {
        assert r[k] in multiset(xs[1..]);
        assert r[k] in xs[1..];
      }
      InsertDistinct(xs[0], r, bySoc);
    }
  }

  /** Sorting keeps every entry and adds none. */
  lemma SortSameMembers(a: seq<Scored>)
    ensures forall j :: 0 <= j < |SortDesc(a)| ==> SortDesc(a)[j] in a
  {
    var b := SortDesc(a);
    forall j | 0 <= j < |b| ensures b[j] in a {
      assert b[j] in multiset(b);
    }
  }
}
