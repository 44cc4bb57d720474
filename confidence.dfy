/**
 * `AIConfidenceService` of backend/app/services/ai_confidence_service.py:
 * one heuristic score per completed milestone, then a weighted percentage
 * over the completed milestones only.  The query results are inputs.
 */
module Confidence {
  import opened Wrappers
  import opened Rounding
  import opened Text
  import Journey
  import ActionLedger

  /** A `chat_history` row as the coach score reads it. */
  datatype ChatLine = ChatLine(role: string, message: string)

  /** What the five score queries return for one user. */
  datatype Signals = Signals(
    responses: nat,                // questionnaire_responses rows of the user
    messages: seq<ChatLine>,       // chat_history rows of the user
    rankedFits: seq<Option<real>>, // fit_score of the recommendations, by rank ascending
    actions: seq<string>)          // action of the user's recommendation-action rows

  /** The five milestone flags the aggregator reads from the journey row. */
  datatype Milestones = Milestones(questionnaire: bool, coach: bool, recommendations: bool, microsteps: bool, ready: bool)

  /** `scores`: a component per flagged milestone, None otherwise. */
  datatype Breakdown = Breakdown(
    questionnaire: Option<int>, coach: Option<int>, recommendations: Option<int>,
    microsteps: Option<int>, ready: Option<int>)

  datatype Report =
    | NoState(error: string)
    | Report(userId: int, score: int, completed: seq<string>, breakdown: Breakdown)

  const QuestionnaireWeight := 20
  const CoachWeight := 25
  const RecommendationWeight := 25
  const MicrostepsWeight := 20
  const ReadyWeight := 10

  /** `compute_questionnaire_score` for the two counts it queries. */
  function QuestionnaireScoreOf(total: nat, answered: nat): (r: int)
    ensures total == 0 ==> r == 0
    ensures answered <= total ==> 0 <= r <= 20
    ensures 0 < total && answered == total ==> r == 20
  {
    if total == 0 then 0
    else
      var completion := answered as real / total as real * 12.0;
      assert answered == total ==> completion == 12.0 by {
        if answered == total {
          SelfRatio(total as real);
        }
      }
      assert answered <= total ==> answered as real / total as real <= 1.0 by {
        if answered <= total {
          UnitRatio(answered as real, total as real);
        }
      }
      Trunc(completion + 8.0)
  }

  /** Both counts are the same query, so the score is 0 or exactly 20. */
  function QuestionnaireScore(responses: nat): (r: int)
    ensures r == (if responses == 0 then 0 else 20)
  {
    QuestionnaireScoreOf(responses, responses)
  }

  /** The number of user messages longer than `n` characters. */
  function UserTurnsLongerThan(messages: seq<ChatLine>, n: nat): (c: nat)
    ensures c <= |messages|
  {
    if messages == [] then 0
    else
      var here := if messages[0].role == "user" && |messages[0].message| > n then 1 else 0;
      here + UserTurnsLongerThan(messages[1..], n)
  }

  /** `compute_coach_score` */
  function CoachScore(messages: seq<ChatLine>): (r: int)
    ensures 0 <= r <= CoachWeight
    ensures r == 5 + (if UserTurnsLongerThan(messages, 20) >= 3 then 12 else 0)
                   + (if UserTurnsLongerThan(messages, 80) >= 1 then 8 else 0)
  {
    var base := (if UserTurnsLongerThan(messages, 20) >= 3 then 12 else 0)
              + (if UserTurnsLongerThan(messages, 80) >= 1 then 8 else 0) + 5;
    if base > 25 then 25 else if base < 0 then 0 else base
  }

  /** A detailed answer is also a meaningful turn. */
  lemma {:induction false} DetailedAreMeaningful(messages: seq<ChatLine>)
    ensures UserTurnsLongerThan(messages, 80) <= UserTurnsLongerThan(messages, 20)
  {
    if messages != [] {
      DetailedAreMeaningful(messages[1..]);
    }
  }

  /** `rec.fit_score or 0` */
  function FitOrZero(f: Option<real>): real {
    if f.Some? then f.value else 0.0
  }

  function SumFits(fits: seq<Option<real>>): real {
    if fits == [] then 0.0 else FitOrZero(fits[0]) + SumFits(fits[1..])
  }

  /** The normalisation of the top-3 average into the 0-25 band. */
  function NormalizeAverage(avg: real): real {
    if avg <= 1.0 then avg * 25.0
    else if avg <= 25.0 then avg
    else if avg <= 100.0 then avg / 4.0
    else if avg / 10.0 < 25.0 then avg / 10.0 else 25.0
  }

  /** `compute_recommendation_score`: the three best-ranked fits, averaged and normalised. */
  function RecommendationScore(rankedFits: seq<Option<real>>): (r: int)
    ensures rankedFits == [] ==> r == 0
  {
    var top := if |rankedFits| <= 3 then rankedFits else rankedFits[..3];
    if top == [] then 0
    else Trunc(NormalizeAverage(SumFits(top) / |top| as real))
  }

  /** `compute_action_score` */
  function ActionScore(actions: seq<string>): (r: int)
    ensures 0 <= r <= MicrostepsWeight
  {
    var score := (if "action_taken" in actions then 10 else 0)
               + (if "saved" in actions then 6 else 0)
               + (if CountOf(actions, "dismissed") < 3 then 4 else 0);
    if score < 20 then score else 20
  }

  function CountOf(xs: seq<string>, x: string): nat {
    if xs == [] then 0 else (if xs[0] == x then 1 else 0) + CountOf(xs[1..], x)
  }

  /** `compute_ready_score` with its fixed placeholders (5 of 6 steps, a preferred path, coach ready). */
  function ReadyScore(completedSteps: nat, totalSteps: nat, preferredPath: bool, coachReady: bool): (r: int)
    ensures 0 <= r <= ReadyWeight
  {
    var score := (if totalSteps != 0 && completedSteps as real / totalSteps as real >= 0.8 then 5 else 0)
               + (if preferredPath then 3 else 0) + (if coachReady then 2 else 0);
    if score < 10 then score else 10
  }

  /** The placeholders make the ready score always 10. */
  lemma ReadyAlwaysFull()
    ensures ReadyScore(5, 6, true, true) == 10
  {
    assert 5.0 / 6.0 >= 0.8;
  }

  lemma {:induction false} SumFitsBounds(fits: seq<Option<real>>)
    requires forall i :: 0 <= i < |fits| ==> FitOrZero(fits[i]) >= 0.0
    ensures SumFits(fits) >= 0.0
  {
    if fits != [] {
      SumFitsBounds(fits[1..]);
    }
  }

  /** With fits that are not negative, the recommendation score stays within its weight. */
  lemma RecommendationBounds(rankedFits: seq<Option<real>>)
    requires forall i :: 0 <= i < |rankedFits| ==> FitOrZero(rankedFits[i]) >= 0.0
    ensures 0 <= RecommendationScore(rankedFits) <= RecommendationWeight
  {
    var top := if |rankedFits| <= 3 then rankedFits else rankedFits[..3];
    if top != [] {
      SumFitsBounds(top);
      var avg := SumFits(top) / |top| as real;
      assert avg >= 0.0;
      assert 0.0 <= NormalizeAverage(avg) <= 25.0;
    }
  }

  lemma {:induction false} SumFitsBand(fits: seq<Option<real>>, lo: real, hi: real)
    requires forall i :: 0 <= i < |fits| ==> lo <= FitOrZero(fits[i]) <= hi
    ensures |fits| as real * lo <= SumFits(fits) <= |fits| as real * hi
  {
    if fits != [] {
      SumFitsBand(fits[1..], lo, hi);
    }
  }

  /**
   * The ranking stores `fit_score` in [72, 96], which the normalisation reads
   * as the 0-100 band: the score is then between 18 and 24.
   */
  lemma StoredFitsScore(rankedFits: seq<Option<real>>)
    requires rankedFits != []
    requires forall i :: 0 <= i < |rankedFits| ==> rankedFits[i].Some? && 72.0 <= rankedFits[i].value <= 96.0
    ensures 18 <= RecommendationScore(rankedFits) <= 24
  {
    var top := if |rankedFits| <= 3 then rankedFits else rankedFits[..3];
    SumFitsBand(top, 72.0, 96.0);
    var n := |top| as real;
    var avg := SumFits(top) / n;
    assert 72.0 <= avg <= 96.0 by {
      assert n * 72.0 <= SumFits(top) <= n * 96.0;
    }
    assert NormalizeAverage(avg) == avg / 4.0;
  }

  /** `flags`: the journey columns the aggregator reads. */
  function MilestonesOf(f: Journey.Flags): Milestones {
    Milestones(f.questionnaire, f.coach, f.matches, f.action, f.launch)
  }

  function Component(flag: bool, score: int): Option<int> {
    if flag then Some(score) else None
  }

  /** `scores` */
  function BreakdownOf(m: Milestones, s: Signals): (b: Breakdown)
    ensures b.questionnaire.Some? == m.questionnaire && b.coach.Some? == m.coach
    ensures b.recommendations.Some? == m.recommendations && b.microsteps.Some? == m.microsteps
    ensures b.ready.Some? == m.ready
  {
    Breakdown(
      Component(m.questionnaire, QuestionnaireScore(s.responses)),
      Component(m.coach, CoachScore(s.messages)),
      Component(m.recommendations, RecommendationScore(s.rankedFits)),
      Component(m.microsteps, ActionScore(s.actions)),
      Component(m.ready, ReadyScore(5, 6, true, true)))
  }

  function ValueOr0(c: Option<int>): int { if c.Some? then c.value else 0 }

  /** `actual_score`: the sum of the components that are present. */
  function Actual(b: Breakdown): int {
    ValueOr0(b.questionnaire) + ValueOr0(b.coach) + ValueOr0(b.recommendations)
      + ValueOr0(b.microsteps) + ValueOr0(b.ready)
  }

  function WeightIf(flag: bool, w: int): int { if flag then w else 0 }

  /** `possible_score`: the weights of the flagged milestones only. */
  function Possible(m: Milestones): (p: int)
    ensures 0 <= p <= 100
    ensures p == 0 <==> !(m.questionnaire || m.coach || m.recommendations || m.microsteps || m.ready)
  {
    WeightIf(m.questionnaire, QuestionnaireWeight) + WeightIf(m.coach, CoachWeight)
      + WeightIf(m.recommendations, RecommendationWeight) + WeightIf(m.microsteps, MicrostepsWeight)
      + WeightIf(m.ready, ReadyWeight)
  }

  /** `final_score` */
  function FinalScore(actual: int, possible: int): (r: int)
    ensures possible == 0 ==> r == 0
    ensures 0 < possible && 0 <= actual <= possible ==> 0 <= r <= 100
  {
    if possible == 0 then 0
    else
      FractionAtMostOne(actual, possible);
      Floor(actual as real / possible as real * 100.0)
  }

  lemma FractionAtMostOne(a: int, p: int)
    ensures 0 < p && 0 <= a <= p ==> 0.0 <= a as real / p as real * 100.0 <= 100.0
  {
    if 0 < p && 0 <= a <= p {
      UnitRatio(a as real, p as real);
    }
  }

  /** `milestones_completed`: the flagged keys in the fixed order. */
  function CompletedKeys(m: Milestones): (r: seq<string>)
    ensures |r| <= 5
    ensures ("questionnaire" in r <==> m.questionnaire) && ("coach" in r <==> m.coach)
    ensures ("recommendations" in r <==> m.recommendations) && ("microsteps" in r <==> m.microsteps)
    ensures "ready_to_launch" in r <==> m.ready
  {
    (if m.questionnaire then ["questionnaire"] else []) + (if m.coach then ["coach"] else [])
      + (if m.recommendations then ["recommendations"] else [])
      + (if m.microsteps then ["microsteps"] else []) + (if m.ready then ["ready_to_launch"] else [])
  }

  const NoStateTail := ". Please ensure the user has started their journey."

  /** `compute_ai_confidence` as a function of the journey flags and the query results. */
  function ConfidenceOf(userId: int, state: Option<Journey.Flags>, s: Signals): Report {
    match state
    case None => NoState("No UserJourneyState found for user_id=" + IntToString(userId) + NoStateTail)
    case Some(f) =>
      var m := MilestonesOf(f);
      var b := BreakdownOf(m, s);
      Report(userId, FinalScore(Actual(b), Possible(m)), CompletedKeys(m), b)
  }

  /** The actual score never exceeds the possible one, so the final score is a percentage. */
  lemma ScoreIsPercentage(userId: int, f: Journey.Flags, s: Signals)
    requires forall i :: 0 <= i < |s.rankedFits| ==> FitOrZero(s.rankedFits[i]) >= 0.0
    ensures var r := ConfidenceOf(userId, Some(f), s); r.Report? && 0 <= r.score <= 100
    ensures var r := ConfidenceOf(userId, Some(f), s); 0 <= Actual(r.breakdown) <= Possible(MilestonesOf(f))
  {
    RecommendationBounds(s.rankedFits);
  }

  /** No milestone flagged: score 0 and an empty breakdown. */
  lemma NoMilestonesScoreZero(userId: int, f: Journey.Flags, s: Signals)
    requires !(f.questionnaire || f.coach || f.matches || f.action || f.launch)
    ensures ConfidenceOf(userId, Some(f), s) == Report(userId, 0, [], Breakdown(None, None, None, None, None))
  {
  }

  /** Every flagged milestone scoring its full weight gives 100. */
  lemma FullMarks(actual: int, possible: int)
    requires 0 < possible && actual == possible
    ensures FinalScore(actual, possible) == 100
  {
    assert actual as real / possible as real == 1.0;
  }

  /** The action-ledger rows hold only "favorite", "dismiss" and "explore". */
  predicate LedgerAction(a: string) { a == "favorite" || a == "dismiss" || a == "explore" }

  /**
   * The ledger never writes "saved", "dismissed" or "action_taken", so on
   * its rows the action score is always the 4 points for few dismissals.
   */
  lemma {:induction false} LedgerActionsScoreFour(actions: seq<string>)
    requires forall i :: 0 <= i < |actions| ==> LedgerAction(actions[i])
    ensures ActionScore(actions) == 4
  {
    NoDismissedCounted(actions);
  }

  lemma {:induction false} NoDismissedCounted(actions: seq<string>)
    requires forall i :: 0 <= i < |actions| ==> LedgerAction(actions[i])
    ensures CountOf(actions, "dismissed") == 0
  {
    if actions != [] {
      NoDismissedCounted(actions[1..]);
    }
  }

  /** `favorite` applied to a table holding only those three actions keeps to them. */
  lemma FavoriteKeepsLedgerActions(t: ActionLedger.Table, profiles: set<int>, user: int, career: int, action: string, now: int)
    requires forall k :: k in t ==> LedgerAction(t[k].action)
    ensures var r := ActionLedger.Favorite(t, profiles, user, career, action, now);
      r.Ok? ==> forall k :: k in r.value ==> LedgerAction(r.value[k].action)
  {
  }

  /**
   * `compute_ai_confidence(db, user_id)`.  The score and breakdown it sets on
   * the row are not columns of `user_journey_state`, so the commit stores
   * nothing and the row is left as it was.
   */
  method ComputeAiConfidence(userId: int, state: Journey.JourneyState?, s: Signals) returns (r: Report)
    ensures state == null ==> r.NoState?
    ensures state != null ==> r == ConfidenceOf(userId, Some(state.FlagsOf()), s)
  {
    if state == null {
      return ConfidenceOf(userId, None, s);
    }
    r := ConfidenceOf(userId, Some(state.FlagsOf()), s);
  }
}
