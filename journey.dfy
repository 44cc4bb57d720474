/**
 * The journey state machine of backend/app/services/journey_service.py.
 *
 * A user's journey row holds seven milestone flags plus the career-unlock
 * flag, a current stage and a progress percentage.  An update assigns the
 * fields the caller sent and then re-derives the milestones with the
 * progression rules.
 */
module Journey {
  import opened Wrappers

  datatype Stage = Discovery | Coaching | Matches | Action | Launch | Completed

  /** The text stored in the `current_stage` column. */
  function StageName(s: Stage): string {
    match s
    case Discovery => "discovery"
    case Coaching => "coaching"
    case Matches => "matches"
    case Action => "action"
    case Launch => "launch"
    case Completed => "completed"
  }

  /** The eight boolean columns of a `user_journey_state` row. */
  datatype Flags = Flags(
    chatIntro: bool,
    questionnaire: bool,
    discovery: bool,
    coach: bool,
    matches: bool,
    action: bool,
    launch: bool,
    unlock: bool)

  /** Column defaults of a freshly inserted row: every flag false. */
  const DefaultFlags := Flags(false, false, false, false, false, false, false, false)

  /** The boolean fields a `JourneyStateUpdate` payload may carry (no discovery flag). */
  datatype FlagField =
    | ChatIntroDone
    | QuestionnaireCompleted
    | CoachCompleted
    | MatchesCompleted
    | ActionCompleted
    | LaunchCompleted
    | CareerUnlockConfirmed

  /** One entry of `payload.model_dump(exclude_unset=True)`. */
  datatype PayloadItem = UserIdItem(id: int) | FlagItem(field: FlagField, value: bool)

  function Get(f: Flags, k: FlagField): bool {
    match k
    case ChatIntroDone => f.chatIntro
    case QuestionnaireCompleted => f.questionnaire
    case CoachCompleted => f.coach
    case MatchesCompleted => f.matches
    case ActionCompleted => f.action
    case LaunchCompleted => f.launch
    case CareerUnlockConfirmed => f.unlock
  }

  /** `setattr(state, field, value)` */
  function Set(f: Flags, k: FlagField, v: bool): (r: Flags)
    ensures Get(r, k) == v
    ensures forall j :: j != k ==> Get(r, j) == Get(f, j)
    ensures r.discovery == f.discovery
  {
    match k
    case ChatIntroDone => f.(chatIntro := v)
    case QuestionnaireCompleted => f.(questionnaire := v)
    case CoachCompleted => f.(coach := v)
    case MatchesCompleted => f.(matches := v)
    case ActionCompleted => f.(action := v)
    case LaunchCompleted => f.(launch := v)
    case CareerUnlockConfirmed => f.(unlock := v)
  }

  /** The flags after the payload loop: each flag item in turn, `user_id` skipped. */
  function AssignAll(f: Flags, items: seq<PayloadItem>): Flags
    decreases |items|
  {
    if items == [] then f
    else
      var g := if items[0].FlagItem? then Set(f, items[0].field, items[0].value) else f;
      AssignAll(g, items[1..])
  }

  predicate Sets(items: seq<PayloadItem>, k: FlagField) {
    exists i :: 0 <= i < |items| && items[i].FlagItem? && items[i].field == k
  }

  /** `_apply_progression_rules` on the flags. */
  function Rules(f: Flags): (r: Flags)
    ensures r.launch ==> r.action
    ensures r.action ==> r.matches
    ensures r.matches ==> r.coach
    ensures r.unlock ==> r.coach
    ensures r.discovery == (f.chatIntro && f.questionnaire)
  {
    var discovery := f.chatIntro && f.questionnaire;
    var coach1 := f.coach || f.unlock;
    var coach2 := coach1 || f.matches;
    var matches3 := f.matches || f.action;
    var coach3 := coach2 || f.action;
    var action4 := f.action || f.launch;
    var matches4 := matches3 || f.launch;
    var coach4 := coach3 || f.launch;
    f.(discovery := discovery, coach := coach4, matches := matches4, action := action4)
  }

  /** The if/elif chain choosing `current_stage`. */
  function StageOf(f: Flags): Stage {
    if !f.discovery then Discovery
    else if f.discovery && !f.coach then Coaching
    else if f.coach && !f.matches then Matches
    else if f.matches && !f.action then Action
    else if f.action && !f.launch then Launch
    else Completed
  }

  function B(b: bool): nat { if b then 1 else 0 }

  /** Number of completed milestones among discovery, coach, matches, action, launch. */
  function CountDone(f: Flags): (n: nat)
    ensures n <= 5
    ensures n == 0 <==> !(f.discovery || f.coach || f.matches || f.action || f.launch)
    ensures n == 5 <==> (f.discovery && f.coach && f.matches && f.action && f.launch)
  {
    B(f.discovery) + B(f.coach) + B(f.matches) + B(f.action) + B(f.launch)
  }

  /** The five milestones in journey order. */
  function Milestones(f: Flags): seq<bool> {
    [f.discovery, f.coach, f.matches, f.action, f.launch]
  }

  /** Index of the first false entry, or |s| when all are true. */
  function FirstFalse(s: seq<bool>): (i: nat)
    ensures i <= |s|
    ensures forall j :: 0 <= j < i ==> s[j]
    ensures i < |s| ==> !s[i]
  {
    if s == [] then 0 else if !s[0] then 0 else 1 + FirstFalse(s[1..])
  }

  /** Stage named by the index of the first incomplete milestone. */
  function StageAt(i: nat): Stage {
    if i == 0 then Discovery
    else if i == 1 then Coaching
    else if i == 2 then Matches
    else if i == 3 then Action
    else if i == 4 then Launch
    else Completed
  }

  /** The stage is the first incomplete milestone, and "completed" when none is. */
  lemma StageIsFirstIncomplete(f: Flags)
    ensures StageOf(f) == StageAt(FirstFalse(Milestones(f)))
    ensures !f.discovery ==> StageOf(f) == Discovery
  {
    var m := Milestones(f);
    assert m[0] == f.discovery && m[1] == f.coach && m[2] == f.matches;
    assert m[3] == f.action && m[4] == f.launch;
    var i := FirstFalse(m);
    if i < 5 {
      assert !m[i];
    }
  }

  /** Running the rules a second time changes nothing. */
  lemma RulesIdempotent(f: Flags)
    ensures Rules(Rules(f)) == Rules(f)
  {
  }

  /** The rules keep the payload flags and only ever raise coach, matches, action and launch. */
  lemma RulesOnlyRaise(f: Flags)
    ensures var r := Rules(f);
      && r.chatIntro == f.chatIntro && r.questionnaire == f.questionnaire && r.unlock == f.unlock
      && (f.coach ==> r.coach) && (f.matches ==> r.matches)
      && (f.action ==> r.action) && (f.launch ==> r.launch)
  {
  }

  predicate Closed(g: Flags) {
    (g.launch ==> g.action) && (g.action ==> g.matches) && (g.matches ==> g.coach) && (g.unlock ==> g.coach)
  }

  predicate Below(f: Flags, g: Flags) {
    (f.coach ==> g.coach) && (f.matches ==> g.matches) && (f.action ==> g.action) && (f.launch ==> g.launch)
  }

  /**
   * The rules compute the least closure: any flag set above the input that
   * satisfies the four implications is above the rules' output.
   */
  lemma RulesLeastClosure(f: Flags, g: Flags)
    requires Closed(g) && Below(f, g) && g.unlock == f.unlock
    ensures Closed(Rules(f)) && Below(f, Rules(f)) && Below(Rules(f), g)
  {
  }

  /** A flag the payload does not mention keeps its previous value. */
  lemma {:induction false} AssignUnset(f: Flags, items: seq<PayloadItem>, k: FlagField)
    requires !Sets(items, k)
    ensures Get(AssignAll(f, items), k) == Get(f, k)
    decreases |items|
  {
    if items != [] {
      var g := if items[0].FlagItem? then Set(f, items[0].field, items[0].value) else f;
      assert !Sets(items[1..], k) by {
        forall i | 0 <= i < |items[1..]|
          ensures !(items[1..][i].FlagItem? && items[1..][i].field == k)
        {
          assert items[1..][i] == items[i + 1];
        }
      }
      AssignUnset(g, items[1..], k);
      if items[0].FlagItem? {
        assert items[0].field != k;
      }
    }
  }

  /** A flag the payload sets last to `v` holds `v` after the loop. */
  lemma {:induction false} AssignLast(f: Flags, items: seq<PayloadItem>, k: FlagField, v: bool)
    ensures Get(AssignAll(f, items + [FlagItem(k, v)]), k) == v
    decreases |items|
  {
    if items == [] {
      assert [FlagItem(k, v)][1..] == [];
    } else {
      var g := if items[0].FlagItem? then Set(f, items[0].field, items[0].value) else f;
      assert (items + [FlagItem(k, v)])[1..] == items[1..] + [FlagItem(k, v)];
      AssignLast(g, items[1..], k, v);
    }
  }

  /** The discovery flag is never taken from the payload. */
  lemma {:induction false} AssignKeepsDiscovery(f: Flags, items: seq<PayloadItem>)
    ensures AssignAll(f, items).discovery == f.discovery
    decreases |items|
  {
    if items != [] {
      var g := if items[0].FlagItem? then Set(f, items[0].field, items[0].value) else f;
      AssignKeepsDiscovery(g, items[1..]);
    }
  }

  /**
   * After a whole update, coach, matches, action or launch can be false where
   * it was true only when the payload itself set that flag.
   */
  lemma OnlyPayloadLowers(f: Flags, items: seq<PayloadItem>, k: FlagField)
    requires k in {CoachCompleted, MatchesCompleted, ActionCompleted, LaunchCompleted}
    requires Get(f, k) && !Get(Rules(AssignAll(f, items)), k)
    ensures Sets(items, k)
  {
    if !Sets(items, k) {
      AssignUnset(f, items, k);
      RulesOnlyRaise(AssignAll(f, items));
    }
  }

  /** Discovery is recomputed, so an update can turn it back to false. */
  lemma DiscoveryCanRevert()
    ensures var f := Rules(Flags(true, true, false, false, false, false, false, false));
      f.discovery && !Rules(AssignAll(f, [FlagItem(QuestionnaireCompleted, false)])).discovery
  {
    var f := Rules(Flags(true, true, false, false, false, false, false, false));
    assert AssignAll(f, [FlagItem(QuestionnaireCompleted, false)])
      == AssignAll(Set(f, QuestionnaireCompleted, false), []);
  }

  /** The percentage, a multiple of 20 between 0 and 100. */
  function ProgressOf(f: Flags): (p: int)
    ensures 0 <= p <= 100 && p % 20 == 0
    ensures p == 100 <==> StageOf(f) == Completed
  {
    20 * CountDone(f)
  }

  /**
   * Over rule output, the percentage counts discovery plus the completed
   * prefix of the chain coach, matches, action, launch.
   */
  lemma ProgressFollowsChain(f: Flags)
    ensures var r := Rules(f);
      ProgressOf(r) == 20 * (B(r.discovery) + FirstFalse([r.coach, r.matches, r.action, r.launch]))
  {
    var r := Rules(f);
    var c := [r.coach, r.matches, r.action, r.launch];
    assert c[0] == r.coach && c[1] == r.matches && c[2] == r.action && c[3] == r.launch;
    assert c[1..] == [r.matches, r.action, r.launch];
    assert c[2..] == [r.action, r.launch];
    assert c[3..] == [r.launch];
    assert c[4..] == [];
  }

  /** A `user_journey_state` row. */
  class JourneyState {
    var userId: int
    var chatIntroDone: bool
    var questionnaireCompleted: bool
    var discoveryCompleted: bool
    var coachCompleted: bool
    var matchesCompleted: bool
    var actionCompleted: bool
    var launchCompleted: bool
    var careerUnlockConfirmed: bool
    var currentStage: Stage
    var progressPercent: int

    function FlagsOf(): Flags
      reads this
    {
      Flags(chatIntroDone, questionnaireCompleted, discoveryCompleted, coachCompleted,
            matchesCompleted, actionCompleted, launchCompleted, careerUnlockConfirmed)
    }

    /**
     * `UserJourneyState(user_id=...)` with the column defaults.  The row is
     * not passed through the rules, so its progress is 1, which no rule output has.
     */
    constructor (uid: int)
      ensures userId == uid && FlagsOf() == DefaultFlags
      ensures currentStage == Discovery && progressPercent == 1
      ensures forall g :: progressPercent != ProgressOf(g)
    {
      userId := uid;
      chatIntroDone, questionnaireCompleted, discoveryCompleted := false, false, false;
      coachCompleted, matchesCompleted, actionCompleted := false, false, false;
      launchCompleted, careerUnlockConfirmed := false, false;
      currentStage := Discovery;
      progressPercent := 1;
    }

    /** `setattr(state, field, value)` for one flag. */
    method SetField(k: FlagField, v: bool)
      modifies this
      ensures FlagsOf() == Set(old(FlagsOf()), k, v)
      ensures userId == old(userId) && currentStage == old(currentStage)
      ensures progressPercent == old(progressPercent)
    {
      match k
      case ChatIntroDone => chatIntroDone := v;
      case QuestionnaireCompleted => questionnaireCompleted := v;
      case CoachCompleted => coachCompleted := v;
      case MatchesCompleted => matchesCompleted := v;
      case ActionCompleted => actionCompleted := v;
      case LaunchCompleted => launchCompleted := v;
      case CareerUnlockConfirmed => careerUnlockConfirmed := v;
    }

    /** Step 1 of `apply_journey_update`: only the fields sent are assigned, `user_id` is skipped. */
    method AssignFields(items: seq<PayloadItem>)
      modifies this
      ensures FlagsOf() == AssignAll(old(FlagsOf()), items)
      ensures userId == old(userId) && currentStage == old(currentStage)
      ensures progressPercent == old(progressPercent)
    {
      var i := 0;
      while i < |items|
        invariant 0 <= i <= |items|
        invariant AssignAll(old(FlagsOf()), items) == AssignAll(FlagsOf(), items[i..])
        invariant userId == old(userId) && currentStage == old(currentStage)
        invariant progressPercent == old(progressPercent)
      {
        assert items[i..][1..] == items[i + 1..];
        match items[i] {
          case UserIdItem(_) =>
          case FlagItem(k, v) => SetField(k, v);
        }
        i := i + 1;
      }
    }

    /** `_apply_progression_rules(state)` */
    method ApplyProgressionRules()
      modifies this
      ensures FlagsOf() == Rules(old(FlagsOf()))
      ensures currentStage == StageOf(FlagsOf())
      ensures progressPercent == ProgressOf(FlagsOf())
      ensures userId == old(userId)
    {
      var discovery, coach, matches, action, launch :=
        chatIntroDone && questionnaireCompleted, coachCompleted, matchesCompleted, actionCompleted, launchCompleted;
      if careerUnlockConfirmed { coach := true; }
      if matches { coach := true; }
      if action {
        matches := true;
        coach := true;
      }
      if launch {
        action := true;
        matches := true;
        coach := true;
      }
      discoveryCompleted, coachCompleted, matchesCompleted, actionCompleted := discovery, coach, matches, action;

      if !discovery {
        currentStage := Discovery;
      } else if discovery && !coach {
        currentStage := Coaching;
      } else if coach && !matches {
        currentStage := Matches;
      } else if matches && !action {
        currentStage := Action;
      } else if action && !launch {
        currentStage := Launch;
      } else {
        currentStage := Completed;
      }

      var completedStages := 0;
      if discovery { completedStages := completedStages + 1; }
      if coach { completedStages := completedStages + 1; }
      if matches { completedStages := completedStages + 1; }
      if action { completedStages := completedStages + 1; }
      if launch { completedStages := completedStages + 1; }
      progressPercent := completedStages * 20;
    }
  }

  /** The `users` ids and the `user_journey_state` rows, keyed by their unique `user_id`. */
  class JourneyTable {
    var users: set<int>
    var rows: map<int, JourneyState>

    ghost predicate Valid()
      reads this, rows.Values
    {
      && (forall u | u in rows :: rows[u].userId == u)
      && (forall u, v | u in rows && v in rows && u != v :: rows[u] != rows[v])
    }

    /** `get_or_create_journey_state` */
    method GetOrCreate(uid: int) returns (r: Result<JourneyState>)
      requires Valid()
      modifies this
      ensures Valid() && users == old(users)
      ensures uid !in users ==> r == Err(NotFound("User not found")) && rows == old(rows)
      ensures uid in users && uid in old(rows) ==> r == Ok(old(rows)[uid]) && rows == old(rows)
      ensures uid in users && uid !in old(rows) ==>
        && r.Ok? && fresh(r.value) && rows == old(rows)[uid := r.value]
        && r.value.FlagsOf() == DefaultFlags && r.value.currentStage == Discovery
        && r.value.progressPercent == 1
      ensures r.Ok? ==> uid in rows && rows[uid] == r.value && r.value.userId == uid
    {
      if uid !in users {
        return Err(NotFound("User not found"));
      }
      if uid in rows {
        return Ok(rows[uid]);
      }
      var st := new JourneyState(uid);
      rows := rows[uid := st];
      r := Ok(st);
    }

    /** `apply_journey_update`: get or create the row, assign the payload, run the rules. */
    method ApplyJourneyUpdate(uid: int, items: seq<PayloadItem>) returns (r: Result<JourneyState>)
      requires Valid()
      modifies this, rows.Values
      ensures Valid() && users == old(users)
      ensures r.Ok? <==> uid in users
      ensures r.Err? ==> rows == old(rows) && r.error == NotFound("User not found")
      ensures r.Ok? ==>
        && rows.Keys == old(rows.Keys) + {uid} && rows[uid] == r.value
        && r.value.FlagsOf() == Rules(AssignAll(
             if uid in old(rows) then old(rows[uid].FlagsOf()) else DefaultFlags, items))
        && r.value.currentStage == StageOf(r.value.FlagsOf())
        && r.value.progressPercent == ProgressOf(r.value.FlagsOf())
      ensures forall u | u in old(rows) && u != uid ::
        && rows[u] == old(rows[u]) && rows[u].FlagsOf() == old(rows[u].FlagsOf())
        && rows[u].currentStage == old(rows[u].currentStage) && rows[u].progressPercent == old(rows[u].progressPercent)
      ensures r.Err? ==> forall u | u in rows ::
        && rows[u].FlagsOf() == old(rows[u].FlagsOf())
        && rows[u].currentStage == old(rows[u].currentStage) && rows[u].progressPercent == old(rows[u].progressPercent)
    {
      r := GetOrCreate(uid);
      if r.Err? {
        return;
      }
      var st := r.value;
      st.AssignFields(items);
      st.ApplyProgressionRules();
    }
  }
}
