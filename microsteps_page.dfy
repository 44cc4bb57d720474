/**
 * frontend/src/pages/MicroSteps.tsx: the steps of a microstep plan as the
 * page lists them, with the status filter, the progress bar and the step
 * opened when "take step" is pressed.
 */
module MicroStepsPage {
  import opened Wrappers
  import opened Ordering
  import opened Rounding
  import Text
  import MicrostepProgress

  datatype UiStatus = Unexplored | InProgress | Completed

  /** `mapBackendStatusToUI`: "completed" and "in_progress" are recognised, anything else is unexplored. */
  function StatusOf(status: Option<string>): (u: UiStatus)
    ensures u == Completed <==> status == Some("completed")
    ensures u == InProgress <==> status == Some("in_progress")
  {
    if status == Some("completed") then Completed
    else if status == Some("in_progress") then InProgress
    else Unexplored
  }

  /** The backend status that stands for each UI status. */
  function BackendName(u: UiStatus): string {
    match u
    case Unexplored => "incomplete"
    case InProgress => "in_progress"
    case Completed => "completed"
  }

  /** The three statuses the backend accepts map one-to-one onto the three UI statuses. */
  lemma StatusesCorrespond(s: string, u: UiStatus)
    ensures MicrostepProgress.ValidStatus(BackendName(u)) && StatusOf(Some(BackendName(u))) == u
    ensures MicrostepProgress.ValidStatus(s) ==> BackendName(StatusOf(Some(s))) == s
  {
  }

  /** A step of the plan as the backend returns it. */
  datatype BackendStep = BackendStep(title: Option<string>, miniDescription: Option<string>, status: Option<string>)

  datatype StepView = StepView(id: int, title: string, description: string, status: UiStatus)

  /** `Step ${index + 1}` */
  function DefaultTitle(index: nat): string { "Step " + Text.NatToString(index + 1) }

  /** The step list built from the plan: ids are positions, missing titles and descriptions get defaults. */
  function MapSteps(steps: seq<BackendStep>): (r: seq<StepView>)
    ensures |r| == |steps|
    ensures forall k :: 0 <= k < |steps| ==> r[k].id == k && r[k].status == StatusOf(steps[k].status)
    ensures forall k :: 0 <= k < |steps| ==>
      r[k].title == (if steps[k].title.Some? then steps[k].title.value else DefaultTitle(k))
      && r[k].description == (if steps[k].miniDescription.Some? then steps[k].miniDescription.value else "")
  {
    seq(|steps|, k requires 0 <= k < |steps| => StepView(k,
      if steps[k].title.Some? then steps[k].title.value else DefaultTitle(k),
      if steps[k].miniDescription.Some? then steps[k].miniDescription.value else "",
      StatusOf(steps[k].status)))
  }

  function HasStatus(u: UiStatus): StepView -> bool { (s: StepView) => s.status == u }

  /** `total === 0 ? 0 : Math.round((done / total) * 100)` */
  function Percent(done: nat, total: nat): (p: int)
    requires done <= total
    ensures 0 <= p <= 100
    ensures done == 0 ==> p == 0
    ensures total > 0 && done == total ==> p == 100
    ensures total > 0 ==> p == MathRound(done as real / total as real * 100.0)
    ensures total > 0 ==> var x := done as real / total as real * 100.0; x - 0.5 < p as real <= x + 0.5
  {
    if total == 0 then 0
    else
      var x := done as real / total as real * 100.0;
      assert 0.0 <= x <= 100.0 by {
        assert done as real <= total as real;
        assert done as real / total as real <= 1.0;
      }
      assert done == total ==> x == 100.0;
      MathRound(x)
  }

  lemma PercentMonotone(a: nat, b: nat, total: nat)
    requires a <= b <= total
    ensures Percent(a, total) <= Percent(b, total)
  {
    if total > 0 {
      var x := a as real / total as real;
      var y := b as real / total as real;
      assert x <= y;
      assert x * 100.0 <= y * 100.0;
    }
  }

  /** The progress bar: the share of completed steps as a rounded percentage, 0 for an empty plan. */
  function Progress(steps: seq<StepView>): (p: int)
    ensures 0 <= p <= 100
    ensures Count(steps, HasStatus(Completed)) == 0 ==> p == 0
    ensures |steps| > 0 && Count(steps, HasStatus(Completed)) == |steps| ==> p == 100
    ensures |steps| > 0 ==> p == MathRound(Count(steps, HasStatus(Completed)) as real / |steps| as real * 100.0)
  {
    Percent(Count(steps, HasStatus(Completed)), |steps|)
  }

  /** Completing one more step counts it and never lowers the progress bar. */
  lemma CompletingRaisesProgress(steps: seq<StepView>, k: nat)
    requires k < |steps| && steps[k].status != Completed
    ensures Count(steps[k := steps[k].(status := Completed)], HasStatus(Completed)) == Count(steps, HasStatus(Completed)) + 1
    ensures Progress(steps) <= Progress(steps[k := steps[k].(status := Completed)])
  {
    var after := steps[k := steps[k].(status := Completed)];
    CountUpdate(steps, k, steps[k].(status := Completed), HasStatus(Completed));
    PercentMonotone(Count(steps, HasStatus(Completed)), Count(after, HasStatus(Completed)), |steps|);
  }

  datatype FilterChoice = All | Only(status: UiStatus)

  /** `filteredMicrosteps` */
  function Filtered(steps: seq<StepView>, f: FilterChoice): (r: seq<StepView>)
    ensures f == All ==> r == steps
    ensures f.Only? ==> forall s :: s in r <==> s in steps && s.status == f.status
  {
    if f == All then steps else Filter(steps, HasStatus(f.status))
  }

  /** Every step is under exactly one of the three status tabs. */
  lemma {:induction false} TabsPartition(steps: seq<StepView>)
    ensures |Filtered(steps, Only(Unexplored))| + |Filtered(steps, Only(InProgress))| + |Filtered(steps, Only(Completed))|
      == |Filtered(steps, All)|
    decreases |steps|
  {
    if steps != [] {
      TabsPartition(steps[1..]);
    }
  }

  /** `microsteps.find(m => m.id === stepId)` */
  function Find(steps: seq<StepView>, id: int): (r: Option<StepView>)
    ensures r.Some? ==> r.value in steps && r.value.id == id
    ensures r.None? ==> forall s :: s in steps ==> s.id != id
  {
    if steps == [] then None
    else if steps[0].id == id then Some(steps[0])
    else Find(steps[1..], id)
  }

  /** Where "take step" goes: the step marked in progress and its index. */
  datatype StepNavigation = StepNavigation(step: StepView, stepIndex: int)

  /** `handleTakeStep`: nothing when no step has the id. */
  function TakeStep(steps: seq<StepView>, stepId: int): (r: Option<StepNavigation>)
    ensures r.None? <==> Find(steps, stepId).None?
    ensures r.Some? ==> r.value.step == Find(steps, stepId).value.(status := InProgress) && r.value.stepIndex == stepId
  {
    match Find(steps, stepId)
    case None => None
    case Some(step) => Some(StepNavigation(step.(status := InProgress), stepId))
  }

  /** In a list built by MapSteps, the step found for an id is the one at that position. */
  lemma {:induction false} FindPosition(steps: seq<StepView>, offset: int, id: int)
    requires forall k :: 0 <= k < |steps| ==> steps[k].id == offset + k
    ensures (Find(steps, id).Some? <==> offset <= id < offset + |steps|)
    ensures offset <= id < offset + |steps| ==> Find(steps, id) == Some(steps[id - offset])
    decreases |steps|
  {
    if steps != [] && steps[0].id != id {
      FindPosition(steps[1..], offset + 1, id);
    }
  }

  /** "Take step" on a listed step opens exactly that step, in progress. */
  lemma TakeListedStep(plan: seq<BackendStep>, i: int)
    ensures TakeStep(MapSteps(plan), i).Some? <==> 0 <= i < |plan|
    ensures 0 <= i < |plan| ==>
      TakeStep(MapSteps(plan), i) == Some(StepNavigation(MapSteps(plan)[i].(status := InProgress), i))
  {
    FindPosition(MapSteps(plan), 0, i);
  }
}
