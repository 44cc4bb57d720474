/**
 * The progress and reflection-chat routes of
 * backend/app/api/routes/microstep_routes.py.  A user's microstep plan holds
 * a list of steps, each with its ministeps and an optional reflection chat;
 * the routes edit one step of one plan in place.  The coach's reply and the
 * clock are parameters.
 */
module MicrostepProgress {
  import opened Wrappers
  import opened Text

  datatype Ministep = Ministep(title: Option<string>, status: Option<string>)

  datatype Message = Message(role: string, message: string, timestamp: string)

  /** A step dict; a missing "ministeps" list reads as empty, a missing chat is None. */
  datatype Step = Step(
    stepIndex: Option<int>, title: Option<string>, status: Option<string>,
    ministeps: seq<Ministep>, chat: Option<seq<Message>>)

  /** A `microsteps` row: its owner, career and steps. */
  datatype Plan = Plan(userId: int, careerTitle: string, steps: seq<Step>)

  type Plans = map<int, Plan>

  const AuthRequired := "Authentication required"
  const InvalidStatus := "Invalid status. Must be one of: incomplete, in_progress, completed"
  const PlanNotFound := "Microstep not found"
  const InvalidStep := "Invalid step_index"
  const InvalidMinistep := "Invalid ministep_index"
  const OutOfRange := "IndexError: list index out of range"

  predicate ValidStatus(s: string) { s == "incomplete" || s == "in_progress" || s == "completed" }

  /** The plan `microstep_id` names belongs to the user. */
  predicate Owns(plans: Plans, id: int, user: int) { id in plans && plans[id].userId == user }

  /** Python `xs[i]`: a negative index counts from the end; None is an IndexError. */
  function PyIndex(i: int, n: nat): (r: Option<nat>)
    ensures r.Some? <==> -(n as int) <= i < n
    ensures r.Some? ==> r.value < n
    ensures 0 <= i < n ==> r == Some(i)
    ensures -(n as int) <= i < 0 ==> r == Some(n + i)
  {
    if 0 <= i < n then Some(i) else if -(n as int) <= i < 0 then Some(n + i) else None
  }

  /** The `index >= len` check the routes make, then Python indexing: negative indices are not rejected. */
  function Position(i: int, n: nat, tooLarge: string): (r: Result<nat>)
    ensures r.Ok? <==> -(n as int) <= i < n
    ensures r.Ok? ==> r.value < n
    ensures i >= n ==> r == Err(BadRequest(tooLarge))
  {
    if i >= n then Err(BadRequest(tooLarge))
    else if PyIndex(i, n).None? then Err(ServerError(OutOfRange))
    else Ok(PyIndex(i, n).value)
  }

  /** The checks every route makes first: an authenticated user who owns the plan. */
  function Lookup(plans: Plans, user: Option<int>, id: int): (r: Result<Plan>)
    ensures r.Ok? <==> user.Some? && Owns(plans, id, user.value)
    ensures r.Ok? ==> r.value == plans[id]
    ensures user.None? ==> r == Err(Unauthorized(AuthRequired))
  {
    if user.None? then Err(Unauthorized(AuthRequired))
    else if !Owns(plans, id, user.value) then Err(NotFound(PlanNotFound))
    else Ok(plans[id])
  }

  // ---------------------------------------------------------------
  // update_progress
  // ---------------------------------------------------------------

  /** Every ministep with status "completed", each otherwise as it was. */
  predicate AllCompleted(before: seq<Ministep>, after: seq<Ministep>) {
    |after| == |before| && forall k :: 0 <= k < |before| ==> after[k] == before[k].(status := Some("completed"))
  }

  function CompleteAll(ms: seq<Ministep>): (r: seq<Ministep>)
    ensures AllCompleted(ms, r)
  {
    if ms == [] then [] else [ms[0].(status := Some("completed"))] + CompleteAll(ms[1..])
  }

  /** The step after `update_progress` without a ministep index. */
  function StepWithStatus(step: Step, status: string): Step {
    step.(status := Some(status),
          ministeps := if status == "completed" then CompleteAll(step.ministeps) else step.ministeps)
  }

  /**
   * `update_progress`: the new table of plans, or the error, in the order
   * the route checks them (401, 400 for the status, 404, 400 for an index
   * too large, 500 for a negative index below -len).
   */
  function UpdateProgress(plans: Plans, user: Option<int>, id: int, stepIndex: int,
                          ministepIndex: Option<int>, status: string): (r: Result<Plans>)
    ensures user.None? ==> r == Err(Unauthorized(AuthRequired))
    ensures user.Some? && !ValidStatus(status) ==> r == Err(BadRequest(InvalidStatus))
    ensures user.Some? && ValidStatus(status) && !Owns(plans, id, user.value) ==> r == Err(NotFound(PlanNotFound))
    ensures user.Some? && ValidStatus(status) && Owns(plans, id, user.value) && stepIndex >= |plans[id].steps|
      ==> r == Err(BadRequest(InvalidStep))
    ensures r.Ok? ==> (user.Some? && ValidStatus(status) && Owns(plans, id, user.value)
      && -|plans[id].steps| <= stepIndex < |plans[id].steps|)
    ensures r.Ok? ==> r.value.Keys == plans.Keys
  {
    var plan := Lookup(plans, user, id);
    if user.Some? && !ValidStatus(status) then Err(BadRequest(InvalidStatus))
    else if plan.Err? then Err(plan.error)
    else
      var steps := plan.value.steps;
      var p := Position(stepIndex, |steps|, InvalidStep);
      if p.Err? then Err(p.error)
      else
        var step := steps[p.value];
        if ministepIndex.Some? then
          var q := Position(ministepIndex.value, |step.ministeps|, InvalidMinistep);
          if q.Err? then Err(q.error)
          else
            var ms := step.ministeps[q.value := step.ministeps[q.value].(status := Some(status))];
            Ok(plans[id := plan.value.(steps := steps[p.value := step.(ministeps := ms)])])
        else
          Ok(plans[id := plan.value.(steps := steps[p.value := StepWithStatus(step, status)])])
  }

  /** Only the addressed step of the addressed plan changes. */
  lemma UpdateTouchesOneStep(plans: Plans, user: Option<int>, id: int, stepIndex: int,
                             ministepIndex: Option<int>, status: string)
    ensures var r := UpdateProgress(plans, user, id, stepIndex, ministepIndex, status);
      r.Ok? ==>
        && (forall other :: other in plans && other != id ==> r.value[other] == plans[other])
        && var before, after := plans[id], r.value[id];
        && var p := PyIndex(stepIndex, |before.steps|).value;
        && after.userId == before.userId && after.careerTitle == before.careerTitle
        && |after.steps| == |before.steps|
        && (forall k :: 0 <= k < |before.steps| && k != p ==> after.steps[k] == before.steps[k])
  {
  }

  /** With a ministep index, only that ministep's status changes. */
  lemma UpdateMinistep(plans: Plans, user: Option<int>, id: int, stepIndex: int, j: int, status: string)
    ensures var r := UpdateProgress(plans, user, id, stepIndex, Some(j), status);
      r.Ok? ==>
        var p := PyIndex(stepIndex, |plans[id].steps|).value;
        var before, after := plans[id].steps[p], r.value[id].steps[p];
        var q := PyIndex(j, |before.ministeps|).value;
        && after == before.(ministeps := after.ministeps)
        && |after.ministeps| == |before.ministeps|
        && after.ministeps[q] == before.ministeps[q].(status := Some(status))
        && (forall k :: 0 <= k < |before.ministeps| && k != q ==> after.ministeps[k] == before.ministeps[k])
  {
  }

  /** Without one, the step's status is set, and only "completed" cascades to every ministep. */
  lemma UpdateStep(plans: Plans, user: Option<int>, id: int, stepIndex: int, status: string)
    ensures var r := UpdateProgress(plans, user, id, stepIndex, None, status);
      r.Ok? ==>
        var p := PyIndex(stepIndex, |plans[id].steps|).value;
        var before, after := plans[id].steps[p], r.value[id].steps[p];
        && after.status == Some(status)
        && after.chat == before.chat && after.title == before.title
        && (status == "completed" ==> AllCompleted(before.ministeps, after.ministeps))
        && (status != "completed" ==> after.ministeps == before.ministeps)
  {
  }

  /** A negative index addresses a step from the end: -1 is the last step. */
  lemma LastStepByNegativeIndex(plans: Plans, user: int, id: int, status: string)
    requires Owns(plans, id, user) && plans[id].steps != [] && ValidStatus(status)
    ensures var r := UpdateProgress(plans, Some(user), id, -1, None, status);
      r.Ok? && r.value[id].steps[|plans[id].steps| - 1].status == Some(status)
  {
  }

  // ---------------------------------------------------------------
  // Reflection chat
  // ---------------------------------------------------------------

  /** The new plan after `send_reflection_message`: the user's message, then the coach's reply. */
  function SendReflection(plans: Plans, user: Option<int>, id: int, stepIndex: int,
                          message: string, reply: string, sentAt: string, repliedAt: string)
    : (r: Result<Plans>)
    ensures r.Ok? <==> (user.Some? && Owns(plans, id, user.value)
      && -|plans[id].steps| <= stepIndex < |plans[id].steps|)
    ensures r.Ok? ==> r.value.Keys == plans.Keys
  {
    var plan := Lookup(plans, user, id);
    if plan.Err? then Err(plan.error)
    else
      var steps := plan.value.steps;
      var p := Position(stepIndex, |steps|, InvalidStep);
      if p.Err? then Err(p.error)
      else
        var step := steps[p.value];
        var chat := if step.chat.Some? then step.chat.value else [];
        var sent := Message("user", message, sentAt);
        var answered := Message("assistant", reply, repliedAt);
        Ok(plans[id := plan.value.(steps := steps[p.value := step.(chat := Some(chat + [sent, answered]))])])
  }

  /** The chat, created when missing, grows by exactly the user's message and the reply. */
  lemma ChatGrowsByTwo(plans: Plans, user: Option<int>, id: int, stepIndex: int,
                       message: string, reply: string, sentAt: string, repliedAt: string)
    ensures var r := SendReflection(plans, user, id, stepIndex, message, reply, sentAt, repliedAt);
      r.Ok? ==>
        var p := PyIndex(stepIndex, |plans[id].steps|).value;
        var before := plans[id].steps[p].chat;
        var after := r.value[id].steps[p].chat;
        var old_ := if before.Some? then before.value else [];
        && after.Some? && |after.value| == |old_| + 2 && after.value[..|old_|] == old_
        && after.value[|old_|] == Message("user", message, sentAt)
        && after.value[|old_| + 1] == Message("assistant", reply, repliedAt)
  {
  }

  /** `clear_reflection_chat`: the chat emptied, and the number of messages it held. */
  function ClearReflection(plans: Plans, user: Option<int>, id: int, stepIndex: int): (r: Result<(Plans, nat)>)
    ensures r.Ok? <==> (user.Some? && Owns(plans, id, user.value)
      && -|plans[id].steps| <= stepIndex < |plans[id].steps|)
    ensures r.Ok? ==> var p := PyIndex(stepIndex, |plans[id].steps|).value;
      && r.value.0.Keys == plans.Keys && |r.value.0[id].steps| == |plans[id].steps|
      && r.value.0[id].steps[p].chat == Some([])
      && r.value.1 == (if plans[id].steps[p].chat.Some? then |plans[id].steps[p].chat.value| else 0)
  {
    var plan := Lookup(plans, user, id);
    if plan.Err? then Err(plan.error)
    else
      var steps := plan.value.steps;
      var p := Position(stepIndex, |steps|, InvalidStep);
      if p.Err? then Err(p.error)
      else
        var step := steps[p.value];
        var count := if step.chat.Some? then |step.chat.value| else 0;
        Ok((plans[id := plan.value.(steps := steps[p.value := step.(chat := Some([]))])], count))
  }

  /** A chat message in the overview: the last message, its text cut to 100 characters and "...". */
  datatype ChatEntry = ChatEntry(stepIndex: Option<int>, title: Option<string>, status: Option<string>,
                                 count: nat, last: Message)

  function EntryOf(step: Step): ChatEntry
    requires step.chat.Some? && step.chat.value != []
  {
    var chat := step.chat.value;
    var last := chat[|chat| - 1];
    ChatEntry(step.stepIndex, step.title, step.status, |chat|, last.(message := Ellipsize(last.message, 100)))
  }

  predicate HasChat(step: Step) { step.chat.Some? && step.chat.value != [] }

  /** The overview of `get_all_reflection_chats`: one entry per step with a non-empty chat, in step order. */
  function ChatOverview(steps: seq<Step>): (r: seq<ChatEntry>)
    ensures |r| <= |steps|
    ensures forall e :: e in r ==> e.count > 0 && |e.last.message| <= 103
  {
    if steps == [] then []
    else (if HasChat(steps[0]) then [EntryOf(steps[0])] else []) + ChatOverview(steps[1..])
  }

  /** The steps the overview lists are exactly those with a non-empty chat. */
  function CountChats(steps: seq<Step>): nat {
    if steps == [] then 0 else (if HasChat(steps[0]) then 1 else 0) + CountChats(steps[1..])
  }

  lemma {:induction false} OverviewCounts(steps: seq<Step>)
    ensures |ChatOverview(steps)| == CountChats(steps)
    decreases |steps|
  {
    if steps != [] {
      OverviewCounts(steps[1..]);
    }
  }

  /** After clearing, that step drops out of the overview. */
  lemma ClearedLeavesOverview(plans: Plans, user: Option<int>, id: int, stepIndex: int)
    requires ClearReflection(plans, user, id, stepIndex).Ok?
    ensures var p := PyIndex(stepIndex, |plans[id].steps|).value;
      !HasChat(ClearReflection(plans, user, id, stepIndex).value.0[id].steps[p])
  {
  }

  /** The `microsteps` table, whose rows the routes edit in place. */
  class MicrostepStore {
    var plans: Plans

    constructor(plans: Plans)
      ensures this.plans == plans
    {
      this.plans := plans;
    }

    /** `update_progress`, with the cascade as the route's loop over the ministeps. */
    method Progress(user: Option<int>, id: int, stepIndex: int, ministepIndex: Option<int>, status: string)
      returns (r: Result<()>)
      modifies this
      ensures var spec := UpdateProgress(old(plans), user, id, stepIndex, ministepIndex, status);
        && (spec.Ok? ==> r.Ok? && plans == spec.value)
        && (spec.Err? ==> r == Err(spec.error) && plans == old(plans))
    {
      if user.None? {
        return Err(Unauthorized(AuthRequired));
      }
      if !ValidStatus(status) {
        return Err(BadRequest(InvalidStatus));
      }
      if !Owns(plans, id, user.value) {
        return Err(NotFound(PlanNotFound));
      }
      var plan := plans[id];
      var p := Position(stepIndex, |plan.steps|, InvalidStep);
      if p.Err? {
        return Err(p.error);
      }
      var step := plan.steps[p.value];
      if ministepIndex.Some? {
        var q := Position(ministepIndex.value, |step.ministeps|, InvalidMinistep);
        if q.Err? {
          return Err(q.error);
        }
        var ms := step.ministeps[q.value := step.ministeps[q.value].(status := Some(status))];
        step := step.(ministeps := ms);
      } else {
        step := step.(status := Some(status));
        if status == "completed" {
          var ms := step.ministeps;
          var k := 0;
          while k < |ms|
            invariant 0 <= k <= |ms| && |ms| == |step.ministeps|
            invariant forall m :: 0 <= m < k ==> ms[m] == step.ministeps[m].(status := Some("completed"))
            invariant forall m :: k <= m < |ms| ==> ms[m] == step.ministeps[m]
          {
            ms := ms[k := ms[k].(status := Some("completed"))];
            k := k + 1;
          }
          AllCompletedUnique(step.ministeps, ms);
          step := step.(ministeps := ms);
        }
      }
      plans := plans[id := plan.(steps := plan.steps[p.value := step])];
      return Ok(());
    }

    /** `send_reflection_message`; the chat length it reports. */
    method Reflect(user: Option<int>, id: int, stepIndex: int, message: string, reply: string,
                   sentAt: string, repliedAt: string) returns (r: Result<nat>)
      modifies this
      ensures var spec := SendReflection(old(plans), user, id, stepIndex, message, reply, sentAt, repliedAt);
        && (spec.Ok? ==> (plans == spec.value && r.Ok?
              && var p := PyIndex(stepIndex, |old(plans)[id].steps|).value;
                 plans[id].steps[p].chat.Some? && r.value == |plans[id].steps[p].chat.value|))
        && (spec.Err? ==> r == Err(spec.error) && plans == old(plans))
    {
      var plan := Lookup(plans, user, id);
      if plan.Err? {
        return Err(plan.error);
      }
      var p := Position(stepIndex, |plan.value.steps|, InvalidStep);
      if p.Err? {
        return Err(p.error);
      }
      var step := plan.value.steps[p.value];
      var chat := if step.chat.Some? then step.chat.value else [];
      chat := chat + [Message("user", message, sentAt)];
      chat := chat + [Message("assistant", reply, repliedAt)];
      assert chat == (if step.chat.Some? then step.chat.value else []) + [Message("user", message, sentAt), Message("assistant", reply, repliedAt)];
      plans := plans[id := plan.value.(steps := plan.value.steps[p.value := step.(chat := Some(chat))])];
      return Ok(|chat|);
    }

    /** `clear_reflection_chat`; the number of messages removed. */
    method Clear(user: Option<int>, id: int, stepIndex: int) returns (r: Result<nat>)
      modifies this
      ensures var spec := ClearReflection(old(plans), user, id, stepIndex);
        && (spec.Ok? ==> plans == spec.value.0 && r == Ok(spec.value.1))
        && (spec.Err? ==> r == Err(spec.error) && plans == old(plans))
    {
      var plan := Lookup(plans, user, id);
      if plan.Err? {
        return Err(plan.error);
      }
      var p := Position(stepIndex, |plan.value.steps|, InvalidStep);
      if p.Err? {
        return Err(p.error);
      }
      var step := plan.value.steps[p.value];
      var count := if step.chat.Some? then |step.chat.value| else 0;
      plans := plans[id := plan.value.(steps := plan.value.steps[p.value := step.(chat := Some([]))])];
      return Ok(count);
    }

    /** `get_all_reflection_chats`: the overview, built by the route's loop over the steps. */
    method Chats(user: Option<int>, id: int) returns (r: Result<seq<ChatEntry>>)
      ensures var plan := Lookup(plans, user, id);
        && (plan.Ok? ==> r == Ok(ChatOverview(plan.value.steps)))
        && (plan.Err? ==> r == Err(plan.error))
    {
      var plan := Lookup(plans, user, id);
      if plan.Err? {
        return Err(plan.error);
      }
      var steps := plan.value.steps;
      var overview: seq<ChatEntry> := [];
      var i := 0;
      while i < |steps|
        invariant 0 <= i <= |steps|
        invariant overview + ChatOverview(steps[i..]) == ChatOverview(steps)
      {
        assert steps[i..][1..] == steps[i + 1..];
        if HasChat(steps[i]) {
          overview := overview + [EntryOf(steps[i])];
        }
        i := i + 1;
      }
      assert steps[i..] == [];
      assert overview + [] == overview;
      return Ok(overview);
    }
  }

  /** The cascade the loop performs is `CompleteAll`. */
  lemma AllCompletedUnique(before: seq<Ministep>, after: seq<Ministep>)
    requires AllCompleted(before, after)
    ensures after == CompleteAll(before)
  {
    var c := CompleteAll(before);
    assert |c| == |after|;
    assert forall k :: 0 <= k < |c| ==> c[k] == after[k];
  }
}
