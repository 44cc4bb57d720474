/**
 * backend/app/services/final_data_service.py: the final JSON assembled from
 * a user's chat rows, questionnaire rows and progress, and the
 * create/update/skip policy of the `user_final_data` table.
 */
module FinalData {
  import opened Wrappers
  import opened Json
  import opened Rounding
  import opened QuestionLookup
  import opened Questionnaire

  /** The "progress" block: `completed_tabs` may be None when the stored tab is. */
  datatype ProgressInfo = ProgressInfo(completedTabs: Option<int>, totalTabs: nat, percentage: real)

  datatype IntroEntry = IntroEntry(chatId: string, questionText: Json, response: Json)

  /** A questionnaire entry; `scale` is present only when the lookup's value is truthy. */
  datatype ResponseEntry = ResponseEntry(category: Json, questionId: string, questionText: Json, qtype: Json,
                                         answer: Json, scale: Option<Json>)

  datatype FinalJson = FinalJson(userId: int, timestamp: int, introChat: seq<IntroEntry>,
                                 responses: seq<ResponseEntry>, progress: ProgressInfo)

  /** The distinct categories of the question lookup (`{v["category"] for v in ...}`). */
  function Categories(lookup: map<Json, QuestionMeta>): set<Json> {
    set k | k in lookup :: lookup[k].category
  }

  /**
   * The progress block: a missing row reads as not completed at tab 0;
   * completed means every tab and 100 percent; no tabs means 0 percent;
   * otherwise `round(current_tab / total_tabs * 100, 2)`, which fails on a
   * null tab.  An unhashable category fails the set.
   */
  function ProgressSummary(p: Option<Progress>, lookup: map<Json, QuestionMeta>): (r: Result<ProgressInfo>)
    ensures r.Ok? ==> forall c :: c in Categories(lookup) ==> Hashable(c)
    ensures r.Ok? ==> r.value.totalTabs == |Categories(lookup)|
    ensures r.Ok? && p.Some? && p.value.isCompleted ==>
      r.value.completedTabs == Some(|Categories(lookup)|) && r.value.percentage == 100.0
    ensures r.Ok? && p.None? ==> r.value.completedTabs == Some(0) && r.value.percentage == 0.0
    ensures r.Err? <==> (
      (exists c :: c in Categories(lookup) && !Hashable(c)) ||
      (p.Some? && !p.value.isCompleted && p.value.currentTab.None? && |Categories(lookup)| != 0))
  {
    var cats := Categories(lookup);
    if exists c :: c in cats && !Hashable(c) then Err(ServerError(Unhashable))
    else
      var completed := p.Some? && p.value.isCompleted;
      var tab := if p.Some? then p.value.currentTab else Some(0);
      var total := |cats|;
      if completed then Ok(ProgressInfo(Some(total), total, 100.0))
      else if total == 0 then Ok(ProgressInfo(tab, 0, 0.0))
      else if tab.None? then Err(ServerError("TypeError: unsupported operand type(s) for /: 'NoneType' and 'int'"))
      else
        assert tab.value == 0 ==> Round2(0.0) == 0.0;
        Ok(ProgressInfo(tab, total, Round2(tab.value as real / total as real * 100.0)))
  }

  /** A tab within the questionnaire gives a percentage within [0, 100]. */
  lemma PercentageBounded(p: Option<Progress>, lookup: map<Json, QuestionMeta>)
    requires p.Some? && p.value.currentTab.Some? ==> 0 <= p.value.currentTab.value <= |Categories(lookup)|
    ensures ProgressSummary(p, lookup).Ok? ==> 0.0 <= ProgressSummary(p, lookup).value.percentage <= 100.0
  {
    var r := ProgressSummary(p, lookup);
    var total := |Categories(lookup)|;
    if r.Ok? && p.Some? && !p.value.isCompleted && total != 0 {
      var t := p.value.currentTab.value;
      var x := t as real / total as real * 100.0;
      UnitRatio(t as real, total as real);
      RoundBetween(x * 100.0, 0, 10000);
    }
  }

  /** The chat entry: the script's text for a known id, otherwise "". */
  function IntroEntryOf(row: ChatRow, chatLookup: map<Json, Json>): (e: IntroEntry)
    ensures e.chatId == row.chatId && e.response == row.response
    ensures JStr(row.chatId) !in chatLookup ==> e.questionText == JStr("")
    ensures JStr(row.chatId) in chatLookup ==> e.questionText == chatLookup[JStr(row.chatId)]
  {
    var key := JStr(row.chatId);
    IntroEntry(row.chatId, if key in chatLookup then chatLookup[key] else JStr(""), row.response)
  }

  /** The questionnaire entry: the lookup's metadata, or the row's category and "" when unknown. */
  function ResponseEntryOf(row: AnswerRow, lookup: map<Json, QuestionMeta>): (e: ResponseEntry)
    ensures e.questionId == row.questionId && e.answer == row.answer
    ensures JStr(row.questionId) !in lookup ==>
      e.category == JStr(row.category) && e.questionText == JStr("") && e.qtype == JStr("") && e.scale.None?
    ensures JStr(row.questionId) in lookup ==> e.category == lookup[JStr(row.questionId)].category
    ensures e.scale.Some? <==> JStr(row.questionId) in lookup && Truthy(lookup[JStr(row.questionId)].scale)
  {
    var key := JStr(row.questionId);
    if key !in lookup then ResponseEntry(JStr(row.category), row.questionId, JStr(""), JStr(""), row.answer, None)
    else
      var meta := lookup[key];
      ResponseEntry(meta.category, row.questionId, meta.questionText, meta.qtype, row.answer,
                    if Truthy(meta.scale) then Some(meta.scale) else None)
  }

  /** One intro entry per chat row, in row order. */
  function IntroEntries(rows: seq<ChatRow>, chatLookup: map<Json, Json>): (r: seq<IntroEntry>)
    ensures |r| == |rows|
    ensures forall i :: 0 <= i < |rows| ==> r[i] == IntroEntryOf(rows[i], chatLookup)
  {
    if rows == [] then [] else IntroEntries(rows[..|rows| - 1], chatLookup) + [IntroEntryOf(rows[|rows| - 1], chatLookup)]
  }

  /** One questionnaire entry per answer row, in row order. */
  function ResponseEntries(rows: seq<AnswerRow>, lookup: map<Json, QuestionMeta>): (r: seq<ResponseEntry>)
    ensures |r| == |rows|
    ensures forall i :: 0 <= i < |rows| ==> r[i] == ResponseEntryOf(rows[i], lookup)
  {
    if rows == [] then [] else ResponseEntries(rows[..|rows| - 1], lookup) + [ResponseEntryOf(rows[|rows| - 1], lookup)]
  }

  /** `build_user_final_json`: the user's rows in id order, with the progress block. */
  function FinalJsonOf(u: int, now: int, chats: seq<ChatRow>, answers: seq<AnswerRow>, progress: map<int, Progress>,
                       lookup: map<Json, QuestionMeta>, chatLookup: map<Json, Json>): Result<FinalJson>
  {
    var p := ProgressSummary(if u in progress then Some(progress[u]) else None, lookup);
    if p.Err? then Err(p.error)
    else
      Ok(FinalJson(u, now, IntroEntries(UserChats(chats, u), chatLookup),
                   ResponseEntries(UserAnswers(answers, u), lookup), p.value))
  }

  /** The loop over the user's chat rows. */
  method CollectIntro(rows: seq<ChatRow>, chatLookup: map<Json, Json>) returns (intro: seq<IntroEntry>)
    ensures intro == IntroEntries(rows, chatLookup)
  {
    intro := [];
    var i := 0;
    while i < |rows|
      invariant 0 <= i <= |rows|
      invariant intro == IntroEntries(rows[..i], chatLookup)
    {
      assert rows[..i + 1][..i] == rows[..i];
      intro := intro + [IntroEntryOf(rows[i], chatLookup)];
      i := i + 1;
    }
    assert rows[..i] == rows;
  }

  /** The loop over the user's questionnaire rows. */
  method CollectResponses(rows: seq<AnswerRow>, lookup: map<Json, QuestionMeta>) returns (entries: seq<ResponseEntry>)
    ensures entries == ResponseEntries(rows, lookup)
  {
    entries := [];
    var j := 0;
    while j < |rows|
      invariant 0 <= j <= |rows|
      invariant entries == ResponseEntries(rows[..j], lookup)
    {
      assert rows[..j + 1][..j] == rows[..j];
      entries := entries + [ResponseEntryOf(rows[j], lookup)];
      j := j + 1;
    }
    assert rows[..j] == rows;
  }

  /** `build_user_final_json` */
  method BuildUserFinalJson(u: int, now: int, chats: seq<ChatRow>, answers: seq<AnswerRow>,
                            progress: map<int, Progress>, lookup: map<Json, QuestionMeta>,
                            chatLookup: map<Json, Json>) returns (r: Result<FinalJson>)
    ensures r == FinalJsonOf(u, now, chats, answers, progress, lookup, chatLookup)
  {
    var p := ProgressSummary(if u in progress then Some(progress[u]) else None, lookup);
    if p.Err? {
      return Err(p.error);
    }
    var intro := CollectIntro(UserChats(chats, u), chatLookup);
    var entries := CollectResponses(UserAnswers(answers, u), lookup);
    return Ok(FinalJson(u, now, intro, entries, p.value));
  }

  /** `can_create_for_user`: a progress row exists and is completed. */
  predicate CanCreateForUser(progress: map<int, Progress>, u: int)
    ensures u !in progress ==> !CanCreateForUser(progress, u)
    ensures u in progress ==> (CanCreateForUser(progress, u) <==> progress[u].isCompleted)
  {
    u in progress && progress[u].isCompleted
  }

  datatype FinalRecord = FinalRecord(finalJson: FinalJson, updatedAt: int)

  datatype SaveOutcome = Updated(data: FinalJson) | Created(data: FinalJson) | Skipped(reason: string, data: FinalJson)

  const NotCompleted := "user not completed"

  /** The `user_final_data` table, one record per user. */
  class FinalDataTable {
    var records: map<int, FinalRecord>

    constructor ()
      ensures records == map[]
    {
      records := map[];
    }

    /**
     * `save_user_final_data`: an existing record is replaced; a missing one
     * is created only for a completed user; otherwise nothing is written.
     */
    method SaveUserFinalData(u: int, now: int, chats: seq<ChatRow>, answers: seq<AnswerRow>,
                             progress: map<int, Progress>, lookup: map<Json, QuestionMeta>,
                             chatLookup: map<Json, Json>) returns (r: Result<SaveOutcome>)
      modifies this
      ensures var payload := FinalJsonOf(u, now, chats, answers, progress, lookup, chatLookup);
        && (payload.Err? ==> r == Err(payload.error) && records == old(records))
        && (payload.Ok? && u in old(records) ==>
              r == Ok(Updated(payload.value)) && records == old(records)[u := FinalRecord(payload.value, now)])
        && (payload.Ok? && u !in old(records) && CanCreateForUser(progress, u) ==>
              r == Ok(Created(payload.value)) && records == old(records)[u := FinalRecord(payload.value, now)])
        && (payload.Ok? && u !in old(records) && !CanCreateForUser(progress, u) ==>
              r == Ok(Skipped(NotCompleted, payload.value)) && records == old(records))
      ensures u in records && u !in old(records) ==> CanCreateForUser(progress, u)
      ensures forall v :: v != u ==> (v in records <==> v in old(records)) && (v in records ==> records[v] == old(records)[v])
    {
      var payload := BuildUserFinalJson(u, now, chats, answers, progress, lookup, chatLookup);
      if payload.Err? {
        return Err(payload.error);
      }
      if u in records {
        records := records[u := FinalRecord(payload.value, now)];
        return Ok(Updated(payload.value));
      }
      if CanCreateForUser(progress, u) {
        records := records[u := FinalRecord(payload.value, now)];
        return Ok(Created(payload.value));
      }
      return Ok(Skipped(NotCompleted, payload.value));
    }
  }

  /** A completed user's payload always reports every tab done at 100 percent. */
  lemma CompletedPayload(u: int, now: int, chats: seq<ChatRow>, answers: seq<AnswerRow>,
                         progress: map<int, Progress>, lookup: map<Json, QuestionMeta>, chatLookup: map<Json, Json>)
    requires CanCreateForUser(progress, u)
    requires forall c :: c in Categories(lookup) ==> Hashable(c)
    ensures var r := FinalJsonOf(u, now, chats, answers, progress, lookup, chatLookup);
      r.Ok? && r.value.progress.percentage == 100.0 && r.value.progress.completedTabs == Some(r.value.progress.totalTabs)
      && |r.value.introChat| == |UserChats(chats, u)| && |r.value.responses| == |UserAnswers(answers, u)|
  {
  }
}
