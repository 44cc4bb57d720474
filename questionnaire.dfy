/**
 * The questionnaire store of backend/app/services/questionnaire_service.py:
 * chat and questionnaire answers upserted by (user, id), the forward-only
 * progress row, and the three required-question completion checks.
 * Tables are sequences in id order; the clock is a parameter.
 */
module Questionnaire {
  import opened Wrappers
  import opened Json
  import QuestionLookup

  datatype ChatRow = ChatRow(userId: int, chatId: string, response: Json, timestamp: int)
  datatype AnswerRow = AnswerRow(userId: int, category: string, questionId: string, answer: Json, timestamp: int)

  /** A `user_progress` row; `current_tab` is a nullable column. */
  datatype Progress = Progress(currentTab: Option<int>, isCompleted: bool, savedAt: int)

  const KeyMissing := "KeyError: 'id'"

  // ---------------------------------------------------------------
  // Upserts by (user, chat_id) and (user, question_id)
  // ---------------------------------------------------------------

  /** `.filter(user_id == u, chat_id == c).first()` */
  function FirstChat(rows: seq<ChatRow>, u: int, c: string): (r: Option<nat>)
    ensures r.Some? ==> r.value < |rows| && rows[r.value].userId == u && rows[r.value].chatId == c
    ensures r.Some? ==> forall j :: 0 <= j < r.value ==> !(rows[j].userId == u && rows[j].chatId == c)
    ensures r.None? ==> forall j :: 0 <= j < |rows| ==> !(rows[j].userId == u && rows[j].chatId == c)
  {
    if rows == [] then None
    else if rows[0].userId == u && rows[0].chatId == c then Some(0)
    else
      var rest := FirstChat(rows[1..], u, c);
      if rest.None? then None else Some(rest.value + 1)
  }

  /** The response stored for (u, c), as the first matching row reads it. */
  function ChatOf(rows: seq<ChatRow>, u: int, c: string): Option<Json> {
    var i := FirstChat(rows, u, c);
    if i.None? then None else Some(rows[i.value].response)
  }

  /** `save_chat_response`: replace the stored response and timestamp, else insert a row. */
  function SaveChat(rows: seq<ChatRow>, u: int, c: string, response: Json, now: int): seq<ChatRow> {
    var i := FirstChat(rows, u, c);
    if i.Some? then rows[i.value := rows[i.value].(response := response, timestamp := now)]
    else rows + [ChatRow(u, c, response, now)]
  }

  /** Reading back after a save gives the saved response; other keys read as before. */
  lemma SaveChatThenRead(rows: seq<ChatRow>, u: int, c: string, response: Json, now: int, u': int, c': string)
    ensures ChatOf(SaveChat(rows, u, c, response, now), u, c) == Some(response)
    ensures (u', c') != (u, c) ==> ChatOf(SaveChat(rows, u, c, response, now), u', c') == ChatOf(rows, u', c')
  {
    var r := SaveChat(rows, u, c, response, now);
    var i := FirstChat(rows, u, c);
    var k := if i.Some? then i.value else |rows|;
    assert r[k].userId == u && r[k].chatId == c && r[k].response == response;
    assert forall j :: 0 <= j < k ==> r[j] == rows[j];
    if (u', c') != (u, c) {
      var j := FirstChat(rows, u', c');
      if j.Some? {
        assert r[j.value] == rows[j.value];
      } else {
        assert forall k :: 0 <= k < |r| ==> !(r[k].userId == u' && r[k].chatId == c') by {
          forall k | 0 <= k < |r| ensures !(r[k].userId == u' && r[k].chatId == c') {
            if k < |rows| { assert r[k].userId == rows[k].userId && r[k].chatId == rows[k].chatId; }
          }
        }
      }
    }
  }

  /** No two chat rows share (user, chat_id). */
  predicate ChatKeysUnique(rows: seq<ChatRow>) {
    forall i, j :: 0 <= i < j < |rows| ==> (rows[i].userId, rows[i].chatId) != (rows[j].userId, rows[j].chatId)
  }

  lemma SaveChatKeepsKeysUnique(rows: seq<ChatRow>, u: int, c: string, response: Json, now: int)
    requires ChatKeysUnique(rows)
    ensures ChatKeysUnique(SaveChat(rows, u, c, response, now))
    ensures |SaveChat(rows, u, c, response, now)| == |rows| + (if FirstChat(rows, u, c).None? then 1 else 0)
  {
  }

  /** `.filter(user_id == u, question_id == q).first()` */
  function FirstAnswer(rows: seq<AnswerRow>, u: int, q: string): (r: Option<nat>)
    ensures r.Some? ==> r.value < |rows| && rows[r.value].userId == u && rows[r.value].questionId == q
    ensures r.Some? ==> forall j :: 0 <= j < r.value ==> !(rows[j].userId == u && rows[j].questionId == q)
    ensures r.None? ==> forall j :: 0 <= j < |rows| ==> !(rows[j].userId == u && rows[j].questionId == q)
  {
    if rows == [] then None
    else if rows[0].userId == u && rows[0].questionId == q then Some(0)
    else
      var rest := FirstAnswer(rows[1..], u, q);
      if rest.None? then None else Some(rest.value + 1)
  }

  function AnswerOf(rows: seq<AnswerRow>, u: int, q: string): Option<AnswerRow> {
    var i := FirstAnswer(rows, u, q);
    if i.None? then None else Some(rows[i.value])
  }

  /**
   * `save_questionnaire_response` (and each item of the bulk save): replace
   * answer and timestamp, else insert; an update keeps the stored category.
   */
  function SaveAnswer(rows: seq<AnswerRow>, u: int, category: string, q: string, answer: Json, now: int)
    : seq<AnswerRow>
  {
    var i := FirstAnswer(rows, u, q);
    if i.Some? then rows[i.value := rows[i.value].(answer := answer, timestamp := now)]
    else rows + [AnswerRow(u, category, q, answer, now)]
  }

  /** After a save (u, q) reads the new answer, with the category it was first stored under. */
  lemma SaveAnswerThenRead(rows: seq<AnswerRow>, u: int, category: string, q: string, answer: Json, now: int,
                           u': int, q': string)
    ensures var r := AnswerOf(SaveAnswer(rows, u, category, q, answer, now), u, q);
      r.Some? && r.value.answer == answer && r.value.timestamp == now &&
      r.value.category == (if AnswerOf(rows, u, q).Some? then AnswerOf(rows, u, q).value.category else category)
    ensures (u', q') != (u, q) ==> AnswerOf(SaveAnswer(rows, u, category, q, answer, now), u', q') == AnswerOf(rows, u', q')
  {
    var r := SaveAnswer(rows, u, category, q, answer, now);
    var i := FirstAnswer(rows, u, q);
    var k := if i.Some? then i.value else |rows|;
    assert r[k].userId == u && r[k].questionId == q && r[k].answer == answer;
    assert forall j :: 0 <= j < k ==> r[j] == rows[j];
    if (u', q') != (u, q) {
      var j := FirstAnswer(rows, u', q');
      if j.Some? {
        assert r[j.value] == rows[j.value];
      } else {
        assert forall k :: 0 <= k < |r| ==> !(r[k].userId == u' && r[k].questionId == q') by {
          forall k | 0 <= k < |r| ensures !(r[k].userId == u' && r[k].questionId == q') {
            if k < |rows| { assert r[k].userId == rows[k].userId && r[k].questionId == rows[k].questionId; }
          }
        }
      }
    }
  }

  predicate AnswerKeysUnique(rows: seq<AnswerRow>) {
    forall i, j :: 0 <= i < j < |rows| ==> (rows[i].userId, rows[i].questionId) != (rows[j].userId, rows[j].questionId)
  }

  lemma SaveAnswerKeepsKeysUnique(rows: seq<AnswerRow>, u: int, category: string, q: string, answer: Json, now: int)
    requires AnswerKeysUnique(rows)
    ensures AnswerKeysUnique(SaveAnswer(rows, u, category, q, answer, now))
  {
  }

  /** One `responses` item of the bulk save. */
  datatype BulkItem = BulkItem(userId: int, category: string, questionId: string, answer: Json)

  /**
   * The bulk loop as its docstring promises it (corrected): each item is
   * upserted against the rows the earlier items left.
   */
  function SaveAll(rows: seq<AnswerRow>, items: seq<BulkItem>, now: int): (r: seq<AnswerRow>)
    ensures |rows| <= |r| <= |rows| + |items|
    decreases |items|
  {
    if items == [] then rows
    else
      var it := items[|items| - 1];
      SaveAnswer(SaveAll(rows, items[..|items| - 1], now), it.userId, it.category, it.questionId, it.answer, now)
  }

  /** Every row stored before the corrected batch keeps its key and category. */
  lemma {:induction false} SaveAllKeepsStored(rows: seq<AnswerRow>, items: seq<BulkItem>, now: int)
    ensures var r := SaveAll(rows, items, now);
      forall j :: 0 <= j < |rows| ==>
        r[j].userId == rows[j].userId && r[j].questionId == rows[j].questionId && r[j].category == rows[j].category
    decreases |items|
  {
    if items != [] {
      SaveAllKeepsStored(rows, items[..|items| - 1], now);
    }
  }

  /** The corrected bulk save keeps one row per (user, question id), even when an item repeats within the batch. */
  lemma {:induction false} SaveAllKeepsKeysUnique(rows: seq<AnswerRow>, items: seq<BulkItem>, now: int)
    requires AnswerKeysUnique(rows)
    ensures AnswerKeysUnique(SaveAll(rows, items, now))
    decreases |items|
  {
    if items != [] {
      SaveAllKeepsKeysUnique(rows, items[..|items| - 1], now);
      var it := items[|items| - 1];
      SaveAnswerKeepsKeysUnique(SaveAll(rows, items[..|items| - 1], now), it.userId, it.category, it.questionId, it.answer, now);
    }
  }

  /** The (user, question id) keys the items of a batch name. */
  function ItemKeys(items: seq<BulkItem>): set<(int, string)> {
    set i | 0 <= i < |items| :: (items[i].userId, items[i].questionId)
  }

  predicate ItemKeysDistinct(items: seq<BulkItem>) {
    forall i, j :: 0 <= i < j < |items| ==> (items[i].userId, items[i].questionId) != (items[j].userId, items[j].questionId)
  }

  /** The rows the batch inserts: one per item whose key was not stored before the batch, in order. */
  function NewRows(stored: seq<AnswerRow>, items: seq<BulkItem>, now: int): (r: seq<AnswerRow>)
    ensures |r| <= |items|
    ensures forall j :: 0 <= j < |r| ==> (r[j].userId, r[j].questionId) in ItemKeys(items)
  {
    if items == [] then []
    else
      var it := items[|items| - 1];
      var earlier := NewRows(stored, items[..|items| - 1], now);
      assert ItemKeys(items[..|items| - 1]) <= ItemKeys(items) by {
        forall i | 0 <= i < |items| - 1 ensures items[..|items| - 1][i] == items[i] { }
      }
      assert (it.userId, it.questionId) in ItemKeys(items);
      if FirstAnswer(stored, it.userId, it.questionId).None?
      then earlier + [AnswerRow(it.userId, it.category, it.questionId, it.answer, now)]
      else earlier
  }

  /**
   * `save_bulk_questionnaire_responses` as written. The session neither
   * autoflushes (backend/app/core/database.py:12) nor has a unique key on
   * (user_id, question_id), so each item's `.first()` sees only the rows
   * stored before the batch: a key found there is updated in place, the last
   * answer winning, and every item with any other key inserts a row of its
   * own, even when an earlier item of the batch inserted the same key.
   */
  function SaveAllAsWritten(stored: seq<AnswerRow>, items: seq<BulkItem>, now: int): (r: seq<AnswerRow>)
    ensures |r| == |stored| + |NewRows(stored, items, now)|
    decreases |items|
  {
    if items == [] then stored
    else
      var it := items[|items| - 1];
      var earlier := SaveAllAsWritten(stored, items[..|items| - 1], now);
      match FirstAnswer(stored, it.userId, it.questionId)
      case Some(i) => earlier[i := earlier[i].(answer := it.answer, timestamp := now)]
      case None => earlier + [AnswerRow(it.userId, it.category, it.questionId, it.answer, now)]
  }

  /**
   * The rows stored before the batch keep their keys and categories, and
   * after them come exactly the inserted `NewRows`.
   */
  lemma {:induction false} AsWrittenShape(stored: seq<AnswerRow>, items: seq<BulkItem>, now: int)
    ensures var r := SaveAllAsWritten(stored, items, now);
      && (forall j :: 0 <= j < |stored| ==>
            r[j].userId == stored[j].userId && r[j].questionId == stored[j].questionId && r[j].category == stored[j].category)
      && r[|stored|..] == NewRows(stored, items, now)
    decreases |items|
  {
    if items != [] {
      AsWrittenShape(stored, items[..|items| - 1], now);
    }
  }

  /** Two rows that agree on their keys up to |a|, and have no (u, q) after it, find (u, q) at the same place. */
  lemma FirstAnswerSameKeys(a: seq<AnswerRow>, b: seq<AnswerRow>, u: int, q: string)
    requires |a| <= |b|
    requires forall j :: 0 <= j < |a| ==> b[j].userId == a[j].userId && b[j].questionId == a[j].questionId
    requires forall j :: |a| <= j < |b| ==> !(b[j].userId == u && b[j].questionId == q)
    ensures FirstAnswer(b, u, q) == FirstAnswer(a, u, q)
  {
    var fa := FirstAnswer(a, u, q);
    var fb := FirstAnswer(b, u, q);
    if fa.Some? {
      var i := fa.value;
      assert b[i].userId == u && b[i].questionId == q;
      assert forall j :: 0 <= j < i ==> !(b[j].userId == u && b[j].questionId == q);
      assert fb.Some? && fb.value == i;
    }
  }

  /** A batch whose items name distinct keys is saved as the upsert would save it. */
  lemma {:induction false} AsWrittenAgreesOnDistinct(stored: seq<AnswerRow>, items: seq<BulkItem>, now: int)
    requires ItemKeysDistinct(items)
    ensures SaveAllAsWritten(stored, items, now) == SaveAll(stored, items, now)
    decreases |items|
  {
    if items != [] {
      var n := |items| - 1;
      var it := items[n];
      var front := items[..n];
      assert ItemKeysDistinct(front) by {
        forall i, j | 0 <= i < j < |front| ensures (front[i].userId, front[i].questionId) != (front[j].userId, front[j].questionId) {
          assert front[i] == items[i] && front[j] == items[j];
        }
      }
      AsWrittenAgreesOnDistinct(stored, front, now);
      AsWrittenShape(stored, front, now);
      var earlier := SaveAllAsWritten(stored, front, now);
      assert (it.userId, it.questionId) !in ItemKeys(front);
      forall j | |stored| <= j < |earlier| ensures !(earlier[j].userId == it.userId && earlier[j].questionId == it.questionId) {
        assert earlier[j] == earlier[|stored|..][j - |stored|];
      }
      FirstAnswerSameKeys(stored, earlier, it.userId, it.questionId);
    }
  }

  /** For a batch naming distinct keys the loop as written is the upsert, and keeps stored keys unique. */
  lemma DistinctBatchUpserts(stored: seq<AnswerRow>, items: seq<BulkItem>, now: int)
    ensures ItemKeysDistinct(items) ==> SaveAllAsWritten(stored, items, now) == SaveAll(stored, items, now)
    ensures ItemKeysDistinct(items) && AnswerKeysUnique(stored) ==> AnswerKeysUnique(SaveAllAsWritten(stored, items, now))
  {
    if ItemKeysDistinct(items) {
      AsWrittenAgreesOnDistinct(stored, items, now);
      if AnswerKeysUnique(stored) {
        SaveAllKeepsKeysUnique(stored, items, now);
      }
    }
  }

  /**
   * Two new items with one key in one batch: the code as written inserts two
   * rows, the upsert its docstring promises keeps one with the last answer.
   */
  lemma BatchRepeatDuplicates(u: int, c: string, a: Json, b: Json, now: int)
    ensures var items := [BulkItem(u, c, "q1", a), BulkItem(u, c, "q1", b)];
      && SaveAllAsWritten([], items, now) == [AnswerRow(u, c, "q1", a, now), AnswerRow(u, c, "q1", b, now)]
      && SaveAll([], items, now) == [AnswerRow(u, c, "q1", b, now)]
      && !AnswerKeysUnique(SaveAllAsWritten([], items, now))
  {
    var items := [BulkItem(u, c, "q1", a), BulkItem(u, c, "q1", b)];
    var first := [AnswerRow(u, c, "q1", a, now)];
    assert items[..1] == [BulkItem(u, c, "q1", a)] && items[..1][..0] == [];
    assert SaveAllAsWritten([], items[..1], now) == first;
    assert SaveAll([], items[..1], now) == first;
    assert FirstAnswer(first, u, "q1") == Some(0);
    var dup := SaveAllAsWritten([], items, now);
    assert dup == first + [AnswerRow(u, c, "q1", b, now)];
    assert (dup[0].userId, dup[0].questionId) == (dup[1].userId, dup[1].questionId);
  }

  /** The question ids the user has answered (`get_saved_responses`), as JSON strings. */
  function AnsweredIds(rows: seq<AnswerRow>, u: int): set<Json> {
    set i | 0 <= i < |rows| && rows[i].userId == u :: JStr(rows[i].questionId)
  }

  lemma SaveAnswerAnswers(rows: seq<AnswerRow>, u: int, category: string, q: string, answer: Json, now: int)
    ensures AnsweredIds(SaveAnswer(rows, u, category, q, answer, now), u) == AnsweredIds(rows, u) + {JStr(q)}
  {
    var r := SaveAnswer(rows, u, category, q, answer, now);
    var i := FirstAnswer(rows, u, q);
    forall x | x in AnsweredIds(r, u) ensures x in AnsweredIds(rows, u) + {JStr(q)} {
      var k :| 0 <= k < |r| && r[k].userId == u && x == JStr(r[k].questionId);
      if k < |rows| && (i.None? || k != i.value) { assert r[k] == rows[k]; }
    }
    forall x | x in AnsweredIds(rows, u) + {JStr(q)} ensures x in AnsweredIds(r, u) {
      if x == JStr(q) {
        var k := if i.Some? then i.value else |rows|;
        assert r[k].userId == u && r[k].questionId == q;
      } else {
        var k :| 0 <= k < |rows| && rows[k].userId == u && x == JStr(rows[k].questionId);
        assert r[k].userId == u && r[k].questionId == rows[k].questionId;
      }
    }
  }

  // ---------------------------------------------------------------
  // update_user_progress
  // ---------------------------------------------------------------

  /**
   * `update_user_progress`: a new row gets `current_tab or 1` and the
   * completion flag or False; an existing row's tab only moves forward and
   * its flag is overwritten whenever one is given.
   */
  function UpdateProgress(progress: map<int, Progress>, u: int, tab: Option<int>, completed: Option<bool>, now: int)
    : (r: map<int, Progress>)
    ensures r.Keys == progress.Keys + {u}
    ensures forall v :: v in progress && v != u ==> r[v] == progress[v]
    ensures u !in progress ==> r[u].currentTab == Some(if tab.Some? && tab.value != 0 then tab.value else 1)
    ensures r[u].isCompleted == (if completed.Some? then completed.value else u in progress && progress[u].isCompleted)
  {
    if u !in progress then
      progress[u := Progress(if tab.Some? && tab.value != 0 then tab else Some(1), completed.Some? && completed.value, now)]
    else
      var p := progress[u];
      var newTab := if tab.Some? && (p.currentTab.None? || tab.value > p.currentTab.value) then tab else p.currentTab;
      progress[u := Progress(newTab, if completed.Some? then completed.value else p.isCompleted, now)]
  }

  /** On an existing row the tab never moves back, and a given tab is reached. */
  lemma TabMovesForward(progress: map<int, Progress>, u: int, tab: Option<int>, completed: Option<bool>, now: int)
    requires u in progress && progress[u].currentTab.Some?
    ensures var r := UpdateProgress(progress, u, tab, completed, now)[u];
      r.currentTab.Some? && r.currentTab.value >= progress[u].currentTab.value &&
      (tab.Some? ==> r.currentTab.value >= tab.value) &&
      (tab.None? ==> r.currentTab == progress[u].currentTab)
  {
  }

  /** Completion is not monotone: an explicit False clears a completed row. */
  lemma CompletionCanRegress(progress: map<int, Progress>, u: int, now: int)
    requires u in progress && progress[u].isCompleted
    ensures !UpdateProgress(progress, u, None, Some(false), now)[u].isCompleted
    ensures UpdateProgress(progress, u, None, Some(false), now)[u].currentTab == progress[u].currentTab
  {
  }

  // ---------------------------------------------------------------
  // Required question ids
  // ---------------------------------------------------------------

  /**
   * The three ways the service collects required ids: the single save keeps
   * truthy `q.get("id")`; the bulk save keeps every `q.get("id")`, None
   * included; completion marking reads `q["id"]`, which fails when absent.
   */
  datatype Variant = Single | Bulk | Mark

  /** The ids one required section contributes. */
  function QuestionIds(qs: seq<Json>, variant: Variant): (r: Result<set<Json>>)
    ensures r.Ok? && variant == Single ==> forall x :: x in r.value ==> Truthy(x)
  {
    if qs == [] then Ok({})
    else if !qs[0].JObj? then Err(ServerError(NoGet))
    else
      var fields := qs[0].fields;
      var id := GetField(fields, "id");
      var here: Result<set<Json>> :=
        if variant == Mark && "id" !in fields then Err(ServerError(KeyMissing))
        else if variant == Single && !Truthy(id) then Ok({})
        else if !QuestionLookup.Hashable(id) then Err(ServerError(QuestionLookup.Unhashable))
        else Ok({id});
      if here.Err? then here
      else
        var rest := QuestionIds(qs[1..], variant);
        if rest.Err? then rest else Ok(here.value + rest.value)
  }

  /** The ids of every section marked `required`, in section order. */
  function RequiredIds(sections: seq<Json>, variant: Variant): (r: Result<set<Json>>)
    ensures r.Ok? && variant == Single ==> forall x :: x in r.value ==> Truthy(x)
  {
    if sections == [] then Ok({})
    else if !sections[0].JObj? then Err(ServerError(NoGet))
    else
      var sec := sections[0].fields;
      if !Truthy(GetOr(sec, "required", JBool(false))) then RequiredIds(sections[1..], variant)
      else
        var qs := IterForGet(GetOr(sec, "questions", JList([])));
        var here := if qs.Err? then Err(qs.error) else QuestionIds(qs.value, variant);
        if here.Err? then here
        else
          var rest := RequiredIds(sections[1..], variant);
          if rest.Err? then rest else Ok(here.value + rest.value)
  }

  /** Every id the single save requires, the bulk save requires too. */
  lemma {:induction false} BulkIdsCoverSingle(qs: seq<Json>)
    ensures QuestionIds(qs, Single).Ok? && QuestionIds(qs, Bulk).Ok? ==>
      QuestionIds(qs, Single).value <= QuestionIds(qs, Bulk).value
    ensures QuestionIds(qs, Bulk).Ok? ==> QuestionIds(qs, Single).Ok?
  {
    if qs != [] && qs[0].JObj? {
      BulkIdsCoverSingle(qs[1..]);
    }
  }

  lemma {:induction false} BulkRequiredCoverSingle(sections: seq<Json>)
    ensures RequiredIds(sections, Bulk).Ok? ==>
      RequiredIds(sections, Single).Ok? && RequiredIds(sections, Single).value <= RequiredIds(sections, Bulk).value
  {
    if sections != [] && sections[0].JObj? {
      BulkRequiredCoverSingle(sections[1..]);
      var qs := IterForGet(GetOr(sections[0].fields, "questions", JList([])));
      if qs.Ok? {
        BulkIdsCoverSingle(qs.value);
      }
    }
  }

  /** The sections a questionnaire lists under `key`: `.get(key, [])`, then walked. */
  function SectionsAt(root: Json): Result<seq<Json>> {
    if !root.JObj? then Err(ServerError(NoGet)) else IterForGet(GetOr(root.fields, "sections", JList([])))
  }

  /**
   * The progress sync after a single save: `data or` the document is the
   * root, and completion needs a non-empty required set that the answers
   * cover.  None when it raises (the service swallows the error and leaves
   * progress alone).
   */
  function SingleCompletion(doc: Json, answered: set<Json>): (r: Option<bool>)
    ensures r == Some(true) ==> exists x :: x in answered && Truthy(x)
  {
    if !doc.JObj? then None
    else
      var sections := SectionsAt(Or(GetField(doc.fields, "data"), doc));
      if sections.Err? then None
      else
        var req := RequiredIds(sections.value, Single);
        if req.Err? then None
        else
          var done := req.value != {} && req.value <= answered;
          if done then
            var x :| x in req.value;
            assert x in answered && Truthy(x);
            Some(true)
          else Some(false)
  }

  /** The progress sync after a bulk save: top-level sections only, and only the subset test. */
  function BulkCompletion(doc: Json, answered: set<Json>): Option<bool> {
    var sections := SectionsAt(doc);
    if sections.Err? then None
    else
      var req := RequiredIds(sections.value, Bulk);
      if req.Err? then None else Some(req.value <= answered)
  }

  /** How many sections `len(all_sections)` counts: the list's length, 0 for an empty string or dict. */
  function SectionCount(doc: Json): nat {
    var sections := SectionsAt(doc);
    if sections.Ok? then |sections.value| else 0
  }

  /** `mark_questionnaire_complete`'s test; its errors propagate. */
  function MarkCompletion(doc: Json, answered: set<Json>): Result<bool> {
    var sections := SectionsAt(doc);
    if sections.Err? then Err(sections.error)
    else
      var req := RequiredIds(sections.value, Mark);
      if req.Err? then Err(req.error) else Ok(req.value <= answered)
  }

  /** If the bulk test passes and requires something, the single test agrees on the same top-level sections. */
  lemma BulkNonEmptyImpliesSingle(doc: Json, answered: set<Json>)
    requires doc.JObj? && !Truthy(GetField(doc.fields, "data"))
    requires SectionsAt(doc).Ok? && RequiredIds(SectionsAt(doc).value, Single).Ok?
    requires RequiredIds(SectionsAt(doc).value, Single).value != {}
    ensures BulkCompletion(doc, answered) == Some(true) ==> SingleCompletion(doc, answered) == Some(true)
  {
    BulkRequiredCoverSingle(SectionsAt(doc).value);
  }

  /** More answers never undo a passed completion test. */
  lemma CompletionMonotone(doc: Json, answered: set<Json>, more: set<Json>)
    requires answered <= more
    ensures SingleCompletion(doc, answered) == Some(true) ==> SingleCompletion(doc, more) == Some(true)
    ensures BulkCompletion(doc, answered) == Some(true) ==> BulkCompletion(doc, more) == Some(true)
    ensures MarkCompletion(doc, answered) == Ok(true) ==> MarkCompletion(doc, more) == Ok(true)
  {
  }

  /** With no required section the variants disagree: the single save says incomplete, the others complete. */
  lemma NoRequiredSections()
    ensures SingleCompletion(JObj(map["sections" := JList([])]), {}) == Some(false)
    ensures BulkCompletion(JObj(map["sections" := JList([])]), {}) == Some(true)
    ensures MarkCompletion(JObj(map["sections" := JList([])]), {}) == Ok(true)
  {
  }

  /** A `data` wrapper is read by the single save and ignored by the bulk save. */
  lemma DataWrapperOnlySingle()
    ensures var sec := JObj(map["required" := JBool(true), "questions" := JList([JObj(map["id" := JStr("q1")])])]);
      var doc := JObj(map["data" := JObj(map["sections" := JList([sec])])]);
      SingleCompletion(doc, {}) == Some(false) && BulkCompletion(doc, {}) == Some(true)
  {
    var q := JObj(map["id" := JStr("q1")]);
    var sec := JObj(map["required" := JBool(true), "questions" := JList([q])]);
    var inner := JObj(map["sections" := JList([sec])]);
    assert [q][1..] == [];
    assert GetField(q.fields, "id") == JStr("q1") && Truthy(JStr("q1"));
    assert QuestionIds([q], Single) == Ok({JStr("q1")} + {});
    assert [sec][1..] == [];
    assert RequiredIds([sec], Single) == Ok({JStr("q1")});
  }

  /** A required question without an id blocks the bulk test and fails completion marking outright. */
  lemma MissingIdVariants(answered: set<Json>)
    requires forall x :: x in answered ==> x.JStr?
    ensures var sec := JObj(map["required" := JBool(true), "questions" := JList([JObj(map[])])]);
      var doc := JObj(map["sections" := JList([sec])]);
      BulkCompletion(doc, answered) == Some(false) && MarkCompletion(doc, answered).Err? &&
      SingleCompletion(doc, answered) == Some(false)
  {
    var q := JObj(map[]);
    var sec := JObj(map["required" := JBool(true), "questions" := JList([q])]);
    assert [q][1..] == [] && [sec][1..] == [];
    assert GetField(q.fields, "id") == JNull;
    assert QuestionIds([q], Bulk) == Ok({JNull} + {});
    assert RequiredIds([sec], Bulk) == Ok({JNull});
    assert QuestionIds([q], Single) == Ok({} + {});
    assert RequiredIds([sec], Single) == Ok({});
  }

  // ---------------------------------------------------------------
  // The store
  // ---------------------------------------------------------------

  /** What `mark_questionnaire_complete` returns: the generated output, or the incomplete message. */
  datatype MarkOutcome = Generated(chats: seq<ChatRow>, answers: seq<AnswerRow>) | Incomplete(message: string)

  const IncompleteMessage := "Progress saved but required sections incomplete."

  function UserChats(rows: seq<ChatRow>, u: int): (r: seq<ChatRow>)
    ensures forall i :: 0 <= i < |r| ==> r[i].userId == u && r[i] in rows
    ensures forall i :: 0 <= i < |rows| && rows[i].userId == u ==> rows[i] in r
  {
    if rows == [] then []
    else (if rows[0].userId == u then [rows[0]] else []) + UserChats(rows[1..], u)
  }

  function UserAnswers(rows: seq<AnswerRow>, u: int): (r: seq<AnswerRow>)
    ensures forall i :: 0 <= i < |r| ==> r[i].userId == u && r[i] in rows
    ensures forall i :: 0 <= i < |rows| && rows[i].userId == u ==> rows[i] in r
  {
    if rows == [] then []
    else (if rows[0].userId == u then [rows[0]] else []) + UserAnswers(rows[1..], u)
  }

  /** The three questionnaire tables and the operations that write them. */
  class ResponseStore {
    var chats: seq<ChatRow>
    var answers: seq<AnswerRow>
    var progress: map<int, Progress>

    /**
     * One chat row per (user, category). The answers table has no such
     * invariant: the bulk save as written can store a key twice.
     */
    predicate Valid()
      reads this
    {
      ChatKeysUnique(chats)
    }

    constructor ()
      ensures Valid() && chats == [] && answers == [] && progress == map[]
    {
      chats := [];
      answers := [];
      progress := map[];
    }

    /** `save_chat_response` */
    method SaveChatResponse(u: int, c: string, response: Json, now: int)
      requires Valid()
      modifies this
      ensures Valid()
      ensures chats == SaveChat(old(chats), u, c, response, now)
      ensures ChatOf(chats, u, c) == Some(response)
      ensures answers == old(answers) && progress == old(progress)
    {
      SaveChatKeepsKeysUnique(chats, u, c, response, now);
      SaveChatThenRead(chats, u, c, response, now, u, c);
      chats := SaveChat(chats, u, c, response, now);
    }

    /**
     * `save_questionnaire_response`: the upsert, then the progress sync,
     * which is skipped when the questionnaire cannot be read (`doc` None)
     * or the check raises.
     */
    method SaveQuestionnaireResponse(u: int, category: string, q: string, answer: Json, doc: Option<Json>, now: int)
      requires Valid()
      modifies this
      ensures Valid()
      ensures answers == SaveAnswer(old(answers), u, category, q, answer, now)
      ensures AnswerKeysUnique(old(answers)) ==> AnswerKeysUnique(answers)
      ensures AnsweredIds(answers, u) == AnsweredIds(old(answers), u) + {JStr(q)}
      ensures chats == old(chats)
      ensures progress == (
        if doc.Some? && SingleCompletion(doc.value, AnsweredIds(answers, u)).Some?
        then UpdateProgress(old(progress), u, None, SingleCompletion(doc.value, AnsweredIds(answers, u)), now)
        else old(progress))
    {
      if AnswerKeysUnique(answers) {
        SaveAnswerKeepsKeysUnique(answers, u, category, q, answer, now);
      }
      SaveAnswerAnswers(answers, u, category, q, answer, now);
      answers := SaveAnswer(answers, u, category, q, answer, now);
      if doc.Some? {
        var done := SingleCompletion(doc.value, AnsweredIds(answers, u));
        if done.Some? {
          progress := UpdateProgress(progress, u, None, done, now);
        }
      }
    }

    /**
     * `save_bulk_questionnaire_responses`: nothing for an empty list;
     * otherwise each item is looked up among the rows stored before the
     * batch and updated or inserted (`SaveAllAsWritten`), then progress is
     * synced for the first item's user.
     */
    method SaveBulk(items: seq<BulkItem>, doc: Option<Json>, now: int)
      requires Valid()
      modifies this
      ensures Valid()
      ensures answers == SaveAllAsWritten(old(answers), items, now)
      ensures ItemKeysDistinct(items) ==> answers == SaveAll(old(answers), items, now)
      ensures ItemKeysDistinct(items) && AnswerKeysUnique(old(answers)) ==> AnswerKeysUnique(answers)
      ensures chats == old(chats)
      ensures items == [] ==> progress == old(progress)
      ensures items != [] ==> (
        progress == if doc.Some? && BulkCompletion(doc.value, AnsweredIds(answers, items[0].userId)).Some?
          then UpdateProgress(old(progress), items[0].userId, None, BulkCompletion(doc.value, AnsweredIds(answers, items[0].userId)), now)
          else old(progress))
    {
      DistinctBatchUpserts(answers, items, now);
      if items == [] {
        return;
      }
      // `stored` is what each `.first()` sees; the whole batch is committed at once.
      var stored := answers;
      var rows := stored;
      var i := 0;
      while i < |items|
        invariant 0 <= i <= |items|
        invariant rows == SaveAllAsWritten(stored, items[..i], now)
      {
        assert items[..i + 1][..i] == items[..i];
        var it := items[i];
        var existing := FirstAnswer(stored, it.userId, it.questionId);
        if existing.Some? {
          var k := existing.value;
          rows := rows[k := rows[k].(answer := it.answer, timestamp := now)];
        } else {
          rows := rows + [AnswerRow(it.userId, it.category, it.questionId, it.answer, now)];
        }
        i := i + 1;
      }
      answers := rows;
      assert items[..i] == items;
      var first := items[0].userId;
      if doc.Some? {
        var done := BulkCompletion(doc.value, AnsweredIds(answers, first));
        if done.Some? {
          progress := UpdateProgress(progress, first, None, done, now);
        }
      }
    }

    /** `update_user_progress` */
    method UpdateUserProgress(u: int, tab: Option<int>, completed: Option<bool>, now: int) returns (p: Progress)
      requires Valid()
      modifies this
      ensures Valid()
      ensures progress == UpdateProgress(old(progress), u, tab, completed, now)
      ensures p == progress[u]
      ensures chats == old(chats) && answers == old(answers)
    {
      progress := UpdateProgress(progress, u, tab, completed, now);
      p := progress[u];
    }

    /**
     * `mark_questionnaire_complete`: a missing row is created with the
     * section count as its tab; an existing row gets only the flag; output
     * is produced only when complete.
     */
    method MarkComplete(u: int, doc: Json, now: int) returns (r: Result<MarkOutcome>)
      requires Valid()
      modifies this
      ensures Valid()
      ensures chats == old(chats) && answers == old(answers)
      ensures var done := MarkCompletion(doc, AnsweredIds(old(answers), u));
        && (done.Err? ==> r == Err(done.error) && progress == old(progress))
        && (done.Ok? && u !in old(progress) ==> progress == old(progress)[u := Progress(Some(SectionCount(doc)), done.value, now)])
        && (done.Ok? && u in old(progress) ==> progress == old(progress)[u := old(progress)[u].(isCompleted := done.value, savedAt := now)])
        && (done == Ok(true) ==> r == Ok(Generated(UserChats(chats, u), UserAnswers(answers, u))))
        && (done == Ok(false) ==> r == Ok(Incomplete(IncompleteMessage)))
    {
      var done := MarkCompletion(doc, AnsweredIds(answers, u));
      if done.Err? {
        return Err(done.error);
      }
      if u !in progress {
        progress := progress[u := Progress(Some(SectionCount(doc)), done.value, now)];
      } else {
        progress := progress[u := progress[u].(isCompleted := done.value, savedAt := now)];
      }
      if done.value {
        r := Ok(Generated(UserChats(chats, u), UserAnswers(answers, u)));
      } else {
        r := Ok(Incomplete(IncompleteMessage));
      }
    }
  }
}
