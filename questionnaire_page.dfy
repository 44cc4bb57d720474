/**
 * frontend/src/pages/Questionnaire.tsx: moving between questions and
 * sections, the progress bar, the multi-select toggle with its cap, and the
 * answers restored from the server.  A questionnaire is the number of
 * questions in each section with the section's `required` flag.
 */
module QuestionnairePage {
  import opened Wrappers
  import opened Json
  import opened Rounding
  import opened Ordering

  datatype Section = Section(questions: nat, required: bool)

  /** (activeSection, activeQuestion) */
  datatype Position = Position(section: int, question: int)

  /** A position naming an existing question. */
  predicate OnQuestion(sections: seq<Section>, p: Position) {
    0 <= p.section < |sections| && 0 <= p.question < sections[p.section].questions
  }

  /** What `handleNext` does. */
  datatype NextOutcome =
    | Blocked            // the error message is shown and nothing moves
    | Moved(to: Position)
    | Popup              // the completion popup opens; the indices stay
    | Crashed            // `questions[activeQuestion].id` of a missing question throws

  /** `handleNext`; `stored` is `responses[q.id]`, so `stored || ""` is the answer sent. */
  function Next(sections: seq<Section>, p: Position, stored: Option<string>): (r: NextOutcome)
    ensures !OnQuestion(sections, p) <==> r == Crashed
    ensures r == Blocked <==>
      (OnQuestion(sections, p) && sections[p.section].required && (stored.None? || stored == Some("")))
    ensures r.Moved? ==> (OnQuestion(sections, p) &&
      if p.question < sections[p.section].questions - 1 then r.to == Position(p.section, p.question + 1)
      else p.section < |sections| - 1 && r.to == Position(p.section + 1, 0))
    ensures r == Popup <==> (OnQuestion(sections, p) && !(sections[p.section].required && (stored.None? || stored == Some("")))
      && p.question == sections[p.section].questions - 1 && p.section == |sections| - 1)
  {
    if !OnQuestion(sections, p) then Crashed
    else
      var answer := if stored.Some? then stored.value else "";
      if answer == "" && sections[p.section].required then Blocked
      else if p.question < sections[p.section].questions - 1 then Moved(Position(p.section, p.question + 1))
      else if p.section < |sections| - 1 then Moved(Position(p.section + 1, 0))
      else Popup
  }

  /** What `handleBack` does. */
  datatype BackOutcome = Stepped(to: Position) | LeftPage

  /** `handleBack`: one question back, else the last question of the previous section, else off to the journey page. */
  function Back(sections: seq<Section>, p: Position): (r: BackOutcome)
    ensures p.question > 0 ==> r == Stepped(Position(p.section, p.question - 1))
    ensures p.question <= 0 && 0 < p.section <= |sections| ==>
      r == Stepped(Position(p.section - 1, sections[p.section - 1].questions - 1))
    ensures p.question <= 0 && p.section <= 0 ==> r == LeftPage
  {
    if p.question > 0 then Stepped(Position(p.section, p.question - 1))
    else if p.section > 0 then
      var prev := p.section - 1;
      if prev < |sections| then Stepped(Position(prev, sections[prev].questions - 1))
      else Stepped(Position(prev, 0))   // `sections[prev]` undefined: the page throws before using it
    else LeftPage
  }

  predicate NoEmptySection(sections: seq<Section>) {
    forall i :: 0 <= i < |sections| ==> sections[i].questions > 0
  }

  /** With no empty section, moving on from a question lands on a question. */
  lemma NextStaysOnQuestions(sections: seq<Section>, p: Position, stored: Option<string>)
    requires NoEmptySection(sections) && OnQuestion(sections, p)
    ensures Next(sections, p, stored).Moved? ==> OnQuestion(sections, Next(sections, p, stored).to)
  {
  }

  /** With no empty section, going back from a question lands on a question or leaves the page. */
  lemma BackStaysOnQuestions(sections: seq<Section>, p: Position)
    requires NoEmptySection(sections) && OnQuestion(sections, p)
    ensures Back(sections, p).Stepped? ==> OnQuestion(sections, Back(sections, p).to)
    ensures Back(sections, p) == LeftPage <==> p == Position(0, 0)
  {
  }

  /** Back undoes Next. */
  lemma BackUndoesNext(sections: seq<Section>, p: Position, stored: Option<string>)
    requires NoEmptySection(sections) && OnQuestion(sections, p)
    requires Next(sections, p, stored).Moved?
    ensures Back(sections, Next(sections, p, stored).to) == Stepped(p)
  {
  }

  /** Next undoes Back, for an answered question. */
  lemma NextUndoesBack(sections: seq<Section>, p: Position)
    requires NoEmptySection(sections) && OnQuestion(sections, p)
    requires Back(sections, p).Stepped?
    ensures Next(sections, Back(sections, p).to, Some("answer")) == Moved(p)
  {
  }

  /** `Math.round(((activeQuestion + 1) / totalInSection) * 100)`; None when dividing by zero. */
  function ProgressPct(question: int, total: nat): (r: Option<int>)
    ensures total == 0 <==> r.None?
    ensures r.Some? && 0 <= question < total ==> 0 <= r.value <= 100
    ensures r.Some? && question == total - 1 ==> r.value == 100
    ensures total > 0 ==> r == Some(MathRound((question + 1) as real / total as real * 100.0))
  {
    if total == 0 then None
    else
      var x := (question + 1) as real / total as real * 100.0;
      assert 0 <= question < total ==> 0.0 < x <= 100.0 by {
        if 0 <= question < total {
          assert (question + 1) as real <= total as real;
          assert (question + 1) as real / total as real <= 1.0;
        }
      }
      assert question == total - 1 ==> x == 100.0 by {
        if question == total - 1 {
          assert (question + 1) as real / total as real == 1.0;
        }
      }
      Some(MathRound(x))
  }

  /** Later questions never show less progress. */
  lemma ProgressMonotone(a: int, b: int, total: nat)
    requires total > 0 && a <= b
    ensures ProgressPct(a, total).value <= ProgressPct(b, total).value
  {
    var xa := (a + 1) as real / total as real;
    var xb := (b + 1) as real / total as real;
    assert xa <= xb;
    assert xa * 100.0 <= xb * 100.0;
  }

  // ---------------------------------------------------------------
  // Multi-select
  // ---------------------------------------------------------------

  datatype Cap = Limit(n: int) | Unlimited

  /** `q.max_select || 5` for the work-values grid. */
  function WorkValuesCap(maxSelect: Option<int>): Cap {
    if maxSelect.Some? && maxSelect.value != 0 then Limit(maxSelect.value) else Limit(5)
  }

  /** `q.max_select || Infinity` for other multiple-choice questions. */
  function OtherCap(maxSelect: Option<int>): Cap {
    if maxSelect.Some? && maxSelect.value != 0 then Limit(maxSelect.value) else Unlimited
  }

  predicate Full(selected: seq<Json>, cap: Cap) { cap.Limit? && |selected| >= cap.n }

  function IsNot(x: Json): Json -> bool { (o: Json) => o != x }

  /**
   * `handleOptionClick` for a multiple-choice question: `current` is the
   * parsed stored answer (an array, or anything else for none).  None when
   * the click is ignored.
   */
  function Toggle(current: Json, opt: string, cap: Cap): (r: Option<seq<Json>>)
    ensures var prev := if current.JList? then current.items else [];
      && (JStr(opt) in prev ==> r == Some(Filter(prev, IsNot(JStr(opt)))) && JStr(opt) !in r.value)
      && (JStr(opt) !in prev && Full(prev, cap) ==> r.None?)
      && (JStr(opt) !in prev && !Full(prev, cap) ==> r == Some(prev + [JStr(opt)]))
  {
    var prev := if current.JList? then current.items else [];
    if JStr(opt) in prev then Some(Filter(prev, IsNot(JStr(opt))))
    else if Full(prev, cap) then None
    else Some(prev + [JStr(opt)])
  }

  /** A selection within the cap stays within it. */
  lemma ToggleKeepsCap(current: Json, opt: string, n: int)
    requires current.JList? ==> |current.items| <= n
    requires 0 <= n
    ensures Toggle(current, opt, Limit(n)).Some? ==> |Toggle(current, opt, Limit(n)).value| <= n
  {
  }

  /** Clicking a new option twice gives back the selection it started from. */
  lemma ToggleTwice(items: seq<Json>, opt: string, cap: Cap)
    requires JStr(opt) !in items && !Full(items, cap)
    ensures var once := Toggle(JList(items), opt, cap);
      once.Some? && Toggle(JList(once.value), opt, cap) == Some(items)
  {
    var x := JStr(opt);
    FilterAppend(items, [x], IsNot(x));
    FilterAll(items, IsNot(x));
    assert Filter([x], IsNot(x)) == [];
    assert x in items + [x];
    assert items + [] == items;
  }

  // ---------------------------------------------------------------
  // Restoring saved answers
  // ---------------------------------------------------------------

  datatype SavedAnswer = SavedAnswer(questionId: string, answer: Json)

  /** `typeof r.answer === "string" ? r.answer : JSON.stringify(r.answer)` */
  function AnswerText(answer: Json, stringify: Json -> string): string {
    if answer.JStr? then answer.s else stringify(answer)
  }

  /** The `restored` object after the `forEach` has visited `rows`. */
  function Restored(rows: seq<SavedAnswer>, stringify: Json -> string): map<string, string> {
    if rows == [] then map[]
    else
      var last := rows[|rows| - 1];
      Restored(rows[..|rows| - 1], stringify)[last.questionId := AnswerText(last.answer, stringify)]
  }

  /** Every restored key is a saved question, and it holds that question's last saved answer. */
  lemma {:induction false} RestoredKeepsLast(rows: seq<SavedAnswer>, stringify: Json -> string, i: nat)
    requires i < |rows|
    requires forall j :: i < j < |rows| ==> rows[j].questionId != rows[i].questionId
    ensures rows[i].questionId in Restored(rows, stringify)
    ensures Restored(rows, stringify)[rows[i].questionId] == AnswerText(rows[i].answer, stringify)
    decreases |rows|
  {
    if i < |rows| - 1 {
      RestoredKeepsLast(rows[..|rows| - 1], stringify, i);
    }
  }

  /** Only saved questions are restored. */
  lemma {:induction false} RestoredKeys(rows: seq<SavedAnswer>, stringify: Json -> string, k: string)
    ensures k in Restored(rows, stringify) <==> exists i :: 0 <= i < |rows| && rows[i].questionId == k
    decreases |rows|
  {
    if rows != [] {
      var init := rows[..|rows| - 1];
      RestoredKeys(init, stringify, k);
      if exists i :: 0 <= i < |init| && init[i].questionId == k {
        var i :| 0 <= i < |init| && init[i].questionId == k;
        assert rows[i].questionId == k;
      }
      if exists i :: 0 <= i < |rows| && rows[i].questionId == k {
        var i :| 0 <= i < |rows| && rows[i].questionId == k;
        if i < |init| {
          assert init[i].questionId == k;
        }
      }
    }
  }

  /** The `forEach` over the saved rows. */
  method RestoreResponses(rows: seq<SavedAnswer>, stringify: Json -> string) returns (restored: map<string, string>)
    ensures restored == Restored(rows, stringify)
  {
    restored := map[];
    for i := 0 to |rows|
      invariant restored == Restored(rows[..i], stringify)
    {
      assert rows[..i + 1][..i] == rows[..i];
      restored := restored[rows[i].questionId := AnswerText(rows[i].answer, stringify)];
    }
    assert rows[..|rows|] == rows;
  }
}
