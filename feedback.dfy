/**
 * backend/app/services/ai/feedback_service.py: like/dislike feedback kept
 * one row per (user, message), the preference patterns read from a user's
 * newest feedback, and the overall counts.
 */
module Feedback {
  import opened Wrappers
  import opened Text
  import opened Ordering
  import opened Rounding

  datatype FeedbackRow = FeedbackRow(userId: int, sessionId: string, messageId: int, feedbackType: string,
                                     userQuestion: Option<string>, assistantResponse: Option<string>,
                                     createdAt: int)

  function CreatedAt(f: FeedbackRow): int { f.createdAt }

  /** `.filter(user_id == u, message_id == m).first()` */
  function FirstFeedback(rows: seq<FeedbackRow>, u: int, m: int): (r: Option<nat>)
    ensures r.Some? ==> r.value < |rows| && rows[r.value].userId == u && rows[r.value].messageId == m
    ensures r.Some? ==> forall j :: 0 <= j < r.value ==> !(rows[j].userId == u && rows[j].messageId == m)
    ensures r.None? ==> forall j :: 0 <= j < |rows| ==> !(rows[j].userId == u && rows[j].messageId == m)
  {
    if rows == [] then None
    else if rows[0].userId == u && rows[0].messageId == m then Some(0)
    else
      var rest := FirstFeedback(rows[1..], u, m);
      if rest.None? then None else Some(rest.value + 1)
  }

  predicate KeysUnique(rows: seq<FeedbackRow>) {
    forall i, j :: 0 <= i < j < |rows| ==> (rows[i].userId, rows[i].messageId) != (rows[j].userId, rows[j].messageId)
  }

  /**
   * `save_feedback`: an existing row gets the new type and time only (its
   * session, question and response stay); otherwise a row is inserted.
   */
  function SaveFeedback(rows: seq<FeedbackRow>, u: int, session: string, m: int, feedbackType: string,
                        question: Option<string>, response: Option<string>, now: int): (r: seq<FeedbackRow>)
    ensures FirstFeedback(rows, u, m).Some? ==> var i := FirstFeedback(rows, u, m).value;
      && |r| == |rows|
      && r[i] == rows[i].(feedbackType := feedbackType, createdAt := now)
      && (forall k :: 0 <= k < |rows| && k != i ==> r[k] == rows[k])
    ensures FirstFeedback(rows, u, m).None? ==>
      && |r| == |rows| + 1 && r[..|rows|] == rows
      && r[|rows|] == FeedbackRow(u, session, m, feedbackType, question, response, now)
  {
    var i := FirstFeedback(rows, u, m);
    if i.Some? then rows[i.value := rows[i.value].(feedbackType := feedbackType, createdAt := now)]
    else rows + [FeedbackRow(u, session, m, feedbackType, question, response, now)]
  }

  /** The stored row for (u, m), as the first match reads it. */
  function FeedbackOf(rows: seq<FeedbackRow>, u: int, m: int): Option<FeedbackRow> {
    var i := FirstFeedback(rows, u, m);
    if i.None? then None else Some(rows[i.value])
  }

  /** A save never duplicates a (user, message) pair, and reading back gives the new type. */
  lemma SaveFeedbackUpserts(rows: seq<FeedbackRow>, u: int, session: string, m: int, feedbackType: string,
                            question: Option<string>, response: Option<string>, now: int)
    requires KeysUnique(rows)
    ensures var r := SaveFeedback(rows, u, session, m, feedbackType, question, response, now);
      KeysUnique(r) &&
      |r| == |rows| + (if FirstFeedback(rows, u, m).None? then 1 else 0) &&
      FeedbackOf(r, u, m).Some? && FeedbackOf(r, u, m).value.feedbackType == feedbackType &&
      FeedbackOf(r, u, m).value.createdAt == now &&
      (FeedbackOf(rows, u, m).Some? ==>
        FeedbackOf(r, u, m).value == FeedbackOf(rows, u, m).value.(feedbackType := feedbackType, createdAt := now))
  {
    var r := SaveFeedback(rows, u, session, m, feedbackType, question, response, now);
    var i := FirstFeedback(rows, u, m);
    var k := if i.Some? then i.value else |rows|;
    assert r[k].userId == u && r[k].messageId == m;
    assert forall j :: 0 <= j < k ==> r[j] == rows[j];
  }

  /** The feedback table. */
  class FeedbackTable {
    var rows: seq<FeedbackRow>

    predicate Valid()
      reads this
    {
      KeysUnique(rows)
    }

    constructor ()
      ensures Valid() && rows == []
    {
      rows := [];
    }

    /** `save_feedback`, returning the row as stored. */
    method Save(u: int, session: string, m: int, feedbackType: string,
                question: Option<string>, response: Option<string>, now: int) returns (saved: FeedbackRow)
      requires Valid()
      modifies this
      ensures Valid()
      ensures rows == SaveFeedback(old(rows), u, session, m, feedbackType, question, response, now)
      ensures FeedbackOf(rows, u, m) == Some(saved) && saved.feedbackType == feedbackType
    {
      SaveFeedbackUpserts(rows, u, session, m, feedbackType, question, response, now);
      rows := SaveFeedback(rows, u, session, m, feedbackType, question, response, now);
      saved := FeedbackOf(rows, u, m).value;
    }
  }

  // ---------------------------------------------------------------
  // get_user_feedback_patterns
  // ---------------------------------------------------------------

  datatype Example = Example(question: string, response: string)

  /** The three summaries of the like/dislike balance. */
  datatype Style = Detailed | Concise | Balanced

  /** More than twice as many likes reads as detailed; more than twice as many dislikes as concise. */
  function Preference(likes: nat, dislikes: nat): (s: Style)
    ensures s == Detailed <==> likes > 2 * dislikes
    ensures s == Concise <==> dislikes > 2 * likes
  {
    if likes > dislikes * 2 then Detailed
    else if dislikes > likes * 2 then Concise
    else Balanced
  }

  /** Swapping the counts swaps detailed and concise. */
  lemma PreferenceSymmetric(likes: nat, dislikes: nat)
    ensures Preference(likes, dislikes) == Detailed <==> Preference(dislikes, likes) == Concise
    ensures Preference(likes, dislikes) == Balanced <==> Preference(dislikes, likes) == Balanced
  {
  }

  function StyleText(s: Style): string {
    match s
    case Detailed => "User generally appreciates detailed, comprehensive responses. "
    case Concise => "User prefers concise, direct responses. "
    case Balanced => "User provides balanced feedback on different response styles. "
  }

  /** `f.user_question or "N/A"` and the response cut to 200 characters plus "...", or "N/A". */
  function ExampleOf(f: FeedbackRow): (e: Example)
    ensures |e.response| <= 203 && e.response != ""
    ensures f.assistantResponse.None? || f.assistantResponse == Some("") ==> e.response == "N/A"
  {
    Example(
      if f.userQuestion.None? || f.userQuestion.value == "" then "N/A" else f.userQuestion.value,
      if f.assistantResponse.None? || f.assistantResponse.value == "" then "N/A"
      else if |f.assistantResponse.value| > 200 then Ellipsize(f.assistantResponse.value, 200)
      else f.assistantResponse.value)
  }

  function Examples(fs: seq<FeedbackRow>): (r: seq<Example>)
    ensures |r| == |fs|
    ensures forall i :: 0 <= i < |fs| ==> r[i] == ExampleOf(fs[i])
  {
    if fs == [] then [] else [ExampleOf(fs[0])] + Examples(fs[1..])
  }

  datatype Patterns = Patterns(hasFeedback: bool, liked: seq<Example>, disliked: seq<Example>, summary: string,
                               counts: Option<(nat, nat)>)

  const NoPatterns := Patterns(false, [], [], "", None)

  function IsUser(u: int): FeedbackRow -> bool { (f: FeedbackRow) => f.userId == u }
  function IsType(t: string): FeedbackRow -> bool { (f: FeedbackRow) => f.feedbackType == t }

  /** The user's feedback, newest first, at most `limit` rows. */
  function RecentFeedback(rows: seq<FeedbackRow>, u: int, limit: nat): seq<FeedbackRow> {
    Prefix(SortDesc(Filter(rows, IsUser(u)), CreatedAt), limit)
  }

  /** The opening sentence of the preference summary. */
  function CountText(likes: nat, dislikes: nat): string {
    "User has provided " + NatToString(likes) + " positive and " + NatToString(dislikes)
      + " negative feedback instances. "
  }

  /** `get_user_feedback_patterns` */
  function FeedbackPatterns(rows: seq<FeedbackRow>, u: int, limit: nat): (p: Patterns)
    ensures RecentFeedback(rows, u, limit) == [] ==> p == NoPatterns
    ensures p.hasFeedback ==> p.counts.Some? && p.counts.value.0 + p.counts.value.1 <= limit
    ensures |p.liked| <= 5 && |p.disliked| <= 5
    ensures RecentFeedback(rows, u, limit) != [] ==>
      var recent := RecentFeedback(rows, u, limit);
      var liked := Filter(recent, IsType("like"));
      var disliked := Filter(recent, IsType("dislike"));
      && p.hasFeedback
      && p.counts == Some((|liked|, |disliked|))
      && p.liked == Examples(Prefix(liked, 5)) && p.disliked == Examples(Prefix(disliked, 5))
      && (|liked| + |disliked| > 0 ==> p.summary == CountText(|liked|, |disliked|) + StyleText(Preference(|liked|, |disliked|)))
      && (|liked| + |disliked| == 0 ==> p.summary == CountText(0, 0))
  {
    var recent := RecentFeedback(rows, u, limit);
    if recent == [] then NoPatterns
    else
      var liked := Filter(recent, IsType("like"));
      var disliked := Filter(recent, IsType("dislike"));
      DisjointCounts(recent, IsType("like"), IsType("dislike"));
      var likes := |liked|;
      var dislikes := |disliked|;
      var summary := CountText(likes, dislikes);
      Patterns(true, Examples(Prefix(liked, 5)), Examples(Prefix(disliked, 5)),
               summary + (if likes > 0 || dislikes > 0 then StyleText(Preference(likes, dislikes)) else ""),
               Some((likes, dislikes)))
  }

  /** The examples come from the user's own feedback of that type. */
  lemma ExamplesFromOwnFeedback(rows: seq<FeedbackRow>, u: int, limit: nat, i: nat)
    requires FeedbackPatterns(rows, u, limit).hasFeedback
    requires i < |FeedbackPatterns(rows, u, limit).liked|
    ensures exists f :: (f in rows && f.userId == u && f.feedbackType == "like" &&
      FeedbackPatterns(rows, u, limit).liked[i] == ExampleOf(f))
  {
    var recent := RecentFeedback(rows, u, limit);
    var sorted := SortDesc(Filter(rows, IsUser(u)), CreatedAt);
    var liked := Filter(recent, IsType("like"));
    var f := Prefix(liked, 5)[i];
    assert f in liked;
    assert f in recent;
    assert f in multiset(sorted);
    assert f in Filter(rows, IsUser(u));
  }

  /** The examples are the newest of the user's feedback: nothing older than the cut-off is used. */
  lemma RecentIsNewest(rows: seq<FeedbackRow>, u: int, limit: nat)
    ensures var recent := RecentFeedback(rows, u, limit);
      NonIncreasing(recent, CreatedAt) && |recent| <= limit &&
      forall f :: f in recent ==> f in rows && f.userId == u
  {
    var sorted := SortDesc(Filter(rows, IsUser(u)), CreatedAt);
    SortDescSorted(Filter(rows, IsUser(u)), CreatedAt);
    var recent := Prefix(sorted, limit);
    forall f | f in recent ensures f in rows && f.userId == u {
      assert f in multiset(sorted);
    }
  }

  // ---------------------------------------------------------------
  // get_feedback_stats
  // ---------------------------------------------------------------

  datatype Stats = Stats(total: nat, likes: nat, dislikes: nat, satisfactionRate: real)

  /** `likes / total * 100`, or 0 when there is no feedback. */
  function SatisfactionRate(likes: nat, total: nat): (r: real)
    requires likes <= total
    ensures 0.0 <= r <= 100.0
    ensures total == 0 ==> r == 0.0
    ensures total > 0 ==> r * total as real == likes as real * 100.0
  {
    if total == 0 then 0.0
    else
      var q := likes as real / total as real;
      assert q * total as real == likes as real;
      UnitRatio(likes as real, total as real);
      q * 100.0
  }

  /** `get_feedback_stats`: counts over the user's rows; the rate is 0 with no feedback. */
  function FeedbackStats(rows: seq<FeedbackRow>, u: int): (s: Stats)
    ensures s.likes + s.dislikes <= s.total
    ensures s.satisfactionRate == SatisfactionRate(s.likes, s.total)
    ensures s.total == |Filter(rows, IsUser(u))|
  {
    var mine := Filter(rows, IsUser(u));
    var likes := Count(mine, IsType("like"));
    var dislikes := Count(mine, IsType("dislike"));
    DisjointCounts(mine, IsType("like"), IsType("dislike"));
    var total := |mine|;
    Stats(total, likes, dislikes, SatisfactionRate(likes, total))
  }
}
