/**
 * backend/app/services/ai/chat_history_service.py: the coach's stored
 * messages, read back as the recent window, per-session previews, a session
 * summary, per-user statistics and exports.  Timestamps are seconds.
 */
module ChatHistory {
  import opened Wrappers
  import opened Text
  import opened Ordering

  datatype Message = Message(id: int, userId: int, sessionId: string, role: string, message: string, timestamp: nat)

  function Ts(m: Message): int { m.timestamp }

  function InSession(u: int, s: string): Message -> bool { (m: Message) => m.userId == u && m.sessionId == s }
  function OfUser(u: int): Message -> bool { (m: Message) => m.userId == u }
  function HasRole(role: string): Message -> bool { (m: Message) => m.role == role }

  /** The session's messages in table order. */
  function SessionRows(rows: seq<Message>, u: int, s: string): seq<Message> { Filter(rows, InSession(u, s)) }

  /**
   * `get_recent_messages`: the newest `limit` messages of the session,
   * returned oldest first, so the window is in time order, holds
   * min(limit, session size) messages and only the session's own.
   */
  function RecentMessages(rows: seq<Message>, u: int, s: string, limit: nat): (r: seq<Message>)
    ensures NonDecreasing(r, Ts)
    ensures var n := |SessionRows(rows, u, s)|; |r| == if n < limit then n else limit
    ensures forall m :: m in r ==> m in rows && m.userId == u && m.sessionId == s
  {
    var all := SessionRows(rows, u, s);
    var window := Prefix(SortDesc(all, Ts), limit);
    SortDescSorted(all, Ts);
    ReverseFlipsOrder(window, Ts);
    ReverseMembers(window);
    TopOfSorted(all, Ts, limit);
    Reverse(window)
  }

  /** A session message left out of the window is no newer than any message kept. */
  lemma RecentNewest(rows: seq<Message>, u: int, s: string, limit: nat, m: Message, x: Message)
    requires m in SessionRows(rows, u, s) && m !in RecentMessages(rows, u, s, limit)
    requires x in RecentMessages(rows, u, s, limit)
    ensures m.timestamp <= x.timestamp
  {
    var all := SessionRows(rows, u, s);
    ReverseMembers(Prefix(SortDesc(all, Ts), limit));
    TopOfSorted(all, Ts, limit);
    assert Ts(m) <= Ts(x);
  }

  /** `get_session_messages`: every message of the session, each once, in time order. */
  function SessionMessages(rows: seq<Message>, u: int, s: string): (r: seq<Message>)
    ensures NonDecreasing(r, Ts)
    ensures multiset(r) == multiset(SessionRows(rows, u, s))
    ensures forall m :: m in r <==> m in rows && m.userId == u && m.sessionId == s
  {
    var all := SessionRows(rows, u, s);
    SortAscSorted(all, Ts);
    var r := SortAsc(all, Ts);
    forall m | m in rows && m.userId == u && m.sessionId == s ensures m in r {
      assert InSession(u, s)(m);
      assert m in Filter(rows, InSession(u, s));
      assert m in multiset(all);
    }
    assert forall m :: m in r ==> m in multiset(all);
    r
  }

  /** The user's distinct session ids, in order of first appearance. */
  function DistinctSessions(rows: seq<Message>, u: int, seen: set<string>): (r: seq<string>)
    ensures forall i, j :: 0 <= i < j < |r| ==> r[i] != r[j]
    ensures forall x :: x in r <==> x !in seen && exists m :: m in rows && m.userId == u && m.sessionId == x
  {
    if rows == [] then []
    else if rows[0].userId == u && rows[0].sessionId !in seen then
      [rows[0].sessionId] + DistinctSessions(rows[1..], u, seen + {rows[0].sessionId})
    else DistinctSessions(rows[1..], u, seen)
  }

  /** `get_user_sessions` */
  function UserSessions(rows: seq<Message>, u: int): (r: set<string>)
    ensures forall i :: 0 <= i < |rows| && rows[i].userId == u ==> rows[i].sessionId in r
    ensures forall x :: x in r ==> exists i :: 0 <= i < |rows| && rows[i].userId == u && rows[i].sessionId == x
  {
    set m | m in rows && m.userId == u :: m.sessionId
  }

  lemma DistinctSessionsCover(rows: seq<Message>, u: int)
    ensures forall x :: x in DistinctSessions(rows, u, {}) <==> x in UserSessions(rows, u)
  {
  }

  function MinTs(ms: seq<Message>): (t: nat)
    requires ms != []
    ensures forall m :: m in ms ==> t <= m.timestamp
    ensures exists m :: m in ms && m.timestamp == t
  {
    if |ms| == 1 then ms[0].timestamp
    else
      var rest := MinTs(ms[1..]);
      if ms[0].timestamp <= rest then ms[0].timestamp else rest
  }

  function MaxTs(ms: seq<Message>): (t: nat)
    requires ms != []
    ensures forall m :: m in ms ==> m.timestamp <= t
    ensures exists m :: m in ms && m.timestamp == t
  {
    if |ms| == 1 then ms[0].timestamp
    else
      var rest := MaxTs(ms[1..]);
      if ms[0].timestamp >= rest then ms[0].timestamp else rest
  }

  // ---------------------------------------------------------------
  // get_user_sessions_with_preview
  // ---------------------------------------------------------------

  datatype Preview = Preview(sessionId: string, lastMessage: string, lastTimestamp: Option<nat>,
                             createdAt: Option<nat>, messageCount: nat)

  /** The sort key `x['last_timestamp'] or ''`: a missing time sorts after every time. */
  function LastKey(p: Preview): int { if p.lastTimestamp.Some? then p.lastTimestamp.value else -1 }

  /** One session's preview: count, first and last time, and the newest message cut to 100 characters. */
  function PreviewOf(rows: seq<Message>, u: int, s: string): (p: Preview)
    ensures p.sessionId == s && p.messageCount == |SessionRows(rows, u, s)|
    ensures |p.lastMessage| <= 103
    ensures p.messageCount > 0 ==> (p.lastTimestamp.Some? && p.createdAt.Some? &&
      p.createdAt.value <= p.lastTimestamp.value)
  {
    var msgs := SessionRows(rows, u, s);
    if msgs == [] then Preview(s, "", None, None, 0)
    else
      assert MinTs(msgs) <= msgs[0].timestamp <= MaxTs(msgs);
      var newest := SortDesc(msgs, Ts)[0];
      var text := if |newest.message| > 100 then Ellipsize(newest.message, 100) else newest.message;
      Preview(s, text, Some(MaxTs(msgs)), Some(MinTs(msgs)), |msgs|)
  }

  function PreviewsOf(rows: seq<Message>, u: int, sessions: seq<string>): (r: seq<Preview>)
    ensures |r| == |sessions|
    ensures forall i :: 0 <= i < |sessions| ==> r[i] == PreviewOf(rows, u, sessions[i])
  {
    if sessions == [] then []
    else
      var front := PreviewsOf(rows, u, sessions[..|sessions| - 1]);
      var r := front + [PreviewOf(rows, u, sessions[|sessions| - 1])];
      assert forall i :: 0 <= i < |sessions| - 1 ==> r[i] == front[i];
      r
  }

  /** `get_user_sessions_with_preview`, specified. */
  function SessionPreviews(rows: seq<Message>, u: int): seq<Preview> {
    SortDesc(PreviewsOf(rows, u, DistinctSessions(rows, u, {})), LastKey)
  }

  /** The previews are newest first, one per session. */
  lemma PreviewsSorted(rows: seq<Message>, u: int)
    ensures NonIncreasing(SessionPreviews(rows, u), LastKey)
    ensures |SessionPreviews(rows, u)| == |UserSessions(rows, u)|
  {
    SortDescSorted(PreviewsOf(rows, u, DistinctSessions(rows, u, {})), LastKey);
    SessionCount(rows, u);
  }

  /** One session id per session of the user. */
  lemma SessionCount(rows: seq<Message>, u: int)
    ensures |DistinctSessions(rows, u, {})| == |UserSessions(rows, u)|
  {
    var sessions := DistinctSessions(rows, u, {});
    DistinctSessionsCover(rows, u);
    DistinctCard(sessions);
    assert (set x | x in sessions) == UserSessions(rows, u);
  }

  /** Each preview is of one of the user's sessions, non-empty, with a short last message and ordered times. */
  lemma PreviewEntries(rows: seq<Message>, u: int, p: Preview)
    requires p in SessionPreviews(rows, u)
    ensures p.sessionId in UserSessions(rows, u) && p.messageCount > 0 && |p.lastMessage| <= 103
    ensures p.lastTimestamp.Some? && p.createdAt.Some? && p.createdAt.value <= p.lastTimestamp.value
  {
    var sessions := DistinctSessions(rows, u, {});
    var ps := PreviewsOf(rows, u, sessions);
    var sorted := SortDesc(ps, LastKey);
    assert p in multiset(sorted);
    assert multiset(sorted) == multiset(ps);
    assert p in ps;
    var i :| 0 <= i < |ps| && ps[i] == p;
    assert p == PreviewOf(rows, u, sessions[i]);
    SessionHasRows(rows, u, sessions[i]);
  }

  /** A session id listed for the user has at least one of the user's messages. */
  lemma SessionHasRows(rows: seq<Message>, u: int, s: string)
    requires s in DistinctSessions(rows, u, {})
    ensures s in UserSessions(rows, u) && SessionRows(rows, u, s) != []
  {
    var m :| m in rows && m.userId == u && m.sessionId == s;
    assert InSession(u, s)(m);
    assert m in SessionRows(rows, u, s);
  }

  /** A list without repeats has as many elements as its set. */
  lemma {:induction false} DistinctCard(xs: seq<string>)
    requires forall i, j :: 0 <= i < j < |xs| ==> xs[i] != xs[j]
    ensures |set x | x in xs| == |xs|
  {
    if xs != [] {
      var rest := xs[1..];
      DistinctCard(rest);
      assert (set x | x in xs) == (set x | x in rest) + {xs[0]};
      assert forall k :: 0 <= k < |rest| ==> rest[k] == xs[k + 1];
    }
  }

  /** The preview loop: one entry per session, then the sort by last time. */
  method CollectPreviews(rows: seq<Message>, u: int) returns (result: seq<Preview>)
    ensures result == SessionPreviews(rows, u)
  {
    var sessions := DistinctSessions(rows, u, {});
    result := [];
    var i := 0;
    while i < |sessions|
      invariant 0 <= i <= |sessions|
      invariant result == PreviewsOf(rows, u, sessions[..i])
    {
      PreviewsStep(rows, u, sessions, i);
      result := result + [PreviewOf(rows, u, sessions[i])];
      i := i + 1;
    }
    assert sessions[..i] == sessions;
    result := SortDesc(result, LastKey);
  }

  lemma PreviewsStep(rows: seq<Message>, u: int, sessions: seq<string>, i: nat)
    requires i < |sessions|
    ensures PreviewsOf(rows, u, sessions[..i + 1]) == PreviewsOf(rows, u, sessions[..i]) + [PreviewOf(rows, u, sessions[i])]
  {
    assert sessions[..i + 1][..i] == sessions[..i];
  }

  // ---------------------------------------------------------------
  // get_session_summary, get_user_stats
  // ---------------------------------------------------------------

  datatype Summary = Summary(sessionId: string, messageCount: nat, createdAt: nat, lastUpdated: nat,
                             userQuestions: nat, aiResponses: nat)

  /**
   * `get_session_summary`: None without messages; the first and last times
   * are those of the first and last rows as the unordered query returns
   * them (here, table order).
   */
  function SessionSummary(rows: seq<Message>, u: int, s: string): (r: Option<Summary>)
    ensures r.None? <==> SessionRows(rows, u, s) == []
    ensures r.Some? ==> r.value.userQuestions + r.value.aiResponses <= r.value.messageCount
    ensures r.Some? ==> r.value.messageCount == |SessionRows(rows, u, s)|
  {
    var msgs := SessionRows(rows, u, s);
    if msgs == [] then None
    else
      DisjointCounts(msgs, HasRole("user"), HasRole("assistant"));
      Some(Summary(s, |msgs|, msgs[0].timestamp, msgs[|msgs| - 1].timestamp,
                   Count(msgs, HasRole("user")), Count(msgs, HasRole("assistant"))))
  }

  datatype UserStats = UserStats(totalSessions: nat, totalMessages: nat, userQuestions: nat, aiResponses: nat,
                                 firstChat: Option<nat>, lastChat: Option<nat>)

  /** `get_user_stats` */
  function Stats(rows: seq<Message>, u: int): (r: UserStats)
    ensures Filter(rows, OfUser(u)) == [] ==> r == UserStats(0, 0, 0, 0, None, None)
    ensures r.totalSessions == |UserSessions(rows, u)|
    ensures r.totalMessages == |Filter(rows, OfUser(u))|
    ensures r.userQuestions + r.aiResponses <= r.totalMessages
    ensures r.firstChat.Some? <==> r.totalMessages > 0
    ensures r.firstChat.Some? ==> r.lastChat.Some? && r.firstChat.value <= r.lastChat.value
  {
    var all := Filter(rows, OfUser(u));
    if all == [] then
      assert forall m :: m in rows ==> !OfUser(u)(m);
      UserStats(0, 0, 0, 0, None, None)
    else
      DisjointCounts(all, HasRole("user"), HasRole("assistant"));
      UserStats(|UserSessions(rows, u)|, |all|, Count(all, HasRole("user")), Count(all, HasRole("assistant")),
                Some(MinTs(all)), Some(MaxTs(all)))
  }

  /** A user has no more sessions than messages. */
  lemma SessionsAtMostMessages(rows: seq<Message>, u: int)
    ensures Stats(rows, u).totalSessions <= Stats(rows, u).totalMessages
  {
    var all := Filter(rows, OfUser(u));
    SessionCount(rows, u);
    SessionsFromMessages(all, u);
    assert UserSessions(rows, u) == UserSessions(all, u) by {
      forall x | x in UserSessions(rows, u) ensures x in UserSessions(all, u) {
        var m :| m in rows && m.userId == u && m.sessionId == x;
        assert OfUser(u)(m);
      }
    }
  }

  /** There are no more session ids than messages carrying them. */
  lemma {:induction false} SessionsFromMessages(ms: seq<Message>, u: int)
    ensures |UserSessions(ms, u)| <= |ms|
  {
    if ms != [] {
      SessionsFromMessages(ms[1..], u);
      assert UserSessions(ms, u) <= UserSessions(ms[1..], u) + {ms[0].sessionId} by {
        forall x | x in UserSessions(ms, u) ensures x in UserSessions(ms[1..], u) + {ms[0].sessionId} {
          var m :| m in ms && m.userId == u && m.sessionId == x;
          if m != ms[0] { assert m in ms[1..]; }
        }
      }
      SubsetCard(UserSessions(ms, u), UserSessions(ms[1..], u) + {ms[0].sessionId});
    }
  }

  lemma SubsetCard(a: set<string>, b: set<string>)
    requires a <= b
    ensures |a| <= |b|
  {
    assert b == a + (b - a);
  }

  // ---------------------------------------------------------------
  // export_session_messages
  // ---------------------------------------------------------------

  /** One exported message; clock formatting is outside the model. */
  datatype Line = Line(role: string, message: string, timestamp: nat)

  /** The exports: JSON entries, CSV rows after a header, or Markdown blocks under a title. */
  datatype Export =
    | JsonExport(entries: seq<Line>)
    | CsvExport(header: seq<string>, lines: seq<Line>)
    | MarkdownExport(title: string, blocks: seq<(string, Line)>)

  function Lines(ms: seq<Message>): (r: seq<Line>)
    ensures |r| == |ms|
    ensures forall i :: 0 <= i < |ms| ==> r[i] == Line(ms[i].role, ms[i].message, ms[i].timestamp)
  {
    if ms == [] then [] else [Line(ms[0].role, ms[0].message, ms[0].timestamp)] + Lines(ms[1..])
  }

  /** The Markdown speaker label: the user, or the coach for any other role. */
  function RoleDisplay(role: string): string {
    if role == "user" then "\U{1F464} You" else "\U{1F916} AI Coach"
  }

  function Blocks(ls: seq<Line>): (r: seq<(string, Line)>)
    ensures |r| == |ls|
    ensures forall i :: 0 <= i < |ls| ==> r[i] == (RoleDisplay(ls[i].role), ls[i])
  {
    if ls == [] then [] else [(RoleDisplay(ls[0].role), ls[0])] + Blocks(ls[1..])
  }

  /** The lines an export lists, whatever its format. */
  function ExportedLines(e: Export): seq<Line> {
    match e
    case JsonExport(entries) => entries
    case CsvExport(_, lines) => lines
    case MarkdownExport(_, blocks) => seq(|blocks|, i requires 0 <= i < |blocks| => blocks[i].1)
  }

  function LineTs(l: Line): int { l.timestamp }

  /** Copying messages into lines keeps their time order. */
  lemma LinesKeepOrder(ms: seq<Message>)
    requires NonDecreasing(ms, Ts)
    ensures NonDecreasing(Lines(ms), LineTs)
  {
    var ls := Lines(ms);
    forall i, j | 0 <= i < j < |ls| ensures LineTs(ls[i]) <= LineTs(ls[j]) {
      assert Ts(ms[i]) <= Ts(ms[j]);
    }
  }

  /**
   * `export_session_messages`: JSON entries, CSV rows under the
   * "Timestamp, Role, Message" header, or Markdown blocks under the session
   * title, each listing the session in time order; any other format is a
   * ValueError.
   */
  function ExportSession(rows: seq<Message>, u: int, s: string, format: string): (r: Result<Export>)
    ensures r.Err? <==> format !in {"json", "csv", "markdown"}
    ensures r.Err? ==> r.error == ValueError("Unsupported format: " + format)
    ensures format == "json" ==> r == Ok(JsonExport(Lines(SessionMessages(rows, u, s))))
    ensures format == "csv" ==> r == Ok(CsvExport(["Timestamp", "Role", "Message"], Lines(SessionMessages(rows, u, s))))
    ensures format == "markdown" ==>
      r == Ok(MarkdownExport("# Session " + s + "\n\n", Blocks(Lines(SessionMessages(rows, u, s)))))
    ensures r.Ok? ==> ExportedLines(r.value) == Lines(SessionMessages(rows, u, s))
    ensures r.Ok? ==> NonDecreasing(ExportedLines(r.value), LineTs)
  {
    var lines := Lines(SessionMessages(rows, u, s));
    SortAscSorted(SessionRows(rows, u, s), Ts);
    LinesKeepOrder(SessionMessages(rows, u, s));
    if format == "json" then Ok(JsonExport(lines))
    else if format == "csv" then Ok(CsvExport(["Timestamp", "Role", "Message"], lines))
    else if format == "markdown" then
      var blocks := Blocks(lines);
      assert ExportedLines(MarkdownExport("# Session " + s + "\n\n", blocks)) == lines;
      Ok(MarkdownExport("# Session " + s + "\n\n", blocks))
    else Err(ValueError("Unsupported format: " + format))
  }

  /** Deleting one session leaves it empty and every other session exactly as it was. */
  lemma {:induction false} DeleteKeepsOtherSessions(rows: seq<Message>, u: int, s: string, u2: int, s2: string)
    ensures SessionRows(Filter(rows, (m: Message) => !InSession(u, s)(m)), u, s) == []
    ensures (u2, s2) != (u, s) ==>
      SessionRows(Filter(rows, (m: Message) => !InSession(u, s)(m)), u2, s2) == SessionRows(rows, u2, s2)
  {
    if rows != [] {
      var del := (m: Message) => !InSession(u, s)(m);
      DeleteKeepsOtherSessions(rows[1..], u, s, u2, s2);
      var head := if del(rows[0]) then [rows[0]] else [];
      assert Filter(rows, del) == head + Filter(rows[1..], del);
      FilterAppend(head, Filter(rows[1..], del), InSession(u, s));
      FilterAppend(head, Filter(rows[1..], del), InSession(u2, s2));
    }
  }

  // ---------------------------------------------------------------
  // The table
  // ---------------------------------------------------------------

  class ChatHistoryTable {
    var rows: seq<Message>
    var nextId: int

    constructor ()
      ensures rows == [] && nextId == 1
    {
      rows := [];
      nextId := 1;
    }

    /** `save_message`: a new row with the next id and the current time. */
    method SaveMessage(u: int, s: string, role: string, message: string, now: nat) returns (saved: Message)
      modifies this
      ensures saved == Message(old(nextId), u, s, role, message, now)
      ensures rows == old(rows) + [saved] && nextId == old(nextId) + 1
    {
      saved := Message(nextId, u, s, role, message, now);
      rows := rows + [saved];
      nextId := nextId + 1;
    }

    /** `delete_session`: every message of the session goes, nothing else. */
    method DeleteSession(u: int, s: string)
      modifies this
      ensures rows == Filter(old(rows), (m: Message) => !InSession(u, s)(m))
      ensures nextId == old(nextId)
    {
      rows := Filter(rows, (m: Message) => !InSession(u, s)(m));
    }
  }
}
