/**
 * backend/app/api/routes/ai_coach_routes.py: the response-header
 * sanitiser, the websocket connection list, websocket frame parsing and the
 * unlock flag, the session id header, and the like/dislike endpoint.  JSON
 * decoding, uuid4 and the clock are parameters.
 */
module CoachRoutes {
  import opened Wrappers
  import opened Text
  import opened Json
  import ChatHistory
  import Feedback

  // ---------------------------------------------------------------
  // sanitize_header
  // ---------------------------------------------------------------

  predicate IsAscii(c: char) { c as int < 0x80 }

  predicate IsNewline(c: char) { c == '\r' || c == '\n' }

  /** A header value: ASCII only and on one line. */
  predicate HeaderSafe(s: string) { forall i :: 0 <= i < |s| ==> IsAscii(s[i]) && !IsNewline(s[i]) }

  const HeaderLimit := 200

  /** `.replace("\r", " ").replace("\n", " ")` */
  function NewlinesToSpaces(s: string): (r: string)
    ensures |r| == |s|
    ensures forall i :: 0 <= i < |s| ==> r[i] == if IsNewline(s[i]) then ' ' else s[i]
  {
    seq(|s|, i requires 0 <= i < |s| => if IsNewline(s[i]) then ' ' else s[i])
  }

  /** `.encode("ascii", "ignore").decode("ascii")` */
  function AsciiOnly(s: string): (r: string)
    ensures |r| <= |s|
    ensures forall i :: 0 <= i < |r| ==> IsAscii(r[i])
    ensures forall c :: c in r <==> c in s && IsAscii(c)
  {
    if s == [] then []
    else
      var rest := AsciiOnly(s[1..]);
      assert forall c :: c in s <==> c == s[0] || c in s[1..] by {
        assert s == [s[0]] + s[1..];
      }
      (if IsAscii(s[0]) then [s[0]] else []) + rest
  }

  /** One character is kept exactly when it is ASCII. */
  lemma AsciiOnlyChar(c: char)
    ensures AsciiOnly([c]) == if IsAscii(c) then [c] else []
  {
    assert [c][1..] == [];
  }

  /** Dropping non-ASCII works piece by piece, so the kept characters stay in their order. */
  lemma {:induction false} AsciiOnlyAppend(a: string, b: string)
    ensures AsciiOnly(a + b) == AsciiOnly(a) + AsciiOnly(b)
    decreases |a|
  {
    if a == [] {
      assert a + b == b;
    } else {
      assert (a + b)[1..] == a[1..] + b;
      AsciiOnlyAppend(a[1..], b);
      assert (a + b)[0] == a[0];
    }
  }

  /** Dropping non-ASCII leaves an ASCII string as it is. */
  lemma {:induction false} AsciiOnlyKeepsAscii(s: string)
    requires forall i :: 0 <= i < |s| ==> IsAscii(s[i])
    ensures AsciiOnly(s) == s
    decreases |s|
  {
    if s != [] {
      AsciiOnlyKeepsAscii(s[1..]);
    }
  }

  /** `sanitize_header` */
  function SanitizeHeader(value: string): (r: string)
    ensures value == "" ==> r == ""
    ensures |r| <= HeaderLimit && HeaderSafe(r)
    ensures HeaderSafe(value) && |value| <= HeaderLimit ==> r == value
    ensures value != "" ==> r == Take(AsciiOnly(NewlinesToSpaces(value)), HeaderLimit)
  {
    if value == "" then ""
    else
      var spaced := NewlinesToSpaces(value);
      var ascii := AsciiOnly(spaced);
      assert forall i :: 0 <= i < |ascii| ==> !IsNewline(ascii[i]) by {
        forall i | 0 <= i < |ascii| ensures !IsNewline(ascii[i]) {
          assert ascii[i] in ascii;
          var j :| 0 <= j < |spaced| && spaced[j] == ascii[i];
        }
      }
      assert HeaderSafe(value) ==> ascii == value by {
        if HeaderSafe(value) {
          assert spaced == value;
          AsciiOnlyKeepsAscii(value);
        }
      }
      Take(ascii, HeaderLimit)
  }

  /** A line break becomes a space and a non-ASCII character goes: "a" CR LF "b€" is sent as "a  b". */
  lemma SanitizeExample()
    ensures SanitizeHeader("a\r\nb€") == "a  b"
  {
    var v := "a\r\nb€";
    var spaced := NewlinesToSpaces(v);
    assert |spaced| == 5;
    assert spaced[0] == 'a' && spaced[1] == ' ' && spaced[2] == ' ' && spaced[3] == 'b' && spaced[4] == '€';
    assert spaced == "a  b" + "€";
    AsciiOnlyAppend("a  b", "€");
    AsciiOnlyKeepsAscii("a  b");
    AsciiOnlyChar('€');
    assert AsciiOnly(spaced) == "a  b";
  }

  /** Sanitising a sanitised value changes nothing. */
  lemma SanitizeIdempotent(value: string)
    ensures SanitizeHeader(SanitizeHeader(value)) == SanitizeHeader(value)
  {
  }

  // ---------------------------------------------------------------
  // ConnectionManager
  // ---------------------------------------------------------------

  /** `list.remove(x)` when `x` is present; the list unchanged otherwise. */
  function RemoveFirst<T(==)>(xs: seq<T>, x: T): (r: seq<T>)
    ensures x !in xs ==> r == xs
    ensures x in xs ==> |r| == |xs| - 1 && multiset(r) == multiset(xs) - multiset{x}
  {
    if xs == [] then []
    else if xs[0] == x then
      assert xs == [xs[0]] + xs[1..];
      xs[1..]
    else
      assert xs == [xs[0]] + xs[1..];
      [xs[0]] + RemoveFirst(xs[1..], x)
  }

  /** The open websockets, each named by its identity. */
  class ConnectionManager {
    var active: seq<int>

    constructor ()
      ensures active == []
    {
      active := [];
    }

    /** `connect`: the accepted socket is appended. */
    method Connect(ws: int)
      modifies this
      ensures active == old(active) + [ws]
    {
      active := active + [ws];
    }

    /** `disconnect`: removes the socket when it is listed and is a no-op otherwise. */
    method Disconnect(ws: int)
      modifies this
      ensures active == RemoveFirst(old(active), ws)
      ensures ws !in old(active) ==> active == old(active)
    {
      if ws in active {
        active := RemoveFirst(active, ws);
      }
    }
  }

  /** Connecting a new socket and then disconnecting it leaves the list as before. */
  lemma {:induction false} ConnectThenDisconnect(xs: seq<int>, ws: int)
    requires ws !in xs
    ensures RemoveFirst(xs + [ws], ws) == xs
    decreases |xs|
  {
    if xs == [] {
      assert xs + [ws] == [ws];
    } else {
      assert (xs + [ws])[1..] == xs[1..] + [ws];
      ConnectThenDisconnect(xs[1..], ws);
    }
  }

  // ---------------------------------------------------------------
  // The websocket loop's parsing and reply
  // ---------------------------------------------------------------

  /** What one received frame asks: the question, the Firebase uid and the session id. */
  datatype Frame = Frame(question: Json, firebaseUid: Json, sessionId: Json)

  /**
   * `json.loads`, then `.get` of the three keys; text that is not JSON is the
   * question itself, with no user and a new session.  JSON that is not an
   * object has no `.get`, which ends the loop.
   */
  function ParseFrame(text: string, decode: string -> Option<Json>, newId: string): (r: Result<Frame>)
    ensures decode(text).None? ==> r == Ok(Frame(JStr(text), JNull, JStr(newId)))
    ensures r.Err? <==> decode(text).Some? && !decode(text).value.JObj?
    ensures r.Ok? && decode(text).Some? ==> var fields := decode(text).value.fields;
      && r.value.question == GetOr(fields, "message", JStr(""))
      && r.value.firebaseUid == GetField(fields, "firebase_uid")
      && r.value.sessionId == if Truthy(GetField(fields, "session_id")) then fields["session_id"] else JStr(newId)
  {
    var decoded := decode(text);
    if decoded.None? then Ok(Frame(JStr(text), JNull, JStr(newId)))
    else if !decoded.value.JObj? then Err(ServerError(NoGet))
    else
      var fields := decoded.value.fields;
      Ok(Frame(GetOr(fields, "message", JStr("")), GetField(fields, "firebase_uid"),
               Or(GetField(fields, "session_id"), JStr(newId))))
  }

  /** Whenever the new id is non-empty, a parsed frame always has a usable session id. */
  lemma FrameHasSession(text: string, decode: string -> Option<Json>, newId: string)
    requires newId != ""
    ensures ParseFrame(text, decode, newId).Ok? ==> Truthy(ParseFrame(text, decode, newId).value.sessionId)
  {
  }

  /** The reply: `unlock_prompt` is true exactly when `trigger_explore_unlock is True`; nothing else changes. */
  function WithUnlockPrompt(result: map<string, Json>): (r: map<string, Json>)
    ensures "unlock_prompt" in r && r["unlock_prompt"] == JBool(GetField(result, "trigger_explore_unlock") == JBool(true))
    ensures forall k :: k != "unlock_prompt" ==> (k in r <==> k in result) && (k in result ==> r[k] == result[k])
  {
    result["unlock_prompt" := JBool(GetField(result, "trigger_explore_unlock") == JBool(true))]
  }

  /** A truthy value that is not the boolean `True` (1, "yes") does not unlock. */
  lemma OnlyTrueUnlocks(result: map<string, Json>, v: Json)
    requires v != JBool(true)
    ensures WithUnlockPrompt(result["trigger_explore_unlock" := v])["unlock_prompt"] == JBool(false)
  {
  }

  /** `request.headers.get("x-session-id") or str(uuid.uuid4())` */
  function SessionIdFor(header: Option<string>, newId: string): (s: string)
    ensures header.Some? && header.value != "" ==> s == header.value
    ensures header.None? || header == Some("") ==> s == newId
  {
    if header.Some? && header.value != "" then header.value else newId
  }

  // ---------------------------------------------------------------
  // submit_feedback
  // ---------------------------------------------------------------

  /** `message.ilike(f"{content}%")` */
  predicate PrefixMatch(message: string, content: string) {
    StartsWith(Lower(message), Lower(content))
  }

  /** The user's newest (highest id) message starting with `content`, ignoring case. */
  function NewestMatching(msgs: seq<ChatHistory.Message>, u: int, content: string): (r: Option<ChatHistory.Message>)
    ensures r.Some? ==> r.value in msgs && r.value.userId == u && PrefixMatch(r.value.message, content)
    ensures r.Some? ==> forall m :: m in msgs && m.userId == u && PrefixMatch(m.message, content) ==> m.id <= r.value.id
    ensures r.None? <==> forall m :: m in msgs ==> !(m.userId == u && PrefixMatch(m.message, content))
  {
    if msgs == [] then None
    else
      var rest := NewestMatching(msgs[1..], u, content);
      var m := msgs[0];
      assert forall x :: x in msgs ==> x == m || x in msgs[1..];
      if m.userId == u && PrefixMatch(m.message, content) && (rest.None? || rest.value.id < m.id) then Some(m)
      else rest
  }

  /** The table after the call, whether a row was updated, and the message it is about. */
  datatype Submitted = Submitted(rows: seq<Feedback.FeedbackRow>, updated: bool, messageId: int)

  const NoMessage := "Message not found"

  /** An existing row only takes the new type; otherwise a row for the message is inserted. */
  function Upsert(rows: seq<Feedback.FeedbackRow>, u: int, m: ChatHistory.Message, feedbackType: string, now: int)
    : (s: Submitted)
    ensures s.messageId == m.id
    ensures s.updated <==> Feedback.FirstFeedback(rows, u, m.id).Some?
    ensures s.updated ==> var i := Feedback.FirstFeedback(rows, u, m.id).value;
      && |s.rows| == |rows|
      && s.rows[i] == rows[i].(feedbackType := feedbackType)
      && (forall k :: 0 <= k < |rows| && k != i ==> s.rows[k] == rows[k])
    ensures !s.updated ==>
      && |s.rows| == |rows| + 1 && s.rows[..|rows|] == rows
      && s.rows[|rows|] == Feedback.FeedbackRow(u, "default", m.id, feedbackType, None, Some(m.message), now)
  {
    var i := Feedback.FirstFeedback(rows, u, m.id);
    if i.Some? then Submitted(rows[i.value := rows[i.value].(feedbackType := feedbackType)], true, m.id)
    else Submitted(rows + [Feedback.FeedbackRow(u, "default", m.id, feedbackType, None, Some(m.message), now)], false, m.id)
  }

  /**
   * `submit_feedback` as written: the 404 is raised inside the `try` whose
   * `except Exception` turns every exception into a 500 carrying `str(e)`.
   */
  function SubmitFeedbackAsWritten(rows: seq<Feedback.FeedbackRow>, msgs: seq<ChatHistory.Message>, user: Option<int>,
                                   feedbackType: string, content: string, now: int): (r: Result<Submitted>)
    requires feedbackType == "like" || feedbackType == "dislike"
    ensures user.None? ==> r == Err(Unauthorized("Authentication required"))
    ensures user.Some? && NewestMatching(msgs, user.value, content).None? ==> r == Err(ServerError("404: " + NoMessage))
  {
    if user.None? then Err(Unauthorized("Authentication required"))
    else
      var m := NewestMatching(msgs, user.value, content);
      if m.None? then Err(ServerError("404: " + NoMessage))
      else Ok(Upsert(rows, user.value, m.value, feedbackType, now))
  }

  /** `submit_feedback` with the 404 reaching the client. */
  function SubmitFeedback(rows: seq<Feedback.FeedbackRow>, msgs: seq<ChatHistory.Message>, user: Option<int>,
                          feedbackType: string, content: string, now: int): (r: Result<Submitted>)
    requires feedbackType == "like" || feedbackType == "dislike"
    ensures user.None? ==> r == Err(Unauthorized("Authentication required"))
    ensures user.Some? ==> (r.Err? <==> NewestMatching(msgs, user.value, content).None?)
    ensures r.Err? && user.Some? ==> r.error == NotFound(NoMessage) && StatusCode(r.error) == 404
    ensures r.Ok? ==> r.value.messageId == NewestMatching(msgs, user.value, content).value.id
  {
    if user.None? then Err(Unauthorized("Authentication required"))
    else
      var m := NewestMatching(msgs, user.value, content);
      if m.None? then Err(NotFound(NoMessage))
      else Ok(Upsert(rows, user.value, m.value, feedbackType, now))
  }

  /** The client sees 500 where the 404 was meant: a signed-in user with no matching message. */
  lemma MissingMessageIs500(rows: seq<Feedback.FeedbackRow>, u: int, feedbackType: string, content: string, now: int)
    requires feedbackType == "like" || feedbackType == "dislike"
    ensures StatusCode(SubmitFeedbackAsWritten(rows, [], Some(u), feedbackType, content, now).error) == 500
    ensures StatusCode(SubmitFeedback(rows, [], Some(u), feedbackType, content, now).error) == 404
  {
  }

  /** Apart from the error on a missing message, the two agree. */
  lemma SubmitAgrees(rows: seq<Feedback.FeedbackRow>, msgs: seq<ChatHistory.Message>, user: Option<int>,
                     feedbackType: string, content: string, now: int)
    requires feedbackType == "like" || feedbackType == "dislike"
    requires user.None? || NewestMatching(msgs, user.value, content).Some?
    ensures SubmitFeedbackAsWritten(rows, msgs, user, feedbackType, content, now)
         == SubmitFeedback(rows, msgs, user, feedbackType, content, now)
  {
  }

  /** Feedback is never duplicated: one row per (user, message), holding the latest type. */
  lemma SubmitNeverDuplicates(rows: seq<Feedback.FeedbackRow>, msgs: seq<ChatHistory.Message>, u: int,
                              feedbackType: string, content: string, now: int)
    requires feedbackType == "like" || feedbackType == "dislike"
    requires Feedback.KeysUnique(rows)
    requires SubmitFeedback(rows, msgs, Some(u), feedbackType, content, now).Ok?
    ensures var s := SubmitFeedback(rows, msgs, Some(u), feedbackType, content, now).value;
      && Feedback.KeysUnique(s.rows)
      && |s.rows| == |rows| + (if s.updated then 0 else 1)
      && Feedback.FeedbackOf(s.rows, u, s.messageId).Some?
      && Feedback.FeedbackOf(s.rows, u, s.messageId).value.feedbackType == feedbackType
  {
    var s := SubmitFeedback(rows, msgs, Some(u), feedbackType, content, now).value;
    var i := Feedback.FirstFeedback(rows, u, s.messageId);
    var k := if i.Some? then i.value else |rows|;
    assert s.rows[k].userId == u && s.rows[k].messageId == s.messageId;
    assert forall j :: 0 <= j < k ==> s.rows[j] == rows[j];
  }
}
