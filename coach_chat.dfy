/**
 * frontend/src/pages/AICoachChat.tsx: the chat page's message list as the
 * coach's streamed frames and the user's sends change it, the like/dislike
 * toggle and the feedback request it sends, and the playback controls'
 * arithmetic.  The socket, `fetch` and the audio element are not modelled;
 * what they deliver is a parameter.
 */
module CoachChatPage {
  import opened Wrappers
  import opened Text
  import opened Json
  import opened Rounding
  import ChatHistory
  import CoachRoutes

  datatype ChatMessage = ChatMessage(role: string, content: string)

  // ---------------------------------------------------------------
  // Streaming
  // ---------------------------------------------------------------

  /** The `setMessages` updater for a chunk: extend the assistant's last message, or start one. */
  function MergeChunk(msgs: seq<ChatMessage>, chunk: string): (r: seq<ChatMessage>)
    ensures |r| == if msgs != [] && msgs[|msgs| - 1].role == "assistant" then |msgs| else |msgs| + 1
    ensures r[..|r| - 1] == (if |r| == |msgs| then msgs[..|msgs| - 1] else msgs)
    ensures r[|r| - 1].role == "assistant"
    ensures r[|r| - 1].content == (if |r| == |msgs| then msgs[|msgs| - 1].content else "") + chunk
  {
    if msgs != [] && msgs[|msgs| - 1].role == "assistant" then
      var last := msgs[|msgs| - 1];
      msgs[..|msgs| - 1] + [last.(content := last.content + chunk)]
    else msgs + [ChatMessage("assistant", chunk)]
  }

  function Concat(chunks: seq<string>): string {
    if chunks == [] then "" else Concat(chunks[..|chunks| - 1]) + chunks[|chunks| - 1]
  }

  /** The chunks merged one after another. */
  function MergeAll(msgs: seq<ChatMessage>, chunks: seq<string>): seq<ChatMessage> {
    if chunks == [] then msgs else MergeChunk(MergeAll(msgs, chunks[..|chunks| - 1]), chunks[|chunks| - 1])
  }

  /** After the user's message, a streamed reply is one assistant message holding the chunks in order. */
  lemma {:induction false} StreamedReply(msgs: seq<ChatMessage>, chunks: seq<string>)
    requires msgs == [] || msgs[|msgs| - 1].role != "assistant"
    requires chunks != []
    ensures MergeAll(msgs, chunks) == msgs + [ChatMessage("assistant", Concat(chunks))]
    decreases |chunks|
  {
    var init := chunks[..|chunks| - 1];
    if init == [] {
      assert Concat(chunks) == Concat(init) + chunks[0];
    } else {
      StreamedReply(msgs, init);
      var before := msgs + [ChatMessage("assistant", Concat(init))];
      assert before[..|before| - 1] == msgs;
    }
  }

  /** The flags the page shows while a reply comes in. */
  datatype Flags = Flags(isStreaming: bool, isLoading: bool)

  /** JavaScript `String(x)` of the `answer` field, for what it concatenates. */
  function AnswerText(answer: Json, stringify: Json -> string): string {
    if answer.JStr? then answer.s else stringify(answer)
  }

  /**
   * `socket.onmessage`: `frame` is `JSON.parse(event.data)`, None when it
   * throws.  Reading a field of `null` throws as well; any other value that
   * is not an object has neither field.
   */
  function OnMessage(msgs: seq<ChatMessage>, flags: Flags, frame: Option<Json>, stringify: Json -> string)
    : (r: (seq<ChatMessage>, Flags))
    ensures frame.None? || frame == Some(JNull) ==> r == (msgs, Flags(false, false))
    ensures frame.Some? && frame.value.JObj? && JsTruthy(GetField(frame.value.fields, "answer")) ==>
      r.0 == MergeChunk(msgs, AnswerText(GetField(frame.value.fields, "answer"), stringify))
    ensures frame.Some? && frame.value.JObj? && GetField(frame.value.fields, "done") == JBool(true) ==>
      r.1 == Flags(false, false)
    ensures frame.Some? && frame.value.JObj? && GetField(frame.value.fields, "done") != JBool(true) ==>
      r.1 == (if JsTruthy(GetField(frame.value.fields, "answer")) then flags.(isStreaming := true) else flags)
    ensures frame.Some? && !frame.value.JObj? && frame.value != JNull ==> r == (msgs, flags)
  {
    if frame.None? || frame.value == JNull then (msgs, Flags(false, false))
    else if !frame.value.JObj? then (msgs, flags)
    else
      var fields := frame.value.fields;
      var answer := GetField(fields, "answer");
      var (msgs1, flags1) :=
        if JsTruthy(answer) then (MergeChunk(msgs, AnswerText(answer, stringify)), flags.(isStreaming := true))
        else (msgs, flags);
      if GetField(fields, "done") == JBool(true) then (msgs1, Flags(false, false)) else (msgs1, flags1)
  }

  /** The last frame may carry both a chunk and `done`: the chunk is kept and both flags clear. */
  lemma FinalChunkClears(msgs: seq<ChatMessage>, flags: Flags, chunk: string, stringify: Json -> string)
    requires chunk != ""
    ensures var frame := JObj(map["answer" := JStr(chunk), "done" := JBool(true)]);
      OnMessage(msgs, flags, Some(frame), stringify) == (MergeChunk(msgs, chunk), Flags(false, false))
  {
    var fields := map["answer" := JStr(chunk), "done" := JBool(true)];
    assert GetField(fields, "answer") == JStr(chunk);
    assert GetField(fields, "done") == JBool(true);
  }

  // ---------------------------------------------------------------
  // Sending
  // ---------------------------------------------------------------

  /** The composer: the message list, the input box and the flags. */
  datatype Composer = Composer(msgs: seq<ChatMessage>, input: string, flags: Flags)

  predicate Present(s: Option<string>) { s.Some? && s.value != "" }

  /** `handleSendMessage` up to the request; None when nothing is sent. */
  function Send(c: Composer, firebaseUid: Option<string>, sessionId: Option<string>): (r: (Composer, Option<string>))
    ensures r.1.None? <==> Strip(c.input) == "" || !Present(firebaseUid) || !Present(sessionId)
    ensures r.1.None? ==> r.0 == c
    ensures r.1.Some? ==> (r.1.value == Strip(c.input) && r.1.value != ""
      && r.0 == Composer(c.msgs + [ChatMessage("user", Strip(c.input))], "", Flags(false, true)))
  {
    if Strip(c.input) == "" || !Present(firebaseUid) || !Present(sessionId) then (c, None)
    else
      var text := Strip(c.input);
      (Composer(c.msgs + [ChatMessage("user", text)], "", Flags(false, true)), Some(text))
  }

  /** How a sent message is answered. */
  datatype Delivery =
    | OverSocket                 // the reply streams in through OnMessage
    | Answered(answer: string)   // the `/ai-coach/ask` fallback returned `data.answer`
    | Failed                     // the fallback threw

  /** The state after the request of `handleSendMessage`. */
  function Delivered(c: Composer, d: Delivery): (r: Composer)
    ensures r.input == c.input
    ensures d.OverSocket? ==> r == c.(flags := c.flags.(isStreaming := true))
    ensures d.Answered? ==> (r.msgs == c.msgs + [ChatMessage("assistant", if d.answer != "" then d.answer else "...")]
      && !r.flags.isLoading)
    ensures d.Failed? ==> r.msgs == c.msgs + [ChatMessage("assistant", "⚠️ Something went wrong.")] && !r.flags.isLoading
  {
    match d
    case OverSocket => c.(flags := c.flags.(isStreaming := true))
    case Answered(a) => c.(msgs := c.msgs + [ChatMessage("assistant", if a != "" then a else "...")],
                           flags := c.flags.(isLoading := false))
    case Failed => c.(msgs := c.msgs + [ChatMessage("assistant", "⚠️ Something went wrong.")],
                      flags := c.flags.(isLoading := false))
  }

  /** A streamed reply to a sent message lands right after it. */
  lemma SendThenStream(c: Composer, firebaseUid: Option<string>, sessionId: Option<string>, chunks: seq<string>)
    requires Send(c, firebaseUid, sessionId).1.Some? && chunks != []
    ensures var sent := Send(c, firebaseUid, sessionId).0;
      MergeAll(sent.msgs, chunks)
        == c.msgs + [ChatMessage("user", Strip(c.input)), ChatMessage("assistant", Concat(chunks))]
  {
    var sent := Send(c, firebaseUid, sessionId).0;
    StreamedReply(sent.msgs, chunks);
  }

  // ---------------------------------------------------------------
  // Feedback
  // ---------------------------------------------------------------

  datatype FeedbackType = Like | Dislike

  function TypeName(t: FeedbackType): string {
    match t
    case Like => "like"
    case Dislike => "dislike"
  }

  /** `cur === type ? null : type` */
  function ToggleFeedback(cur: Option<FeedbackType>, t: FeedbackType): (r: Option<FeedbackType>)
    ensures r.None? <==> cur == Some(t)
    ensures r.Some? ==> r.value == t
  {
    if cur == Some(t) then None else Some(t)
  }

  /** Pressing the same button twice: it ends set exactly when it started set to that type. */
  lemma ToggleTwice(cur: Option<FeedbackType>, t: FeedbackType)
    ensures ToggleFeedback(ToggleFeedback(cur, t), t) == (if cur == Some(t) then Some(t) else None)
    ensures cur == None ==> ToggleFeedback(ToggleFeedback(cur, t), t) == None
  {
  }

  /** The query `sendFeedbackToBackend` posts. */
  datatype FeedbackRequest = FeedbackRequest(feedbackType: string, messageContent: string)

  const PreviewLength := 50

  /** `sendFeedbackToBackend(index, type)`: nothing for a cleared vote, a missing message or a user's message. */
  function FeedbackToSend(msgs: seq<ChatMessage>, index: int, t: Option<FeedbackType>, firebaseUid: Option<string>)
    : (r: Option<FeedbackRequest>)
    ensures r.Some? <==> Present(firebaseUid) && t.Some? && 0 <= index < |msgs| && msgs[index].role == "assistant"
    ensures r.Some? ==> (r.value.feedbackType == TypeName(t.value)
      && r.value.messageContent == Take(msgs[index].content, PreviewLength))
  {
    if !Present(firebaseUid) || t.None? then None
    else if !(0 <= index < |msgs|) || msgs[index].role != "assistant" then None
    else Some(FeedbackRequest(TypeName(t.value), Take(msgs[index].content, PreviewLength)))
  }

  /** `handleFeedback`: the new vote map, and the request it sends. */
  function HandleFeedback(votes: map<int, Option<FeedbackType>>, msgs: seq<ChatMessage>, index: int,
                          t: FeedbackType, firebaseUid: Option<string>, sessionId: Option<string>)
    : (r: (map<int, Option<FeedbackType>>, Option<FeedbackRequest>))
    ensures var next := ToggleFeedback(if index in votes then votes[index] else None, t);
      && r.0 == votes[index := next]
      && (r.1.Some? <==> Present(sessionId) && FeedbackToSend(msgs, index, next, firebaseUid).Some?)
      && (r.1.Some? ==> r.1 == FeedbackToSend(msgs, index, next, firebaseUid))
  {
    var cur := if index in votes then votes[index] else None;
    var next := ToggleFeedback(cur, t);
    var request := if Present(firebaseUid) && Present(sessionId) then FeedbackToSend(msgs, index, next, firebaseUid) else None;
    (votes[index := next], request)
  }

  /** Un-voting sends nothing, and a vote on the user's own message is never sent. */
  lemma NoRequestForClearOrUser(votes: map<int, Option<FeedbackType>>, msgs: seq<ChatMessage>, index: int,
                                t: FeedbackType, firebaseUid: Option<string>, sessionId: Option<string>)
    ensures index in votes && votes[index] == Some(t) ==> HandleFeedback(votes, msgs, index, t, firebaseUid, sessionId).1.None?
    ensures 0 <= index < |msgs| && msgs[index].role == "user" ==>
      HandleFeedback(votes, msgs, index, t, firebaseUid, sessionId).1.None?
  {
  }

  /** Lower-casing a prefix is a prefix of the lower-cased text. */
  lemma LowerPrefix(s: string, k: nat)
    requires k <= |s|
    ensures |Lower(s)| == |s| && Lower(s[..k]) == Lower(s)[..k]
  {
    LowerEach(s);
    LowerEach(s[..k]);
  }

  /**
   * The preview sent finds its message on the backend: a stored message
   * of the user with the same text is matched by `submit_feedback`.
   */
  lemma PreviewFindsMessage(msgs: seq<ChatHistory.Message>, u: int, m: ChatHistory.Message, content: string)
    requires m in msgs && m.userId == u && m.message == content
    ensures CoachRoutes.PrefixMatch(content, Take(content, PreviewLength))
    ensures CoachRoutes.NewestMatching(msgs, u, Take(content, PreviewLength)).Some?
  {
    var p := Take(content, PreviewLength);
    LowerPrefix(content, |p|);
    LowerEach(content);
    LowerEach(p);
  }

  // ---------------------------------------------------------------
  // The page's state
  // ---------------------------------------------------------------

  /** The component's state hooks, updated by its handlers. */
  class ChatPage {
    var messages: seq<ChatMessage>
    var flags: Flags
    var inputValue: string
    var feedbackState: map<int, Option<FeedbackType>>

    constructor ()
      ensures messages == [] && flags == Flags(false, false) && inputValue == "" && feedbackState == map[]
    {
      messages, flags, inputValue, feedbackState := [], Flags(false, false), "", map[];
    }

    /** `socket.onmessage` */
    method OnFrame(frame: Option<Json>, stringify: Json -> string)
      modifies this
      ensures (messages, flags) == OnMessage(old(messages), old(flags), frame, stringify)
      ensures inputValue == old(inputValue) && feedbackState == old(feedbackState)
    {
      var (m, f) := OnMessage(messages, flags, frame, stringify);
      messages, flags := m, f;
    }

    /** `handleSendMessage`, through the delivery of the request. */
    method SendMessage(firebaseUid: Option<string>, sessionId: Option<string>, d: Delivery) returns (sent: Option<string>)
      modifies this
      ensures var (c, text) := Send(Composer(old(messages), old(inputValue), old(flags)), firebaseUid, sessionId);
        && sent == text
        && Composer(messages, inputValue, flags) == (if text.Some? then Delivered(c, d) else c)
      ensures feedbackState == old(feedbackState)
    {
      var (c, text) := Send(Composer(messages, inputValue, flags), firebaseUid, sessionId);
      sent := text;
      var after := if text.Some? then Delivered(c, d) else c;
      messages, inputValue, flags := after.msgs, after.input, after.flags;
    }

    /** `handleFeedback` */
    method Vote(index: int, t: FeedbackType, firebaseUid: Option<string>, sessionId: Option<string>)
      returns (request: Option<FeedbackRequest>)
      modifies this
      ensures (feedbackState, request) == HandleFeedback(old(feedbackState), messages, index, t, firebaseUid, sessionId)
      ensures messages == old(messages) && flags == old(flags) && inputValue == old(inputValue)
    {
      var (votes, r) := HandleFeedback(feedbackState, messages, index, t, firebaseUid, sessionId);
      feedbackState, request := votes, r;
    }
  }

  // ---------------------------------------------------------------
  // Playback
  // ---------------------------------------------------------------

  /** `skip(s)`: `Math.min(Math.max(currentTime + s, 0), duration)` */
  function Skip(currentTime: real, s: real, duration: real): (r: real)
    ensures 0.0 <= duration ==> 0.0 <= r <= duration
    ensures 0.0 <= currentTime + s <= duration ==> r == currentTime + s
    ensures currentTime + s < 0.0 <= duration ==> r == 0.0
    ensures 0.0 <= duration < currentTime + s ==> r == duration
  {
    var up := if currentTime + s > 0.0 then currentTime + s else 0.0;
    if up < duration then up else duration
  }

  /** JavaScript `a % b` on numbers: the remainder of truncated division. */
  function JsRealRem(a: real, b: real): real
    requires b != 0.0
  {
    a - b * Trunc(a / b) as real
  }

  /** `.toString().padStart(2, "0")` of an integer. */
  function Pad2(n: int): (r: string)
    ensures |r| >= 2
  {
    ZFill(IntToString(n), 2)
  }

  /** `formatTime(t)` */
  function FormatTime(t: real): (r: string)
    ensures |r| >= 5 && ':' in r
  {
    Pad2(Floor(t / 60.0)) + ":" + Pad2(Floor(JsRealRem(t, 60.0)))
  }

  /** For a playback time, the text is the whole minutes and the seconds left over, each of two or more digits. */
  lemma FormatTimeClock(t: real)
    requires t >= 0.0
    ensures var n := t.Floor;
      FormatTime(t) == ZFill(NatToString(n / 60), 2) + ":" + ZFill(NatToString(n % 60), 2)
    ensures t < 6000.0 ==> |FormatTime(t)| == 5 && FormatTime(t)[2] == ':'
  {
    var n := t.Floor;
    var q, rem := n / 60, n % 60;
    assert n == 60 * q + rem && 0 <= rem < 60;
    var y := t / 60.0;
    assert y * 60.0 == t;
    assert (60 * q) as real <= t < (60 * q + 60) as real;
    assert q as real <= y < (q + 1) as real;
    assert y.Floor == q;
    assert Trunc(y) == q;
    var z := JsRealRem(t, 60.0);
    assert z == t - 60.0 * q as real;
    assert rem as real <= z < (rem + 1) as real;
    assert z.Floor == rem;
    assert IntToString(q) == NatToString(q) && IntToString(rem) == NatToString(rem);
    if t < 6000.0 {
      assert q < 100;
      DigitsBelow(q);
      DigitsBelow(rem);
    }
  }

  lemma DigitsBelow(n: nat)
    requires n < 100
    ensures |NatToString(n)| <= 2
  {
  }
}
