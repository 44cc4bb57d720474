/**
 * The lookup tables of backend/app/utils/data_loaders.py: question id to
 * its category, text, type and scale (`load_questions`), and chat id to its
 * text (`load_chat_script`).  The decoded files are inputs; a JSON object
 * whose key order matters is given as its items in file order.
 */
module QuestionLookup {
  import opened Wrappers
  import opened Json

  /** The entry `load_questions` stores for a question id. */
  datatype QuestionMeta = QuestionMeta(category: Json, questionText: Json, qtype: Json, scale: Json)

  /** The decoded questions file: a dict, as its items in file order, or some other value. */
  datatype QuestionsFile = Dict(items: seq<(string, Json)>) | NotDict(value: Json)

  const Unhashable := "TypeError: unhashable type"
  const NoItems := "AttributeError: object has no attribute 'items'"

  /** Lists and dicts cannot be dict keys. */
  predicate Hashable(j: Json) { !j.JList? && !j.JObj? }

  /** The last value of a key among the items: `json.load` keeps the last of repeated keys. */
  function ItemValue(items: seq<(string, Json)>, key: string): Option<Json> {
    if items == [] then None
    else if items[|items| - 1].0 == key then Some(items[|items| - 1].1)
    else ItemValue(items[..|items| - 1], key)
  }

  /**
   * What the loops of `load_questions` meet, in order: a question with the
   * category it is filed under, or a failure that ends the load (a section
   * or question list that cannot be walked).
   */
  datatype Step = Question(category: Json, q: Json) | Raise(error: Error)

  /** The questions of one list, each filed under the category. */
  function QuestionSteps(category: Json, qs: seq<Json>): (r: seq<Step>)
    ensures |r| == |qs|
    ensures forall i :: 0 <= i < |qs| ==> r[i] == Question(category, qs[i])
  {
    if qs == [] then [] else [Question(category, qs[0])] + QuestionSteps(category, qs[1..])
  }

  /** The sections shape: each section's questions under `display_name or category`. */
  function SectionSteps(sections: seq<Json>): seq<Step> {
    if sections == [] then []
    else if !sections[0].JObj? then [Raise(ServerError(NoGet))]
    else
      var sec := sections[0].fields;
      var qs := IterForGet(GetOr(sec, "questions", JList([])));
      if qs.Err? then [Raise(qs.error)]
      else
        QuestionSteps(Or(GetField(sec, "display_name"), GetField(sec, "category")), qs.value)
          + SectionSteps(sections[1..])
  }

  /** The category-keyed shape: dict entries holding "questions", under `display_name or` the key. */
  function CategorySteps(items: seq<(string, Json)>): seq<Step> {
    if items == [] then []
    else
      var (category, info) := items[0];
      if !info.JObj? || "questions" !in info.fields then CategorySteps(items[1..])
      else
        var qs := IterForGet(info.fields["questions"]);
        if qs.Err? then [Raise(qs.error)]
        else
          QuestionSteps(Or(GetField(info.fields, "display_name"), JStr(category)), qs.value)
            + CategorySteps(items[1..])
  }

  /** The file's steps: the sections shape when there is a "sections" key, otherwise the category shape. */
  function FileSteps(file: QuestionsFile): seq<Step> {
    match file
    case NotDict(_) => [Raise(ServerError(NoItems))]
    case Dict(items) =>
      var sections := ItemValue(items, "sections");
      if sections.Some? then
        var secs := IterForGet(sections.value);
        if secs.Err? then [Raise(secs.error)] else SectionSteps(secs.value)
      else CategorySteps(items)
  }

  /** The id a step stores under, or None (a falsy id) when it stores nothing. */
  function IdOf(step: Step): Json {
    if step.Question? && step.q.JObj? then GetField(step.q.fields, "id") else JNull
  }

  function MetaOf(category: Json, q: map<string, Json>): QuestionMeta {
    QuestionMeta(category, Or(GetField(q, "question"), GetField(q, "question_text")), GetField(q, "type"), GetField(q, "scale"))
  }

  /** One step of the loop: a question with a truthy id is stored under it, replacing an earlier entry. */
  function AddQuestion(acc: Result<map<Json, QuestionMeta>>, step: Step): Result<map<Json, QuestionMeta>> {
    if acc.Err? then acc
    else match step
      case Raise(e) => Err(e)
      case Question(category, q) =>
        if !q.JObj? then Err(ServerError(NoGet))
        else if !Truthy(IdOf(step)) then acc
        else if !Hashable(IdOf(step)) then Err(ServerError(Unhashable))
        else Ok(acc.value[IdOf(step) := MetaOf(category, q.fields)])
  }

  /** The lookup after the loop has visited the given steps. */
  function BuildLookup(steps: seq<Step>): Result<map<Json, QuestionMeta>> {
    if steps == [] then Ok(map[])
    else AddQuestion(BuildLookup(steps[..|steps| - 1]), steps[|steps| - 1])
  }

  /** `load_questions()` */
  function LoadQuestions(file: QuestionsFile): (r: Result<map<Json, QuestionMeta>>)
    ensures r.Ok? ==> forall k :: k in r.value ==>
      Truthy(k) && exists i :: 0 <= i < |FileSteps(file)| && IdOf(FileSteps(file)[i]) == k
  {
    LookupKeysAreIds(FileSteps(file));
    BuildLookup(FileSteps(file))
  }

  /** Every key is the truthy id of some question. */
  lemma {:induction false} LookupKeysAreIds(steps: seq<Step>)
    ensures var r := BuildLookup(steps);
      r.Ok? ==> forall k :: k in r.value ==> Truthy(k) && exists i :: 0 <= i < |steps| && IdOf(steps[i]) == k
    decreases |steps|
  {
    if steps != [] {
      var init := steps[..|steps| - 1];
      LookupKeysAreIds(init);
      var r := BuildLookup(steps);
      if r.Ok? {
        forall k | k in r.value ensures Truthy(k) && exists i :: 0 <= i < |steps| && IdOf(steps[i]) == k {
          if k == IdOf(steps[|steps| - 1]) && Truthy(k) {
          } else {
            var i :| 0 <= i < |init| && IdOf(init[i]) == k;
            assert steps[i] == init[i];
          }
        }
      }
    }
  }

  /** When ids repeat, the later question wins: an id holds its last question's entry. */
  lemma {:induction false} LaterOverwrites(steps: seq<Step>, j: int)
    requires 0 <= j < |steps| && steps[j].Question? && steps[j].q.JObj? && Truthy(IdOf(steps[j]))
    requires forall i :: j < i < |steps| ==> IdOf(steps[i]) != IdOf(steps[j])
    ensures var r := BuildLookup(steps);
      r.Ok? ==> IdOf(steps[j]) in r.value && r.value[IdOf(steps[j])] == MetaOf(steps[j].category, steps[j].q.fields)
    decreases |steps|
  {
    var last := |steps| - 1;
    var init := steps[..last];
    if j < last {
      assert forall i :: j < i < |init| ==> init[i] == steps[i];
      LaterOverwrites(init, j);
      assert init[j] == steps[j];
    }
  }

  /** A failure stays the result: nothing after the first failing step is loaded. */
  lemma {:induction false} FailureSticks(steps: seq<Step>, k: nat)
    requires k <= |steps| && BuildLookup(steps[..k]).Err?
    ensures BuildLookup(steps) == BuildLookup(steps[..k])
    decreases |steps| - k
  {
    if k < |steps| {
      assert steps[..k + 1][..k] == steps[..k];
      FailureSticks(steps, k + 1);
    } else {
      assert steps[..k] == steps;
    }
  }

  /** The loops of `load_questions` over the file's questions. */
  method BuildQuestions(file: QuestionsFile) returns (r: Result<map<Json, QuestionMeta>>)
    ensures r == LoadQuestions(file)
  {
    var steps := FileSteps(file);
    var lookup: map<Json, QuestionMeta> := map[];
    var i := 0;
    while i < |steps|
      invariant 0 <= i <= |steps|
      invariant BuildLookup(steps[..i]) == Ok(lookup)
    {
      assert steps[..i + 1][..i] == steps[..i];
      var step := steps[i];
      var failure: Option<Error> := None;
      match step {
        case Raise(e) =>
          failure := Some(e);
        case Question(category, q) =>
          if !q.JObj? {
            failure := Some(ServerError(NoGet));
          } else {
            var qid := GetField(q.fields, "id");
            if Truthy(qid) {
              if !Hashable(qid) {
                failure := Some(ServerError(Unhashable));
              } else {
                lookup := lookup[qid := MetaOf(category, q.fields)];
              }
            }
          }
      }
      if failure.Some? {
        assert BuildLookup(steps[..i + 1]) == Err(failure.value);
        FailureSticks(steps, i + 1);
        return Err(failure.value);
      }
      i := i + 1;
    }
    assert steps[..i] == steps;
    return Ok(lookup);
  }

  // ---------------------------------------------------------------
  // load_chat_script
  // ---------------------------------------------------------------

  /** `item.get("id") or item.get("chat_id")` */
  function ChatIdOf(item: map<string, Json>): Json {
    Or(GetField(item, "id"), GetField(item, "chat_id"))
  }

  /** `item.get("text") or item.get("question") or item.get("question_text")` */
  function ChatTextOf(item: map<string, Json>): Json {
    Or(GetField(item, "text"), Or(GetField(item, "question"), GetField(item, "question_text")))
  }

  /** One step of the loop over `intro_chat`. */
  function AddChat(acc: Result<map<Json, Json>>, item: Json): Result<map<Json, Json>> {
    if acc.Err? then acc
    else if !item.JObj? then Err(ServerError(NoGet))
    else if !Truthy(ChatIdOf(item.fields)) then acc
    else if !Hashable(ChatIdOf(item.fields)) then Err(ServerError(Unhashable))
    else Ok(acc.value[ChatIdOf(item.fields) := ChatTextOf(item.fields)])
  }

  function BuildChats(items: seq<Json>): Result<map<Json, Json>> {
    if items == [] then Ok(map[])
    else AddChat(BuildChats(items[..|items| - 1]), items[|items| - 1])
  }

  /**
   * `load_chat_script()`: chat id to its text; empty when `intro_chat` is
   * missing, empty or not a list, and every key a truthy id.
   */
  function LoadChatScript(data: Json): (r: Result<map<Json, Json>>)
    ensures data.JObj? && !(Truthy(GetField(data.fields, "intro_chat")) && GetField(data.fields, "intro_chat").JList?)
      ==> r == Ok(map[])
    ensures !data.JObj? ==> r.Err?
    ensures r.Ok? ==> forall k :: k in r.value ==> Truthy(k)
  {
    if !data.JObj? then Err(ServerError(NoGet))
    else
      var intro := GetField(data.fields, "intro_chat");
      if !(Truthy(intro) && intro.JList?) then Ok(map[])
      else
        ChatKeysTruthy(intro.items);
        BuildChats(intro.items)
  }

  lemma {:induction false} ChatKeysTruthy(items: seq<Json>)
    ensures BuildChats(items).Ok? ==> forall k :: k in BuildChats(items).value ==> Truthy(k)
    decreases |items|
  {
    if items != [] {
      ChatKeysTruthy(items[..|items| - 1]);
    }
  }

  /** An item carrying a truthy `id` is stored under it, whatever its `chat_id`. */
  lemma ChatKeyedById(items: seq<Json>)
    requires items != [] && items[|items| - 1].JObj?
    requires var last := items[|items| - 1].fields; Truthy(GetField(last, "id")) && Hashable(GetField(last, "id"))
    ensures var last := items[|items| - 1].fields;
      BuildChats(items[..|items| - 1]).Ok? ==>
        BuildChats(items) == Ok(BuildChats(items[..|items| - 1]).value[GetField(last, "id") := ChatTextOf(last)])
  {
  }

  lemma {:induction false} ChatFailureSticks(xs: seq<Json>, k: nat)
    requires k <= |xs| && BuildChats(xs[..k]).Err?
    ensures BuildChats(xs) == BuildChats(xs[..k])
    decreases |xs| - k
  {
    if k < |xs| {
      assert xs[..k + 1][..k] == xs[..k];
      ChatFailureSticks(xs, k + 1);
    } else {
      assert xs[..k] == xs;
    }
  }

  /** The loop of `load_chat_script` over the intro chat items. */
  method BuildChatScript(data: Json) returns (r: Result<map<Json, Json>>)
    ensures r == LoadChatScript(data)
  {
    if !data.JObj? {
      return Err(ServerError(NoGet));
    }
    var intro := GetField(data.fields, "intro_chat");
    if !(Truthy(intro) && intro.JList?) {
      return Ok(map[]);
    }
    var xs := intro.items;
    var lookup: map<Json, Json> := map[];
    var i := 0;
    while i < |xs|
      invariant 0 <= i <= |xs|
      invariant BuildChats(xs[..i]) == Ok(lookup)
    {
      assert xs[..i + 1][..i] == xs[..i];
      var failure: Option<Error> := None;
      if !xs[i].JObj? {
        failure := Some(ServerError(NoGet));
      } else {
        var cid := ChatIdOf(xs[i].fields);
        if Truthy(cid) {
          if !Hashable(cid) {
            failure := Some(ServerError(Unhashable));
          } else {
            lookup := lookup[cid := ChatTextOf(xs[i].fields)];
          }
        }
      }
      if failure.Some? {
        assert BuildChats(xs[..i + 1]) == Err(failure.value);
        ChatFailureSticks(xs, i + 1);
        return Err(failure.value);
      }
      i := i + 1;
    }
    assert xs[..i] == xs;
    return Ok(lookup);
  }
}
