/**
 * backend/app/services/admin_review_service.py: the admin user list
 * (search, sort column and direction, paging), the per-user review row and
 * the audit log.
 */
module AdminReview {
  import opened Wrappers
  import opened Text
  import opened Ordering

  /** A user row as the admin list shows it; names and e-mail may be NULL. */
  datatype User = User(id: int, firstname: Option<string>, lastname: Option<string>, email: Option<string>,
                       createdAt: int, lastLogin: Option<int>)

  datatype Column = CreatedAt | LastLogin | FirstName
  datatype Direction = Asc | Desc

  /** `last_login`, `name` (the first name) or, for anything else, `created_at`. */
  function SortColumn(sortBy: string): (c: Column)
    ensures c == LastLogin <==> sortBy == "last_login"
    ensures c == FirstName <==> sortBy == "name"
  {
    if sortBy == "last_login" then LastLogin else if sortBy == "name" then FirstName else CreatedAt
  }

  /** Ascending only for exactly "asc". */
  function SortDirection(sortDir: string): (d: Direction)
    ensures d == Asc <==> sortDir == "asc"
  {
    if sortDir == "asc" then Asc else Desc
  }

  /** `column.ilike(f"%{search}%")`: a NULL column matches nothing. */
  predicate ILike(column: Option<string>, search: string) {
    column.Some? && Contains(Lower(column.value), Lower(search))
  }

  /** The OR of the three substring tests, and the exact id when the search is all digits. */
  predicate Matches(u: User, search: string) {
    || ILike(u.firstname, search) || ILike(u.lastname, search) || ILike(u.email, search)
    || (IsDigitString(search) && u.id == ParseNat(search))
  }

  /** `if search:` filters; None and "" leave the table as it is. */
  function Searched(users: seq<User>, search: Option<string>): (r: seq<User>)
    ensures search.None? || search == Some("") ==> r == users
    ensures search.Some? && search.value != "" ==> forall u :: u in r <==> u in users && Matches(u, search.value)
  {
    if search.None? || search.value == "" then users else Filter(users, (u: User) => Matches(u, search.value))
  }

  /** The largest non-NULL value of a nullable column, or 0. */
  function MaxOf(users: seq<User>, value: User -> Option<int>): (m: int)
    ensures forall u :: u in users && value(u).Some? ==> value(u).value <= m
  {
    if users == [] then 0
    else
      var rest := MaxOf(users[1..], value);
      var v := value(users[0]);
      var m := if v.Some? && v.value > rest then v.value else rest;
      assert forall u :: u in users ==> u == users[0] || u in users[1..];
      m
  }

  /** A nullable column as a sort key in which NULL ranks above every value (PostgreSQL's rule). */
  function NullsHigh(users: seq<User>, value: User -> Option<int>): User -> int {
    var top := MaxOf(users, value) + 1;
    (u: User) => if value(u).Some? then value(u).value else top
  }

  /**
   * The key `order_by` sorts on.  Name order is the database collation's,
   * given as the rank `collation` of each name.
   */
  function ColumnKey(users: seq<User>, c: Column, collation: string -> int): User -> int {
    match c
    case CreatedAt => (u: User) => u.createdAt
    case LastLogin => NullsHigh(users, (u: User) => u.lastLogin)
    case FirstName => NullsHigh(users, (u: User) => if u.firstname.Some? then Some(collation(u.firstname.value)) else None)
  }

  /** `order_by(column.asc())` or `order_by(column.desc())`: a permutation sorted on the column's key. */
  function Ordered(users: seq<User>, c: Column, d: Direction, collation: string -> int): (r: seq<User>)
    ensures multiset(r) == multiset(users)
    ensures d == Asc ==> NonDecreasing(r, ColumnKey(users, c, collation))
    ensures d == Desc ==> NonIncreasing(r, ColumnKey(users, c, collation))
  {
    var key := ColumnKey(users, c, collation);
    SortAscSorted(users, key);
    SortDescSorted(users, key);
    if d == Asc then SortAsc(users, key) else SortDesc(users, key)
  }

  /** `OFFSET o LIMIT n` */
  function Window<T>(xs: seq<T>, offset: nat, limit: nat): (r: seq<T>)
    ensures |r| <= limit
    ensures forall k :: 0 <= k < |r| ==> offset + k < |xs| && r[k] == xs[offset + k]
    ensures |r| == if offset >= |xs| then 0 else if |xs| - offset < limit then |xs| - offset else limit
  {
    if offset >= |xs| then [] else if |xs| - offset <= limit then xs[offset..] else xs[offset..offset + limit]
  }

  /** `page or 1` */
  function EffectivePage(page: int): int { if page == 0 then 1 else page }

  /** `page_size or 10` */
  function EffectiveSize(pageSize: int): int { if pageSize == 0 then 10 else pageSize }

  datatype UserPage = UserPage(items: seq<User>, total: nat)

  const NegativeOffset := "OFFSET must not be negative"
  const NegativeLimit := "LIMIT must not be negative"

  /** `list_users_for_admin` */
  function ListUsers(users: seq<User>, search: Option<string>, sortBy: string, sortDir: string, page: int,
                     pageSize: int, collation: string -> int): (r: Result<UserPage>)
    ensures r.Ok? <==> (EffectivePage(page) - 1) * EffectiveSize(pageSize) >= 0 && EffectiveSize(pageSize) >= 0
    ensures r.Ok? ==> r.value.total == |Searched(users, search)|
    ensures r.Ok? ==> |r.value.items| <= EffectiveSize(pageSize)
    ensures r.Ok? ==> forall u :: u in r.value.items ==> u in Searched(users, search)
  {
    var matching := Searched(users, search);
    var ordered := Ordered(matching, SortColumn(sortBy), SortDirection(sortDir), collation);
    var size := EffectiveSize(pageSize);
    var offset := (EffectivePage(page) - 1) * size;
    if offset < 0 then Err(ServerError(NegativeOffset))
    else if size < 0 then Err(ServerError(NegativeLimit))
    else
      var items := Window(ordered, offset, size);
      assert forall u :: u in items ==> u in multiset(ordered);
      Ok(UserPage(items, |matching|))
  }

  /** The k-th user on page p is the ((p-1)·size + k)-th of the sorted, filtered list. */
  lemma PagePositions(users: seq<User>, search: Option<string>, sortBy: string, sortDir: string, page: int,
                      pageSize: int, collation: string -> int, k: nat)
    requires ListUsers(users, search, sortBy, sortDir, page, pageSize, collation).Ok?
    requires k < |ListUsers(users, search, sortBy, sortDir, page, pageSize, collation).value.items|
    ensures var ordered := Ordered(Searched(users, search), SortColumn(sortBy), SortDirection(sortDir), collation);
      var i := (EffectivePage(page) - 1) * EffectiveSize(pageSize) + k;
      0 <= i < |ordered| && ListUsers(users, search, sortBy, sortDir, page, pageSize, collation).value.items[k] == ordered[i]
  {
  }

  /** Ascending by a nullable column puts every NULL after every value; descending puts them first. */
  lemma NullsOrder(users: seq<User>, c: Column, d: Direction, collation: string -> int, i: nat, j: nat)
    requires c != CreatedAt
    requires var r := Ordered(users, c, d, collation); i < j < |r|
    ensures var r := Ordered(users, c, d, collation);
      var nullable := if c == LastLogin then (u: User) => u.lastLogin.None? else (u: User) => u.firstname.None?;
      (d == Asc && nullable(r[i]) ==> nullable(r[j])) && (d == Desc && nullable(r[j]) ==> nullable(r[i]))
  {
    var key := ColumnKey(users, c, collation);
    var r := Ordered(users, c, d, collation);
    SortAscSorted(users, key);
    SortDescSorted(users, key);
    assert r[i] in multiset(users) && r[j] in multiset(users);
  }

  // ---------------------------------------------------------------
  // Reviews and the audit log
  // ---------------------------------------------------------------

  /** The seven editable review fields, in the order the update visits them. */
  datatype Field = AiIntentSummary | EditableOutput | Tag | TagOtherText | Comment | NudgeAi | MessageToUser

  const Fields := [AiIntentSummary, EditableOutput, Tag, TagOtherText, Comment, NudgeAi, MessageToUser]

  function FieldName(f: Field): string {
    match f
    case AiIntentSummary => "ai_intent_summary"
    case EditableOutput => "editable_output"
    case Tag => "tag"
    case TagOtherText => "tag_other_text"
    case Comment => "comment"
    case NudgeAi => "nudge_ai"
    case MessageToUser => "message_to_user"
  }

  /** The seven fields of a review, or of a payload (where None means "not given"). */
  datatype ReviewText = ReviewText(aiIntentSummary: Option<string>, editableOutput: Option<string>, tag: Option<string>,
                                   tagOtherText: Option<string>, comment: Option<string>, nudgeAi: Option<string>,
                                   messageToUser: Option<string>)

  const Blank := ReviewText(None, None, None, None, None, None, None)

  function GetField(t: ReviewText, f: Field): Option<string> {
    match f
    case AiIntentSummary => t.aiIntentSummary
    case EditableOutput => t.editableOutput
    case Tag => t.tag
    case TagOtherText => t.tagOtherText
    case Comment => t.comment
    case NudgeAi => t.nudgeAi
    case MessageToUser => t.messageToUser
  }

  /** `setattr(review, field, value)` */
  function SetField(t: ReviewText, f: Field, v: Option<string>): (r: ReviewText)
    ensures GetField(r, f) == v
    ensures forall g :: g != f ==> GetField(r, g) == GetField(t, g)
  {
    match f
    case AiIntentSummary => t.(aiIntentSummary := v)
    case EditableOutput => t.(editableOutput := v)
    case Tag => t.(tag := v)
    case TagOtherText => t.(tagOtherText := v)
    case Comment => t.(comment := v)
    case NudgeAi => t.(nudgeAi := v)
    case MessageToUser => t.(messageToUser := v)
  }

  datatype Review = Review(id: int, userId: int, adminId: Option<int>, confidenceScore: Option<int>, text: ReviewText)

  datatype LogEntry = LogEntry(adminId: int, userId: int, actionType: string, fieldName: string,
                               oldValue: Option<string>, newValue: Option<string>)

  /** A field is written when the payload gives a value that differs from the stored one. */
  predicate Changed(t: ReviewText, payload: ReviewText, f: Field) {
    GetField(payload, f).Some? && GetField(payload, f) != GetField(t, f)
  }

  /** The review after the loop has visited the fields `fs`. */
  function ApplyFields(t: ReviewText, payload: ReviewText, fs: seq<Field>): ReviewText {
    if fs == [] then t
    else
      var before := ApplyFields(t, payload, fs[..|fs| - 1]);
      var f := fs[|fs| - 1];
      if Changed(before, payload, f) then SetField(before, f, GetField(payload, f)) else before
  }

  /** The audit entries the loop has written after visiting the fields `fs`. */
  function FieldLogs(t: ReviewText, payload: ReviewText, fs: seq<Field>, admin: int, u: int): seq<LogEntry> {
    if fs == [] then []
    else
      var before := ApplyFields(t, payload, fs[..|fs| - 1]);
      var f := fs[|fs| - 1];
      FieldLogs(t, payload, fs[..|fs| - 1], admin, u)
      + (if Changed(before, payload, f)
         then [LogEntry(admin, u, "update_review", FieldName(f), GetField(before, f), GetField(payload, f))]
         else [])
  }

  predicate Distinct(fs: seq<Field>) { forall i, j :: 0 <= i < j < |fs| ==> fs[i] != fs[j] }

  /** Each visited field holds the payload's value when one is given, and its old value otherwise. */
  lemma {:induction false} ApplyFieldsEach(t: ReviewText, payload: ReviewText, fs: seq<Field>)
    requires Distinct(fs)
    ensures forall f :: f in fs ==>
      GetField(ApplyFields(t, payload, fs), f) == (if GetField(payload, f).Some? then GetField(payload, f) else GetField(t, f))
    ensures forall f :: f !in fs ==> GetField(ApplyFields(t, payload, fs), f) == GetField(t, f)
    decreases |fs|
  {
    if fs != [] {
      var init := fs[..|fs| - 1];
      assert forall f :: f in fs <==> f in init || f == fs[|fs| - 1];
      ApplyFieldsEach(t, payload, init);
    }
  }

  /** The audit entry for a written field: its name, the stored value and the payload's. */
  function LogFor(t: ReviewText, payload: ReviewText, f: Field, admin: int, u: int): LogEntry {
    LogEntry(admin, u, "update_review", FieldName(f), GetField(t, f), GetField(payload, f))
  }

  /** With distinct fields the last one is compared against the value stored before the update. */
  lemma FieldLogsStep(t: ReviewText, payload: ReviewText, fs: seq<Field>, admin: int, u: int)
    requires Distinct(fs) && fs != []
    ensures var f := fs[|fs| - 1];
      FieldLogs(t, payload, fs, admin, u) == FieldLogs(t, payload, fs[..|fs| - 1], admin, u)
        + (if Changed(t, payload, f) then [LogFor(t, payload, f, admin, u)] else [])
  {
    var init := fs[..|fs| - 1];
    ApplyFieldsEach(t, payload, init);
    assert fs[|fs| - 1] !in init;
  }

  /** `entry` is the audit entry of one of the fields `fs` that the update writes. */
  predicate LogOfWritten(t: ReviewText, payload: ReviewText, fs: seq<Field>, admin: int, u: int, entry: LogEntry) {
    exists f :: f in fs && Changed(t, payload, f) && entry == LogFor(t, payload, f, admin, u)
  }

  /** Every audit entry is that of a written field. */
  lemma {:induction false} FieldLogsSound(t: ReviewText, payload: ReviewText, fs: seq<Field>, admin: int, u: int)
    requires Distinct(fs)
    ensures var logs := FieldLogs(t, payload, fs, admin, u);
      forall i :: 0 <= i < |logs| ==> LogOfWritten(t, payload, fs, admin, u, logs[i])
    decreases |fs|
  {
    if fs != [] {
      var init := fs[..|fs| - 1];
      var f := fs[|fs| - 1];
      FieldLogsSound(t, payload, init, admin, u);
      FieldLogsStep(t, payload, fs, admin, u);
      var logs0 := FieldLogs(t, payload, init, admin, u);
      var logs := FieldLogs(t, payload, fs, admin, u);
      forall i | 0 <= i < |logs| ensures LogOfWritten(t, payload, fs, admin, u, logs[i]) {
        if i < |logs0| {
          assert LogOfWritten(t, payload, init, admin, u, logs0[i]);
          var g :| g in init && Changed(t, payload, g) && logs0[i] == LogFor(t, payload, g, admin, u);
          assert g in fs && logs[i] == logs0[i];
        } else {
          assert f in fs && logs[i] == LogFor(t, payload, f, admin, u);
        }
      }
    }
  }

  /** Every written field has its audit entry. */
  lemma {:induction false} FieldLogsComplete(t: ReviewText, payload: ReviewText, fs: seq<Field>, admin: int, u: int)
    requires Distinct(fs)
    ensures forall f :: f in fs && Changed(t, payload, f) ==> LogFor(t, payload, f, admin, u) in FieldLogs(t, payload, fs, admin, u)
    decreases |fs|
  {
    if fs != [] {
      var init := fs[..|fs| - 1];
      assert forall g :: g in fs ==> g in init || g == fs[|fs| - 1];
      FieldLogsComplete(t, payload, init, admin, u);
      FieldLogsStep(t, payload, fs, admin, u);
    }
  }

  /** No field is logged twice. */
  lemma {:induction false} FieldLogsOnce(t: ReviewText, payload: ReviewText, fs: seq<Field>, admin: int, u: int)
    requires Distinct(fs)
    ensures var logs := FieldLogs(t, payload, fs, admin, u);
      forall i, j :: 0 <= i < j < |logs| ==> logs[i].fieldName != logs[j].fieldName
    decreases |fs|
  {
    if fs != [] {
      var init := fs[..|fs| - 1];
      var f := fs[|fs| - 1];
      FieldLogsOnce(t, payload, init, admin, u);
      FieldLogsSound(t, payload, init, admin, u);
      FieldLogsStep(t, payload, fs, admin, u);
      var logs0 := FieldLogs(t, payload, init, admin, u);
      forall i | 0 <= i < |logs0| ensures logs0[i].fieldName != FieldName(f) {
        assert LogOfWritten(t, payload, init, admin, u, logs0[i]);
        var g :| g in init && Changed(t, payload, g) && logs0[i] == LogFor(t, payload, g, admin, u);
        assert g != f;
      }
    }
  }

  /** `get_or_create_user_review` looks the user's review up with `.first()`. */
  function FirstReview(reviews: seq<Review>, u: int): (r: Option<nat>)
    ensures r.Some? ==> r.value < |reviews| && reviews[r.value].userId == u
    ensures r.Some? ==> forall j :: 0 <= j < r.value ==> reviews[j].userId != u
    ensures r.None? ==> forall j :: 0 <= j < |reviews| ==> reviews[j].userId != u
  {
    if reviews == [] then None
    else if reviews[0].userId == u then Some(0)
    else
      var rest := FirstReview(reviews[1..], u);
      if rest.None? then None else Some(rest.value + 1)
  }

  /** The review `.first()` finds is the one at the first position holding the user. */
  lemma FirstReviewAt(reviews: seq<Review>, u: int, idx: nat)
    requires idx < |reviews| && reviews[idx].userId == u
    requires forall j :: 0 <= j < idx ==> reviews[j].userId != u
    ensures FirstReview(reviews, u) == Some(idx)
  {
  }

  /** Python truthiness of a nullable text column. */
  predicate Filled(v: Option<string>) { v.Some? && v.value != "" }

  /** The review table and the audit log, with the ids the database hands out. */
  class AdminStore {
    var reviews: seq<Review>
    var logs: seq<LogEntry>
    var nextReviewId: int

    constructor ()
      ensures reviews == [] && logs == [] && nextReviewId == 1
    {
      reviews := [];
      logs := [];
      nextReviewId := 1;
    }

    /** `get_or_create_user_review`: the user's review whoever created it, else a blank one owned by `admin`. */
    method GetOrCreateReview(u: int, admin: int) returns (idx: nat)
      modifies this
      ensures idx < |reviews| && reviews[idx].userId == u
      ensures forall j :: 0 <= j < idx ==> reviews[j].userId != u
      ensures FirstReview(old(reviews), u).Some? ==> reviews == old(reviews) && idx == FirstReview(old(reviews), u).value
      ensures FirstReview(old(reviews), u).None? ==>
        reviews == old(reviews) + [Review(old(nextReviewId), u, Some(admin), None, Blank)] && idx == |old(reviews)|
        && nextReviewId == old(nextReviewId) + 1
      ensures FirstReview(old(reviews), u).Some? ==> nextReviewId == old(nextReviewId)
      ensures logs == old(logs)
    {
      var found := FirstReview(reviews, u);
      if found.Some? {
        return found.value;
      }
      reviews := reviews + [Review(nextReviewId, u, Some(admin), None, Blank)];
      nextReviewId := nextReviewId + 1;
      return |reviews| - 1;
    }

    /** `admin_update_review`: the field loop with its audit entries; the updated fields are returned. */
    method UpdateReview(u: int, admin: int, payload: ReviewText) returns (saved: Review)
      modifies this
      ensures var i := FirstReview(reviews, u); i.Some? && reviews[i.value] == saved
      ensures var found := FirstReview(old(reviews), u);
        var base := if found.Some? then old(reviews)[found.value] else Review(old(nextReviewId), u, Some(admin), None, Blank);
        && saved == base.(text := ApplyFields(base.text, payload, Fields))
        && reviews == (if found.Some? then old(reviews)[found.value := saved] else old(reviews) + [saved])
        && nextReviewId == (if found.Some? then old(nextReviewId) else old(nextReviewId) + 1)
        && logs == old(logs) + FieldLogs(base.text, payload, Fields, admin, u)
    {
      var idx := GetOrCreateReview(u, admin);
      var review := reviews[idx];
      var text := review.text;
      var added: seq<LogEntry> := [];
      var i := 0;
      while i < |Fields|
        invariant 0 <= i <= |Fields|
        invariant text == ApplyFields(review.text, payload, Fields[..i])
        invariant added == FieldLogs(review.text, payload, Fields[..i], admin, u)
      {
        assert Fields[..i + 1][..i] == Fields[..i];
        var f := Fields[i];
        var newVal := GetField(payload, f);
        if newVal.Some? {
          var oldVal := GetField(text, f);
          if newVal != oldVal {
            text := SetField(text, f, newVal);
            added := added + [LogEntry(admin, u, "update_review", FieldName(f), oldVal, newVal)];
          }
        }
        i := i + 1;
      }
      assert Fields[..i] == Fields;
      saved := review.(text := text);
      reviews := reviews[idx := saved];
      logs := logs + added;
      FirstReviewAt(reviews, u, idx);
    }

    /**
     * `admin_get_review`: the user's review, or a blank one that
     * `get_or_create_user_review` only flushes. The flush draws the next id,
     * but the route never commits, so the blank review is not kept. Empty
     * summaries are filled from the generators for the response only.
     */
    method GetReview(u: int, admin: int, intentSummary: string, profileSummary: string) returns (id: int, shown: ReviewText)
      modifies this
      ensures var found := FirstReview(old(reviews), u);
        var base := if found.Some? then old(reviews)[found.value] else Review(old(nextReviewId), u, Some(admin), None, Blank);
        && id == base.id
        && shown == base.text.(
             aiIntentSummary := if Filled(base.text.aiIntentSummary) then base.text.aiIntentSummary else Some(intentSummary),
             editableOutput := if Filled(base.text.editableOutput) then base.text.editableOutput else Some(profileSummary))
        && nextReviewId == (if found.Some? then old(nextReviewId) else old(nextReviewId) + 1)
      ensures FirstReview(old(reviews), u).None? ==>
        shown == Blank.(aiIntentSummary := Some(intentSummary), editableOutput := Some(profileSummary))
      ensures reviews == old(reviews) && logs == old(logs)
    {
      var found := FirstReview(reviews, u);
      var review: Review;
      if found.Some? {
        review := reviews[found.value];
      } else {
        review := Review(nextReviewId, u, Some(admin), None, Blank);
        nextReviewId := nextReviewId + 1;
      }
      var intent := review.text.aiIntentSummary;
      var output := review.text.editableOutput;
      if !Filled(intent) {
        intent := Some(intentSummary);
      }
      if !Filled(output) {
        output := Some(profileSummary);
      }
      id := review.id;
      shown := review.text.(aiIntentSummary := intent, editableOutput := output);
    }
  }

  /** The update writes exactly the payload's given fields and leaves id, user, admin and score alone. */
  lemma UpdateFieldwise(r: Review, payload: ReviewText, admin: int)
    ensures var s := r.(text := ApplyFields(r.text, payload, Fields));
      && s.id == r.id && s.userId == r.userId && s.adminId == r.adminId && s.confidenceScore == r.confidenceScore
      && (forall f :: GetField(s.text, f) == if GetField(payload, f).Some? then GetField(payload, f) else GetField(r.text, f))
      && (forall f :: GetField(payload, f).None? ==> GetField(s.text, f) == GetField(r.text, f))
  {
    assert Distinct(Fields);
    ApplyFieldsEach(r.text, payload, Fields);
    forall f ensures f in Fields { }
  }

  /** An update whose payload repeats the stored values writes nothing to the log. */
  lemma {:induction false} UnchangedNotLogged(t: ReviewText, payload: ReviewText, fs: seq<Field>, admin: int, u: int)
    requires Distinct(fs)
    requires forall f :: GetField(payload, f).Some? ==> GetField(payload, f) == GetField(t, f)
    ensures FieldLogs(t, payload, fs, admin, u) == []
    decreases |fs|
  {
    if fs != [] {
      UnchangedNotLogged(t, payload, fs[..|fs| - 1], admin, u);
      FieldLogsStep(t, payload, fs, admin, u);
    }
  }
}

/**
 * backend/app/api/routes/admin_routes.py: the admin user list endpoint
 * (combined sort values, total pages) and the single-user lookup.
 */
module AdminRoutes {
  import opened Wrappers
  import opened AdminReview

  /** The combined `sort_by` values; anything else is newest-created first. */
  function DecodeSort(sortBy: string): (r: (string, string))
    ensures sortBy == "created_at_asc" ==> r == ("created_at", "asc")
    ensures sortBy == "last_login_desc" ==> r == ("last_login", "desc")
    ensures sortBy == "last_login_asc" ==> r == ("last_login", "asc")
    ensures sortBy !in {"created_at_asc", "last_login_desc", "last_login_asc"} ==> r == ("created_at", "desc")
  {
    if sortBy == "created_at_desc" then ("created_at", "desc")
    else if sortBy == "created_at_asc" then ("created_at", "asc")
    else if sortBy == "last_login_desc" then ("last_login", "desc")
    else if sortBy == "last_login_asc" then ("last_login", "asc")
    else ("created_at", "desc")
  }

  /** Whatever the value, the service receives a column it sorts by and a direction it knows. */
  lemma DecodedSortIsKnown(sortBy: string)
    ensures var (field, dir) := DecodeSort(sortBy);
      SortColumn(field) == (if field == "last_login" then LastLogin else CreatedAt) && SortColumn(field) != FirstName
      && (SortDirection(dir) == Asc <==> sortBy in {"created_at_asc", "last_login_asc"})
  {
  }

  /** `math.ceil(a / b)` for a non-zero `b`. */
  function CeilDiv(a: nat, b: int): (q: int)
    requires b != 0
    ensures b > 0 ==> q * b >= a && (q - 1) * b < a
  {
    if b > 0 then (a + b - 1) / b else -(a / -b)
  }

  datatype ListPage = ListPage(items: seq<User>, page: int, pageSize: int, total: nat, totalPages: int)

  const ZeroDivision := "ZeroDivisionError: division by zero"

  /** `admin_list_users` as written: total pages divide by the page size as given. */
  function ListUsersAsWritten(users: seq<User>, search: Option<string>, sortBy: string, page: int, pageSize: int,
                              collation: string -> int): (r: Result<ListPage>)
    ensures r.Ok? ==> pageSize != 0
  {
    var (field, dir) := DecodeSort(sortBy);
    var results := ListUsers(users, search, field, dir, page, pageSize, collation);
    if results.Err? then Err(results.error)
    else if pageSize == 0 then Err(ServerError(ZeroDivision))
    else Ok(ListPage(results.value.items, page, pageSize, results.value.total, CeilDiv(results.value.total, pageSize)))
  }

  /** With `page_size=0` the service pages by 10 but the route then divides by zero. */
  lemma ZeroPageSizeFails(users: seq<User>, collation: string -> int)
    ensures ListUsers(users, None, "created_at", "desc", 1, 0, collation).Ok?
    ensures ListUsersAsWritten(users, None, "created_at_desc", 1, 0, collation) == Err(ServerError(ZeroDivision))
  {
  }

  /** `admin_list_users` with the total pages counted in the page size the service used. */
  function ListUsersRoute(users: seq<User>, search: Option<string>, sortBy: string, page: int, pageSize: int,
                          collation: string -> int): (r: Result<ListPage>)
    ensures var (field, dir) := DecodeSort(sortBy);
      r.Ok? <==> ListUsers(users, search, field, dir, page, pageSize, collation).Ok?
    ensures r.Ok? ==> var size := EffectiveSize(r.value.pageSize);
      r.value.totalPages * size >= r.value.total && (r.value.totalPages - 1) * size < r.value.total
    ensures r.Ok? ==> var (field, dir) := DecodeSort(sortBy);
      var results := ListUsers(users, search, field, dir, page, pageSize, collation);
      && r.value.items == results.value.items && r.value.total == results.value.total
      && r.value.page == page && r.value.pageSize == pageSize
      && r.value.totalPages == CeilDiv(results.value.total, EffectiveSize(pageSize))
  {
    var (field, dir) := DecodeSort(sortBy);
    var results := ListUsers(users, search, field, dir, page, pageSize, collation);
    if results.Err? then Err(results.error)
    else
      var size := EffectiveSize(pageSize);
      assert size > 0;
      Ok(ListPage(results.value.items, page, pageSize, results.value.total, CeilDiv(results.value.total, size)))
  }

  /** Both agree whenever a page size is given. */
  lemma RoutesAgree(users: seq<User>, search: Option<string>, sortBy: string, page: int, pageSize: int,
                    collation: string -> int)
    requires pageSize != 0
    ensures ListUsersAsWritten(users, search, sortBy, page, pageSize, collation)
         == ListUsersRoute(users, search, sortBy, page, pageSize, collation)
  {
  }

  /** `admin_get_user`: the user, or 404. */
  function GetUser(users: seq<User>, id: int): (r: Result<User>)
    ensures r.Ok? <==> exists u :: u in users && u.id == id
    ensures r.Ok? ==> r.value in users && r.value.id == id
    ensures r.Err? ==> r.error == NotFound("User not found")
  {
    if users == [] then Err(NotFound("User not found"))
    else if users[0].id == id then Ok(users[0])
    else
      var rest := GetUser(users[1..], id);
      assert forall u :: u in users[1..] ==> u in users;
      assert forall u :: u in users ==> u == users[0] || u in users[1..];
      rest
  }
}
