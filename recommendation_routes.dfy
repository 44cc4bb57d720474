/**
 * backend/app/api/routes/recommendation_routes.py: whose recommendations a
 * request may touch, and how the service's exceptions become HTTP codes.
 * `auth` is the id of the user the Firebase uid resolved to, if any.
 */
module RecommendationRoutes {
  import opened Wrappers
  import ActionLedger

  const NeedUser := "user_id required when not authenticated"
  const NotYours := "Not authorized for this user"

  /** The explicit id when given (`is not None`), else the authenticated user's. */
  function Requested(explicit: Option<int>, auth: Option<int>): Option<int> {
    if explicit.Some? then explicit else auth
  }

  /** The check shared by generate, latest, favorites, history and the dismissed list: 400, then 403. */
  function TargetUser(explicit: Option<int>, auth: Option<int>): (r: Result<int>)
    ensures r.Ok? <==> (explicit.Some? || auth.Some?) && (auth.None? || explicit.None? || auth == explicit)
    ensures r.Ok? ==> r.value == (if explicit.Some? then explicit.value else auth.value)
    ensures explicit.None? && auth.None? ==> r == Err(BadRequest(NeedUser))
    ensures auth.Some? && explicit.Some? && explicit != auth ==> r == Err(Forbidden(NotYours))
  {
    var target := Requested(explicit, auth);
    if target.None? then Err(BadRequest(NeedUser))
    else if auth.Some? && auth.value != target.value then Err(Forbidden(NotYours))
    else Ok(target.value)
  }

  /** An authenticated caller only ever reaches its own recommendations. */
  lemma AuthenticatedOwnOnly(explicit: Option<int>, a: int)
    ensures TargetUser(explicit, Some(a)).Ok? ==> TargetUser(explicit, Some(a)).value == a
    ensures TargetUser(explicit, Some(a)).Ok? <==> explicit.None? || explicit == Some(a)
  {
  }

  /** `career_detail` tests 403 before 400. */
  function DetailTarget(explicit: Option<int>, auth: Option<int>): (r: Result<int>)
    ensures r.Ok? ==> Requested(explicit, auth) == Some(r.value)
  {
    var target := Requested(explicit, auth);
    if auth.Some? && target.Some? && auth.value != target.value then Err(Forbidden(NotYours))
    else if target.None? then Err(BadRequest(NeedUser))
    else Ok(target.value)
  }

  /** The two orders cannot disagree: a 403 needs a target and a 400 needs none. */
  lemma DetailOrderIrrelevant(explicit: Option<int>, auth: Option<int>)
    ensures DetailTarget(explicit, auth) == TargetUser(explicit, auth)
  {
  }

  /** `payload.user_id or (user.id if user else None)`: an explicit 0 is falsy and so counts as absent. */
  function ActionTarget(explicit: Option<int>, auth: Option<int>): (r: Result<int>)
    ensures explicit.Some? && explicit.value != 0 ==> r == TargetUser(explicit, auth)
    ensures explicit == Some(0) ==> r == TargetUser(None, auth)
  {
    var target := if explicit.Some? && explicit.value != 0 then explicit else auth;
    if target.None? then Err(BadRequest(NeedUser))
    else if auth.Some? && auth.value != target.value then Err(Forbidden(NotYours))
    else Ok(target.value)
  }

  /** Where `or` and `is not None` part ways: user 0, asked for by someone else or by nobody. */
  lemma ZeroIdDiffers(a: int)
    requires a != 0
    ensures TargetUser(Some(0), Some(a)) == Err(Forbidden(NotYours))
    ensures ActionTarget(Some(0), Some(a)) == Ok(a)
    ensures TargetUser(Some(0), None) == Ok(0)
    ensures ActionTarget(Some(0), None) == Err(BadRequest(NeedUser))
  {
  }

  /** The response of `generate`: no items, or the cards. */
  function GenerateResponse<Card>(explicit: Option<int>, auth: Option<int>, generate: int -> Result<seq<Card>>)
    : (r: Result<seq<Card>>)
    ensures TargetUser(explicit, auth).Err? ==> r == Err(TargetUser(explicit, auth).error)
    ensures TargetUser(explicit, auth).Ok? ==> var out := generate(TargetUser(explicit, auth).value);
      && (out.Ok? ==> r == out)
      && (out.Err? && out.error.ValueError? ==> r == Err(NotFound(out.error.detail)))
      && (out.Err? && out.error.RuntimeError? ==> r == Err(BadRequest(out.error.detail)))
      && (out.Err? && !out.error.ValueError? && !out.error.RuntimeError? ==> r == out)
  {
    var target := TargetUser(explicit, auth);
    if target.Err? then Err(target.error)
    else
      var out := generate(target.value);
      if out.Err? then Err(MapGenerateError(out.error))
      else if out.value == [] then Ok([])
      else Ok(out.value)
  }

  /** ValueError is 404 and RuntimeError is 400; anything else propagates (HTTP 500). */
  function MapGenerateError(e: Error): (r: Error)
    ensures e.ValueError? ==> r == NotFound(e.detail) && StatusCode(r) == 404
    ensures e.RuntimeError? ==> r == BadRequest(e.detail) && StatusCode(r) == 400
    ensures !e.ValueError? && !e.RuntimeError? ==> r == e
  {
    match e
    case ValueError(d) => NotFound(d)
    case RuntimeError(d) => BadRequest(d)
    case _ => e
  }

  /** A ValueError of `favorite` is 400; anything else propagates. */
  function MapActionError(e: Error): (r: Error)
    ensures e.ValueError? ==> r == BadRequest(e.detail)
    ensures !e.ValueError? ==> r == e
  {
    if e.ValueError? then BadRequest(e.detail) else e
  }

  /**
   * `save_role` and `dismiss` as written: the target check, then `favorite` as
   * the service writes it. A save over a dismiss or explore row breaks the
   * unique key at commit, an exception the route does not map: a 500.
   */
  function RecordActionAsWritten(t: ActionLedger.Table, profiles: set<int>, explicit: Option<int>, auth: Option<int>,
                                 career: int, dismissing: bool, now: int): (r: Result<ActionLedger.Table>)
    ensures ActionTarget(explicit, auth).Err? ==> r == Err(ActionTarget(explicit, auth).error)
    ensures ActionTarget(explicit, auth).Ok? ==> var u := ActionTarget(explicit, auth).value;
      (r.Ok? <==> career in profiles && !(!dismissing && (u, career) in t && !ActionLedger.IsSaved(t[(u, career)].action)))
    ensures ActionTarget(explicit, auth).Ok? && career !in profiles ==>
      r == Err(BadRequest("Career profile not found"))
    ensures ActionTarget(explicit, auth).Ok? && career in profiles && r.Err? ==> StatusCode(r.error) == 500
    ensures r.Ok? ==> var u := ActionTarget(explicit, auth).value;
      r == ActionLedger.FavoriteAsWritten(t, profiles, u, career, if dismissing then "dismiss" else "favorite", now)
  {
    var target := ActionTarget(explicit, auth);
    if target.Err? then Err(target.error)
    else
      var out := ActionLedger.FavoriteAsWritten(t, profiles, target.value, career, if dismissing then "dismiss" else "favorite", now);
      if out.Err? then Err(MapActionError(out.error)) else out
  }

  /**
   * The corrected `save_role` and `dismiss`: the target check, then the
   * corrected `favorite` with the fixed action "favorite" or "dismiss".
   */
  function RecordAction(t: ActionLedger.Table, profiles: set<int>, explicit: Option<int>, auth: Option<int>,
                        career: int, dismissing: bool, now: int): (r: Result<ActionLedger.Table>)
    ensures ActionTarget(explicit, auth).Err? ==> r == Err(ActionTarget(explicit, auth).error)
    ensures ActionTarget(explicit, auth).Ok? ==> (r.Ok? <==> career in profiles)
    ensures ActionTarget(explicit, auth).Ok? && career !in profiles ==>
      r == Err(BadRequest("Career profile not found"))
    ensures r.Ok? ==> var u := ActionTarget(explicit, auth).value;
      r == ActionLedger.Favorite(t, profiles, u, career, if dismissing then "dismiss" else "favorite", now)
  {
    var target := ActionTarget(explicit, auth);
    if target.Err? then Err(target.error)
    else
      var out := ActionLedger.Favorite(t, profiles, target.value, career, if dismissing then "dismiss" else "favorite", now);
      if out.Err? then Err(MapActionError(out.error)) else out
  }

  /** The two routes differ only for a save over a dismiss or explore row. */
  lemma RecordActionsAgree(t: ActionLedger.Table, profiles: set<int>, explicit: Option<int>, auth: Option<int>,
                           career: int, dismissing: bool, now: int)
    requires ActionTarget(explicit, auth).Ok? ==> var u := ActionTarget(explicit, auth).value;
      !(!dismissing && (u, career) in t && !ActionLedger.IsSaved(t[(u, career)].action))
    ensures RecordActionAsWritten(t, profiles, explicit, auth, career, dismissing, now)
      == RecordAction(t, profiles, explicit, auth, career, dismissing, now)
  {
    if ActionTarget(explicit, auth).Ok? {
      var u := ActionTarget(explicit, auth).value;
      ActionLedger.AsWrittenAgrees(t, profiles, u, career, if dismissing then "dismiss" else "favorite", now);
    }
  }

  /** Dismissing always leaves a "dismiss" row for the target and career. */
  lemma DismissLeavesRow(t: ActionLedger.Table, profiles: set<int>, explicit: Option<int>, auth: Option<int>,
                         career: int, now: int)
    requires RecordAction(t, profiles, explicit, auth, career, true, now).Ok?
    ensures var u := ActionTarget(explicit, auth).value;
      var r := RecordAction(t, profiles, explicit, auth, career, true, now).value;
      (u, career) in r && r[(u, career)].action == "dismiss"
  {
  }
}
