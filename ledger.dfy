/**
 * The action ledger of backend/app/services/recommendation_service.py
 * (`favorite`): one `user_recommendation_actions` row per (user, career),
 * unique by the constraint of backend/app/models/user_recommendation.py.
 * Saving toggles a saved row away; dismiss and explore create or
 * overwrite the row in place.  The clock is a parameter.
 */
module ActionLedger {
  import opened Wrappers

  datatype ActionRow = ActionRow(action: string, createdAt: int, updatedAt: int)

  /** (user_id, career_profile_id), the unique key of the table. */
  type Key = (int, int)

  type Table = map<Key, ActionRow>

  /** The actions `favorite` accepts. */
  predicate IsAction(a: string) {
    a == "favorite" || a == "dismiss" || a == "saved" || a == "explore"
  }

  /** The two spellings of a saved card. */
  predicate IsSaved(a: string) { a == "favorite" || a == "saved" }

  /** Every stored action is one `favorite` accepts. */
  predicate ValidTable(t: Table) {
    forall k :: k in t ==> IsAction(t[k].action)
  }

  /**
   * `favorite` as written: saving when a dismiss or explore row exists adds
   * a second row for the same key, which the unique constraint rejects at
   * commit (an IntegrityError, so HTTP 500, with nothing written).
   */
  function FavoriteAsWritten(t: Table, profiles: set<int>, user: int, career: int, action: string, now: int)
    : (r: Result<Table>)
    ensures r.Ok? <==> (IsAction(action) && career in profiles
      && !(IsSaved(action) && (user, career) in t && !IsSaved(t[(user, career)].action)))
  {
    var k := (user, career);
    if !IsAction(action) then Err(ValueError("Unsupported action"))
    else if career !in profiles then Err(ValueError("Career profile not found"))
    else if IsSaved(action) then
      if k in t && IsSaved(t[k].action) then Ok(t - {k})
      else if k in t then Err(ServerError("duplicate key value violates unique constraint"))
      else Ok(t[k := ActionRow("favorite", now, now)])
    else if k !in t then Ok(t[k := ActionRow(action, now, now)])
    else Ok(t[k := t[k].(action := action, updatedAt := now)])
  }

  /**
   * `favorite` with the save branch overwriting an existing dismiss or
   * explore row in place, as the other actions do.
   */
  function Favorite(t: Table, profiles: set<int>, user: int, career: int, action: string, now: int)
    : (r: Result<Table>)
    ensures r.Ok? <==> IsAction(action) && career in profiles
    ensures !IsAction(action) ==> r == Err(ValueError("Unsupported action"))
    ensures IsAction(action) && career !in profiles ==> r == Err(ValueError("Career profile not found"))
    ensures r.Ok? ==> forall k :: k != (user, career) ==> (k in r.value <==> k in t) && (k in t ==> r.value[k] == t[k])
    ensures r.Ok? && IsSaved(action) ==>
      ((user, career) in r.value <==> !((user, career) in t && IsSaved(t[(user, career)].action)))
    ensures r.Ok? && (user, career) in r.value ==>
      r.value[(user, career)].action == (if IsSaved(action) then "favorite" else action)
      && r.value[(user, career)].updatedAt == now
  {
    var k := (user, career);
    if !IsAction(action) then Err(ValueError("Unsupported action"))
    else if career !in profiles then Err(ValueError("Career profile not found"))
    else if IsSaved(action) then
      if k in t && IsSaved(t[k].action) then Ok(t - {k})
      else if k in t then Ok(t[k := t[k].(action := "favorite", updatedAt := now)])
      else Ok(t[k := ActionRow("favorite", now, now)])
    else if k !in t then Ok(t[k := ActionRow(action, now, now)])
    else Ok(t[k := t[k].(action := action, updatedAt := now)])
  }

  /** Both versions store only accepted actions. */
  lemma FavoriteKeepsValid(t: Table, profiles: set<int>, user: int, career: int, action: string, now: int)
    requires ValidTable(t)
    ensures var r := Favorite(t, profiles, user, career, action, now); r.Ok? ==> ValidTable(r.value)
    ensures var r := FavoriteAsWritten(t, profiles, user, career, action, now); r.Ok? ==> ValidTable(r.value)
  {
  }

  /** Saving twice from no row returns the table to what it was: save, then unsave. */
  lemma SaveToggles(t: Table, profiles: set<int>, user: int, career: int, now1: int, now2: int)
    requires career in profiles && (user, career) !in t
    ensures var once := Favorite(t, profiles, user, career, "favorite", now1);
      once.Ok? && (user, career) in once.value && Favorite(once.value, profiles, user, career, "saved", now2) == Ok(t)
  {
    var once := t[(user, career) := ActionRow("favorite", now1, now1)];
    assert once - {(user, career)} == t;
  }

  /** Where the two differ: only when saving over a dismiss or explore row. */
  lemma AsWrittenAgrees(t: Table, profiles: set<int>, user: int, career: int, action: string, now: int)
    requires !(IsSaved(action) && (user, career) in t && !IsSaved(t[(user, career)].action))
    ensures FavoriteAsWritten(t, profiles, user, career, action, now) == Favorite(t, profiles, user, career, action, now)
  {
  }

  /** The input that shows it: a dismissed card, then saved. */
  lemma SaveAfterDismiss(profiles: set<int>, user: int, career: int, now: int)
    requires career in profiles
    ensures var t := map[(user, career) := ActionRow("dismiss", 0, 0)];
      && FavoriteAsWritten(t, profiles, user, career, "favorite", now).Err?
      && Favorite(t, profiles, user, career, "favorite", now) == Ok(map[(user, career) := ActionRow("favorite", 0, now)])
  {
    var t := map[(user, career) := ActionRow("dismiss", 0, 0)];
    assert t[(user, career) := ActionRow("favorite", 0, now)] == map[(user, career) := ActionRow("favorite", 0, now)];
  }

  /** The table, as a class whose `favorite` writes it in place. */
  class Ledger {
    var actions: Table
    var profiles: set<int>

    constructor(profiles: set<int>)
      ensures this.actions == map[] && this.profiles == profiles
    {
      this.actions := map[];
      this.profiles := profiles;
    }

    /** `favorite(db, user_id, career_id, action)`; an error writes nothing. */
    method Record(user: int, career: int, action: string, now: int) returns (r: Result<()>)
      modifies this
      ensures profiles == old(profiles)
      ensures var spec := Favorite(old(actions), old(profiles), user, career, action, now);
        && (spec.Ok? ==> r.Ok? && actions == spec.value)
        && (spec.Err? ==> r == Err(spec.error) && actions == old(actions))
    {
      if !IsAction(action) {
        return Err(ValueError("Unsupported action"));
      }
      if career !in profiles {
        return Err(ValueError("Career profile not found"));
      }
      var k := (user, career);
      if IsSaved(action) {
        if k in actions && IsSaved(actions[k].action) {
          actions := actions - {k};
          return Ok(());
        }
      }
      if k !in actions {
        actions := actions[k := ActionRow(if IsSaved(action) then "favorite" else action, now, now)];
      } else {
        var row := actions[k];
        actions := actions[k := row.(action := if IsSaved(action) then "favorite" else action, updatedAt := now)];
      }
      return Ok(());
    }
  }
}
