/**
 * The user service of the backend (backend/app/services/user_service.py):
 * the profile and settings rows of the signed-in user, and their goals with
 * the rule that a user has at most one active goal of each type.
 *
 * Request bodies are the rows `model_dump()` produces (`exclude_unset=True`
 * for updates, so only the fields the client sent); the columns the database
 * fills in on insert are an input of `CreateGoal`.
 */
module UserService {
  import opened Common
  import opened Store

  const ProfilesTable := "user_profiles"
  const SettingsTable := "user_settings"
  const GoalsTable := "user_goals"

  /** The fields a `UserGoalUpdate` may carry. */
  const GoalUpdateFields: set<string> := {"target_value", "target_unit", "is_active", "reminder_enabled"}

  /** Python truthiness of `payload.get(key)`. */
  predicate TruthyField(patch: Row, key: string) {
    key in patch &&
    match patch[key]
    case VStr(s) => s != ""
    case VInt(i) => i != 0
    case VReal(r) => r != 0.0
    case VBool(b) => b
    case VDate(_) => true
    case VTime(_) => true
    case VNull => false
  }

  /** The update that deactivates goals. */
  const Deactivate: Row := map["is_active" := VBool(false)]

  /** This user's active goals of one type. */
  function ActiveOfType(userId: string, goalType: Value): seq<Filter> {
    [Eq("user_id", VStr(userId)), Eq("goal_type", goalType), Eq("is_active", VBool(true))]
  }

  function GoalTypeOf(r: Row): Value {
    if "goal_type" in r then r["goal_type"] else VNull
  }

  /** The settings update sent: a set `reminder_time` is serialised with `isoformat()`. */
  function SettingsPayload(patch: Row): (p: Row)
    ensures p.Keys == patch.Keys
    ensures forall c :: c in patch && c != "reminder_time" ==> p[c] == patch[c]
  {
    if TruthyField(patch, "reminder_time") && patch["reminder_time"].VTime? then
      patch["reminder_time" := VStr(patch["reminder_time"].iso)]
    else patch
  }

  /** A `time` sent as `reminder_time` is stored as its ISO string; anything else is sent unchanged. */
  lemma SettingsPayloadReminder(patch: Row)
    ensures "reminder_time" in patch && patch["reminder_time"].VTime? ==>
              SettingsPayload(patch)["reminder_time"] == VStr(patch["reminder_time"].iso)
    ensures !("reminder_time" in patch && patch["reminder_time"].VTime?) ==> SettingsPayload(patch) == patch
  {
  }

  /** The goal table after `create_goal`. */
  function GoalsAfterCreate(rows: seq<Row>, userId: string, body: Row, generated: Row): seq<Row>
    requires "is_active" in body && body["is_active"].VBool? && "goal_type" in body
  {
    var kept := if body["is_active"].b then UpdateWhere(rows, ActiveOfType(userId, body["goal_type"]), Deactivate)
                else rows;
    kept + [NewGoal(userId, body, generated)]
  }

  /** The stored goal: the body with `user_id`, completed by the database's columns. */
  function NewGoal(userId: string, body: Row, generated: Row): Row {
    generated + body["user_id" := VStr(userId)]
  }

  /** The goal table after `update_goal`: the optional deactivation, then the patch. */
  function GoalsAfterUpdate(rows: seq<Row>, userId: string, goalId: string, patch: Row): seq<Row> {
    var mid := DeactivatedForUpdate(rows, userId, goalId, patch);
    UpdateWhere(mid, ById(userId, goalId), patch)
  }

  /** The rows after `update_goal`'s first step. */
  function DeactivatedForUpdate(rows: seq<Row>, userId: string, goalId: string, patch: Row): seq<Row> {
    var existing := Single(Select(rows, ById(userId, goalId)));
    if TruthyField(patch, "is_active") && existing.Some? && existing.value != map[] then
      UpdateWhere(rows, ActiveOfDeactivation(userId, GoalTypeOf(existing.value), goalId), Deactivate)
    else rows
  }

  /** The goals `update_goal` deactivates: this user's active goals of the type, except the goal itself. */
  function ActiveOfDeactivation(userId: string, goalType: Value, goalId: string): seq<Filter> {
    ActiveOfType(userId, goalType) + [Neq("id", VStr(goalId))]
  }

  /** The query of `list_goals`. */
  function ListGoalsQuery(userId: string, activeOnly: bool): Query {
    var q := OrderBy(Where(NewQuery, Eq("user_id", VStr(userId))), "created_at", true);
    if activeOnly then Where(q, Eq("is_active", VBool(true))) else q
  }

  class UserServiceState {
    const db: Database
    const userId: string

    constructor(db: Database, userId: string)
      ensures this.db == db && this.userId == userId
    {
      this.db := db;
      this.userId := userId;
    }

    /** `get_profile`: the profile row whose id is the user's id. */
    method GetProfile() returns (r: Option<Row>)
      ensures r == Single(Select(db.Rows(ProfilesTable), [Eq("id", VStr(userId))]))
    {
      r := Single(Select(db.Rows(ProfilesTable), [Eq("id", VStr(userId))]));
    }

    /** `update_profile`: writes the fields that were sent; returns the updated row. */
    method UpdateProfile(patch: Row) returns (r: Option<Row>)
      modifies db
      ensures db.Rows(ProfilesTable) == UpdateWhere(old(db.Rows(ProfilesTable)), [Eq("id", VStr(userId))], patch)
      ensures r == FirstOrNone(Updated(old(db.Rows(ProfilesTable)), [Eq("id", VStr(userId))], patch))
      ensures forall t :: t != ProfilesTable ==> db.Rows(t) == old(db.Rows(t))
    {
      var changed := db.Update(ProfilesTable, [Eq("id", VStr(userId))], patch);
      r := FirstOrNone(changed);
    }

    /** `update_last_login`: stamps `last_login_at` with the database's `now()`. */
    method UpdateLastLogin()
      modifies db
      ensures db.Rows(ProfilesTable) ==
                UpdateWhere(old(db.Rows(ProfilesTable)), [Eq("id", VStr(userId))], map["last_login_at" := VStr("now()")])
      ensures forall t :: t != ProfilesTable ==> db.Rows(t) == old(db.Rows(t))
    {
      var _ := db.Update(ProfilesTable, [Eq("id", VStr(userId))], map["last_login_at" := VStr("now()")]);
    }

    /** `get_settings`: the settings row of the user. */
    method GetSettings() returns (r: Option<Row>)
      ensures r == Single(Select(db.Rows(SettingsTable), [Eq("user_id", VStr(userId))]))
    {
      r := Single(Select(db.Rows(SettingsTable), [Eq("user_id", VStr(userId))]));
    }

    /** `update_settings`: writes the fields that were sent, a reminder time as text. */
    method UpdateSettings(patch: Row) returns (r: Option<Row>)
      modifies db
      ensures db.Rows(SettingsTable) ==
                UpdateWhere(old(db.Rows(SettingsTable)), [Eq("user_id", VStr(userId))], SettingsPayload(patch))
      ensures r == FirstOrNone(Updated(old(db.Rows(SettingsTable)), [Eq("user_id", VStr(userId))], SettingsPayload(patch)))
      ensures forall t :: t != SettingsTable ==> db.Rows(t) == old(db.Rows(t))
    {
      var payload := patch;
      if TruthyField(payload, "reminder_time") && payload["reminder_time"].VTime? {
        payload := payload["reminder_time" := VStr(payload["reminder_time"].iso)];
      }
      var changed := db.Update(SettingsTable, [Eq("user_id", VStr(userId))], payload);
      r := FirstOrNone(changed);
    }

    /** `list_goals`: builds the query by reassignment; `data or []`. */
    method ListGoals(activeOnly: bool) returns (goals: seq<Row>)
      ensures goals == Execute(db.Rows(GoalsTable), ListGoalsQuery(userId, activeOnly)).data
    {
      var query := OrderBy(Where(NewQuery, Eq("user_id", VStr(userId))), "created_at", true);
      if activeOnly {
        query := Where(query, Eq("is_active", VBool(true)));
      }
      var response := Execute(db.Rows(GoalsTable), query);
      goals := response.data;
    }

    /** `get_goal`: this user's goal with that id. */
    method GetGoal(goalId: string) returns (r: Option<Row>)
      ensures r == Single(Select(db.Rows(GoalsTable), ById(userId, goalId)))
    {
      r := Single(Select(db.Rows(GoalsTable), ById(userId, goalId)));
    }

    /** `create_goal`: an active goal first deactivates the user's active goals of its type. */
    method CreateGoal(body: Row, generated: Row) returns (row: Row)
      requires "is_active" in body && body["is_active"].VBool? && "goal_type" in body
      modifies db
      ensures row == NewGoal(userId, body, generated)
      ensures db.Rows(GoalsTable) == GoalsAfterCreate(old(db.Rows(GoalsTable)), userId, body, generated)
      ensures forall t :: t != GoalsTable ==> db.Rows(t) == old(db.Rows(t))
    {
      if body["is_active"].b {
        var _ := db.Update(GoalsTable, ActiveOfType(userId, body["goal_type"]), Deactivate);
      }
      var payload := body["user_id" := VStr(userId)];
      row := generated + payload;
      db.Insert(GoalsTable, row);
    }

    /** `update_goal`: activating a goal first deactivates the other active goals of its type. */
    method UpdateGoal(goalId: string, patch: Row) returns (r: Option<Row>)
      modifies db
      ensures db.Rows(GoalsTable) == GoalsAfterUpdate(old(db.Rows(GoalsTable)), userId, goalId, patch)
      ensures r == FirstOrNone(Updated(DeactivatedForUpdate(old(db.Rows(GoalsTable)), userId, goalId, patch),
                                       ById(userId, goalId), patch))
      ensures forall t :: t != GoalsTable ==> db.Rows(t) == old(db.Rows(t))
    {
      if TruthyField(patch, "is_active") {
        var existing := GetGoal(goalId);
        if existing.Some? && existing.value != map[] {
          var _ := db.Update(GoalsTable, ActiveOfDeactivation(userId, GoalTypeOf(existing.value), goalId), Deactivate);
        }
      }
      var changed := db.Update(GoalsTable, ById(userId, goalId), patch);
      r := FirstOrNone(changed);
    }

    /** `delete_goal`: true iff one of this user's goals with that id was removed. */
    method DeleteGoal(goalId: string) returns (deleted: bool)
      modifies db
      ensures db.Rows(GoalsTable) == DeleteWhere(old(db.Rows(GoalsTable)), ById(userId, goalId))
      ensures deleted <==> Select(old(db.Rows(GoalsTable)), ById(userId, goalId)) != []
      ensures forall t :: t != GoalsTable ==> db.Rows(t) == old(db.Rows(t))
    {
      var removed := db.Delete(GoalsTable, ById(userId, goalId));
      deleted := |removed| > 0;
    }
  }

  // ------------------------------------------------------------------
  // The single-active-goal rule
  // ------------------------------------------------------------------

  /** After creating an active goal it is the user's only active goal of its type. */
  lemma CreateActiveIsOnlyActive(rows: seq<Row>, userId: string, body: Row, generated: Row)
    requires "is_active" in body && body["is_active"] == VBool(true) && "goal_type" in body
    ensures Select(GoalsAfterCreate(rows, userId, body, generated), ActiveOfType(userId, body["goal_type"])) ==
              [NewGoal(userId, body, generated)]
  {
    var fs := ActiveOfType(userId, body["goal_type"]);
    var kept := UpdateWhere(rows, fs, Deactivate);
    var g := NewGoal(userId, body, generated);
    UpdateClearsSelection(rows, fs, Deactivate, 2);
    SelectAppend(kept, [g], fs);
    assert Passes(g, fs[0]) && Passes(g, fs[1]) && Passes(g, fs[2]);
    assert Select([g], fs) == [g];
  }

  /** Creating an inactive goal only appends it; every goal already stored is left as it was. */
  lemma CreateInactiveKeepsGoals(rows: seq<Row>, userId: string, body: Row, generated: Row)
    requires "is_active" in body && body["is_active"] == VBool(false) && "goal_type" in body
    ensures GoalsAfterCreate(rows, userId, body, generated) == rows + [NewGoal(userId, body, generated)]
  {
  }

  /** Creating a goal changes no goal of another user or another type. */
  lemma CreateKeepsOtherGoals(rows: seq<Row>, userId: string, body: Row, generated: Row)
    requires "is_active" in body && body["is_active"].VBool? && "goal_type" in body
    ensures forall k :: 0 <= k < |rows| && !PassesAll(rows[k], ActiveOfType(userId, body["goal_type"])) ==>
              GoalsAfterCreate(rows, userId, body, generated)[k] == rows[k]
  {
  }

  /** Every stored goal has a non-null id. */
  ghost predicate IdsPresent(rows: seq<Row>) {
    forall k :: 0 <= k < |rows| ==> "id" in rows[k] && rows[k]["id"] != VNull
  }

  /** One goal through both steps of `update_goal`: deactivation, then the patch. */
  function UpdateSteps(r: Row, userId: string, goalType: Value, goalId: string, patch: Row): Row {
    var mid := if PassesAll(r, ActiveOfDeactivation(userId, goalType, goalId)) then r + Deactivate else r;
    if PassesAll(mid, ById(userId, goalId)) then mid + patch else mid
  }

  /** A goal that is active of the type after both steps is the updated goal itself. */
  lemma UpdateStepsOnlyTarget(r: Row, userId: string, goalType: Value, goalId: string, patch: Row)
    requires "id" in r && r["id"] != VNull
    requires patch.Keys <= GoalUpdateFields
    ensures var after := UpdateSteps(r, userId, goalType, goalId, patch);
            PassesAll(after, ActiveOfType(userId, goalType)) ==> "id" in after && after["id"] == VStr(goalId)
  {
    var d := ActiveOfDeactivation(userId, goalType, goalId);
    var a := ActiveOfType(userId, goalType);
    var mid := if PassesAll(r, d) then r + Deactivate else r;
    var after := UpdateSteps(r, userId, goalType, goalId, patch);
    if PassesAll(mid, ById(userId, goalId)) {
      assert Passes(mid, ById(userId, goalId)[0]);
    } else if PassesAll(r, d) {
      assert after == r + Deactivate;
      assert !Passes(after, a[2]);
    } else if PassesAll(after, a) {
      assert after == r;
      DeactivationFilters(r, userId, goalType, goalId);
    }
  }

  /** The deactivation's filters: active of the type, and a non-null id other than the goal's. */
  lemma DeactivationFilters(r: Row, userId: string, goalType: Value, goalId: string)
    ensures PassesAll(r, ActiveOfDeactivation(userId, goalType, goalId)) <==>
              PassesAll(r, ActiveOfType(userId, goalType)) && Passes(r, Neq("id", VStr(goalId)))
  {
    var d := ActiveOfDeactivation(userId, goalType, goalId);
    var a := ActiveOfType(userId, goalType);
    assert forall i :: 0 <= i < 3 ==> d[i] == a[i];
    assert d[3] == Neq("id", VStr(goalId));
  }

  /** The goal the update selects by id is not among the goals it deactivates. */
  lemma TargetNotDeactivated(r: Row, userId: string, goalType: Value, goalId: string)
    requires PassesAll(r, ById(userId, goalId))
    ensures !PassesAll(r, ActiveOfDeactivation(userId, goalType, goalId))
  {
    assert Passes(r, ById(userId, goalId)[0]);
    assert !Passes(r, ActiveOfDeactivation(userId, goalType, goalId)[3]);
  }

  /**
   * After `update_goal` activates an existing goal, every active goal of its
   * type that the user has carries that goal's id, and the returned goal is
   * active. (The update's fields cannot change a goal's type, owner or id.)
   */
  lemma UpdateActivateIsOnlyActive(rows: seq<Row>, userId: string, goalId: string, patch: Row)
    requires IdsPresent(rows)
    requires patch.Keys <= GoalUpdateFields && "is_active" in patch && patch["is_active"] == VBool(true)
    requires Single(Select(rows, ById(userId, goalId))).Some?
    ensures var t := GoalTypeOf(Single(Select(rows, ById(userId, goalId))).value);
            var after := GoalsAfterUpdate(rows, userId, goalId, patch);
            forall k :: 0 <= k < |after| && PassesAll(after[k], ActiveOfType(userId, t)) ==>
              "id" in after[k] && after[k]["id"] == VStr(goalId)
    ensures var changed := Updated(DeactivatedForUpdate(rows, userId, goalId, patch), ById(userId, goalId), patch);
            changed != [] && changed[0]["is_active"] == VBool(true)
  {
    var fs := ById(userId, goalId);
    var existing := Single(Select(rows, fs)).value;
    var m := FindSelected(rows, fs, existing);
    var t := GoalTypeOf(existing);
    var d := ActiveOfDeactivation(userId, t, goalId);
    var mid := UpdateWhere(rows, d, Deactivate);
    assert existing != map[] by {
      assert "id" in rows[m];
    }
    assert DeactivatedForUpdate(rows, userId, goalId, patch) == mid;
    var after := UpdateWhere(mid, fs, patch);
    forall k | 0 <= k < |after|
      ensures PassesAll(after[k], ActiveOfType(userId, t)) ==> "id" in after[k] && after[k]["id"] == VStr(goalId)
    {
      assert after[k] == UpdateSteps(rows[k], userId, t, goalId, patch);
      UpdateStepsOnlyTarget(rows[k], userId, t, goalId, patch);
    }
    SelectMembers(rows, fs);
    TargetNotDeactivated(rows[m], userId, t, goalId);
    assert mid[m] == rows[m];
    SelectMembers(mid, fs);
    assert mid[m] in Select(mid, fs);
    var changed := Updated(mid, fs, patch);
    assert |changed| > 0;
    assert changed[0] == Select(mid, fs)[0] + patch;
  }
  /** The position of a row known to be in the table. */
  lemma FindSelected(rows: seq<Row>, fs: seq<Filter>, x: Row) returns (m: nat)
    requires x in Select(rows, fs)
    ensures m < |rows| && rows[m] == x
  {
    SelectMembers(rows, fs);
    m :| 0 <= m < |rows| && rows[m] == x;
  }

  /** Updating a goal that is not this user's changes nothing and returns `None`. */
  lemma UpdateMissingGoal(rows: seq<Row>, userId: string, goalId: string, patch: Row)
    requires Select(rows, ById(userId, goalId)) == []
    ensures GoalsAfterUpdate(rows, userId, goalId, patch) == rows
    ensures FirstOrNone(Updated(DeactivatedForUpdate(rows, userId, goalId, patch), ById(userId, goalId), patch)).None?
  {
    assert DeactivatedForUpdate(rows, userId, goalId, patch) == rows;
    SelectMembers(rows, ById(userId, goalId));
    forall k | 0 <= k < |rows| ensures !PassesAll(rows[k], ById(userId, goalId)) {
      assert rows[k] in rows;
    }
    assert UpdateWhere(rows, ById(userId, goalId), patch) == rows;
  }

  /** `list_goals` returns this user's goals, only active ones when asked, newest first. */
  lemma ListGoalsSpec(rows: seq<Row>, userId: string, activeOnly: bool)
    ensures var goals := Execute(rows, ListGoalsQuery(userId, activeOnly)).data;
            (forall k :: 0 <= k < |goals| ==>
               goals[k] in rows && "user_id" in goals[k] && goals[k]["user_id"] == VStr(userId) &&
               (activeOnly ==> "is_active" in goals[k] && goals[k]["is_active"] == VBool(true))) &&
            SortedBy(goals, (r: Row) => ColText(r, "created_at"), true)
    ensures !activeOnly ==> |Execute(rows, ListGoalsQuery(userId, activeOnly)).data| ==
                              |Select(rows, [Eq("user_id", VStr(userId))])|
    ensures multiset(Execute(rows, ListGoalsQuery(userId, activeOnly)).data) ==
            multiset(Select(rows, ListGoalsQuery(userId, activeOnly).filters))
    ensures forall r :: r in rows && "user_id" in r && r["user_id"] == VStr(userId) &&
                        (activeOnly ==> "is_active" in r && r["is_active"] == VBool(true)) ==>
                        r in Execute(rows, ListGoalsQuery(userId, activeOnly)).data
  {
    var q := ListGoalsQuery(userId, activeOnly);
    ExecuteSpec(rows, q);
    ListGoalsComplete(rows, userId, activeOnly);
    var goals := Execute(rows, q).data;
    forall k | 0 <= k < |goals|
      ensures "user_id" in goals[k] && goals[k]["user_id"] == VStr(userId)
      ensures activeOnly ==> "is_active" in goals[k] && goals[k]["is_active"] == VBool(true)
    {
      assert Passes(goals[k], q.filters[0]);
      if activeOnly {
        assert Passes(goals[k], q.filters[1]);
      }
    }
    if !activeOnly {
      assert q.filters == [Eq("user_id", VStr(userId))];
      SortByLength(Select(rows, q.filters), (r: Row) => ColText(r, "created_at"), true);
    }
  }

  /** The goal list is the selection rearranged, so every goal of the user (active, when asked) is listed once per row. */
  lemma ListGoalsComplete(rows: seq<Row>, userId: string, activeOnly: bool)
    ensures multiset(Execute(rows, ListGoalsQuery(userId, activeOnly)).data) ==
            multiset(Select(rows, ListGoalsQuery(userId, activeOnly).filters))
    ensures forall r :: r in rows && "user_id" in r && r["user_id"] == VStr(userId) &&
                        (activeOnly ==> "is_active" in r && r["is_active"] == VBool(true)) ==>
                        r in Execute(rows, ListGoalsQuery(userId, activeOnly)).data
  {
    var q := ListGoalsQuery(userId, activeOnly);
    var selected := Select(rows, q.filters);
    var key := (r: Row) => ColText(r, "created_at");
    assert q.order == Some(Order("created_at", true)) && q.range.None?;
    assert Execute(rows, q).data == SortBy(selected, key, true);
    SortBySorted(selected, key, true);
    ListGoalsSelected(rows, userId, activeOnly);
    forall r | r in rows && "user_id" in r && r["user_id"] == VStr(userId) &&
               (activeOnly ==> "is_active" in r && r["is_active"] == VBool(true))
      ensures r in Execute(rows, q).data
    {
      assert r in multiset(selected);
    }
  }

  /** Every goal row of the user (active, when asked) passes the goal list's filters. */
  lemma ListGoalsSelected(rows: seq<Row>, userId: string, activeOnly: bool)
    ensures forall r :: r in rows && "user_id" in r && r["user_id"] == VStr(userId) &&
                        (activeOnly ==> "is_active" in r && r["is_active"] == VBool(true)) ==>
                        r in Select(rows, ListGoalsQuery(userId, activeOnly).filters)
  {
    var q := ListGoalsQuery(userId, activeOnly);
    SelectMembers(rows, q.filters);
    forall r | r in rows && "user_id" in r && r["user_id"] == VStr(userId) &&
               (activeOnly ==> "is_active" in r && r["is_active"] == VBool(true))
      ensures r in Select(rows, q.filters)
    {
      assert Passes(r, q.filters[0]);
      assert PassesAll(r, q.filters);
    }
  }

  /** `delete_goal` never removes another user's goal. */
  lemma DeleteKeepsOtherUsers(rows: seq<Row>, userId: string, goalId: string)
    ensures forall x :: x in rows && "user_id" in x && x["user_id"] != VStr(userId) ==>
              x in DeleteWhere(rows, ById(userId, goalId))
  {
    forall x | "user_id" in x && x["user_id"] != VStr(userId) ensures !PassesAll(x, ById(userId, goalId)) {
      assert !Passes(x, ById(userId, goalId)[1]);
    }
  }
}
