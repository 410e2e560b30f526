/**
 * The data hooks of the frontend (frontend/src/hooks/useApi.ts). Every hook
 * owns one slot `{data, loading, error}` with three transitions; `fetch`
 * sequences them around an API call, and the goals hook also rewrites its
 * cached list after create, update and remove.
 *
 * Awaiting the access token and the API call are inputs: the token as
 * `Option<string>` (`None` is null) and the call's outcome as a `Settled`
 * value.
 */
module UseApi {
  import opened Common
  import opened Records
  import opened ApiClient

  // ------------------------------------------------------------------
  // useAsyncState
  // ------------------------------------------------------------------

  /** The `{data, loading, error}` record of `useAsyncState`. */
  class AsyncState<T> {
    var data: Option<T>
    var loading: bool
    var error: Option<string>

    constructor(initialData: Option<T>)
      ensures data == initialData && !loading && error.None?
    {
      data := initialData;
      loading := false;
      error := None;
    }

    /** `setLoading`: start loading and clear the error; the data is kept. */
    method SetLoading()
      modifies this
      ensures data == old(data) && loading && error.None?
    {
      loading := true;
      error := None;
    }

    /** `setData`: store new data; loading ends and the error is cleared. */
    method SetData(d: T)
      modifies this
      ensures data == Some(d) && !loading && error.None?
    {
      data := Some(d);
      loading := false;
      error := None;
    }

    /** `setError`: loading ends with an error message; the previous data is kept. */
    method SetError(e: string)
      modifies this
      ensures data == old(data) && !loading && error == Some(e)
    {
      loading := false;
      error := Some(e);
    }

    /**
     * Back to an empty slot `{data: null, loading: false, error: null}`.
     * The hook defines no such transition; only the corrected reset of the
     * import page uses it.
     */
    method Clear()
      modifies this
      ensures data.None? && !loading && error.None?
    {
      data := None;
      loading := false;
      error := None;
    }
  }

  // ------------------------------------------------------------------
  // fetch
  // ------------------------------------------------------------------

  /** The hooks that fetch into a slot. */
  datatype Hook =
    | CurrentUser | Profile | Settings | Goals | Routines | ProductivityList | Summary | Chart

  /** The fallback message each hook passes to `getApiErrorMessage`. */
  function FetchFallback(h: Hook): string {
    match h
    case CurrentUser => "Failed to fetch user"
    case Profile => "Failed to fetch profile"
    case Settings => "Failed to fetch settings"
    case Goals => "Failed to fetch goals"
    case Routines => "Failed to fetch routines"
    case ProductivityList => "Failed to fetch productivity data"
    case Summary => "Failed to fetch summary"
    case Chart => "Failed to fetch chart data"
  }

  /** Only `useCurrentUser` reports a missing token; the other hooks return silently. */
  predicate ReportsMissingToken(h: Hook) {
    h == CurrentUser
  }

  /**
   * A hook's `fetch`: without a truthy token either nothing happens or the
   * slot gets `Not authenticated`; otherwise the slot is set loading and then
   * receives the data or the error message. The error is never rethrown.
   */
  method Fetch<T>(state: AsyncState<T>, h: Hook, token: Option<string>, call: Settled<T>)
    modifies state
    ensures !Truthy(token) && !ReportsMissingToken(h) ==>
              state.data == old(state.data) && state.loading == old(state.loading) && state.error == old(state.error)
    ensures !Truthy(token) && ReportsMissingToken(h) ==>
              state.data == old(state.data) && !state.loading && state.error == Some("Not authenticated")
    ensures Truthy(token) && call.Resolved? ==>
              state.data == Some(call.value) && !state.loading && state.error.None?
    ensures Truthy(token) && call.Rejected? ==>
              state.data == old(state.data) && !state.loading &&
              state.error == Some(GetApiErrorMessage(call.reason, FetchFallback(h)))
  {
    if !Truthy(token) {
      if ReportsMissingToken(h) {
        state.SetError("Not authenticated");
      }
      return;
    }
    state.SetLoading();
    match call
    case Resolved(d) => state.SetData(d);
    case Rejected(err) => state.SetError(GetApiErrorMessage(err, FetchFallback(h)));
  }

  /** What `importFile` hands back to its caller: the result, `undefined`, or a rethrown error. */
  datatype ImportReturn<T> = ReturnedResult(result: T) | ReturnedNothing | Rethrown(err: Caught)

  /**
   * `useCSVImport().importFile`: a missing token sets `Not authenticated` and
   * returns nothing; a failed upload sets the message with the `Import failed`
   * fallback and rethrows the same error.
   */
  method ImportFile<T>(state: AsyncState<T>, token: Option<string>, call: Settled<T>)
    returns (r: ImportReturn<T>)
    modifies state
    ensures !Truthy(token) ==>
              r.ReturnedNothing? && state.data == old(state.data) && !state.loading &&
              state.error == Some("Not authenticated")
    ensures Truthy(token) && call.Resolved? ==>
              r == ReturnedResult(call.value) && state.data == Some(call.value) && !state.loading && state.error.None?
    ensures Truthy(token) && call.Rejected? ==>
              r == Rethrown(call.reason) && state.data == old(state.data) && !state.loading &&
              state.error == Some(GetApiErrorMessage(call.reason, "Import failed"))
  {
    if !Truthy(token) {
      state.SetError("Not authenticated");
      return ReturnedNothing;
    }
    state.SetLoading();
    match call
    case Resolved(result) =>
      state.SetData(result);
      r := ReturnedResult(result);
    case Rejected(err) =>
      var message := GetApiErrorMessage(err, "Import failed");
      state.SetError(message);
      r := Rethrown(err);
  }

  // ------------------------------------------------------------------
  // Calls that need a token but leave the slot alone
  // ------------------------------------------------------------------

  /**
   * The `create` / `update` / `remove` callbacks of the routine and
   * productivity hooks, and the first step of every mutating callback:
   * without a truthy token they throw `Error('Not authenticated')`, otherwise
   * they settle as the API call does. No slot is an input, so none changes.
   */
  function AuthedCall<T>(token: Option<string>, call: Settled<T>): (r: Settled<T>)
    ensures !Truthy(token) ==> r.Rejected? && GetApiErrorMessage(r.reason, "") == "Not authenticated"
    ensures Truthy(token) ==> r == call
  {
    if !Truthy(token) then Rejected(ErrorValue("Not authenticated")) else call
  }

  // ------------------------------------------------------------------
  // The goal list
  // ------------------------------------------------------------------

  /** `(g) => g.id === goalId ? updated : g` over the list. */
  function ReplaceById(goals: seq<Goal>, goalId: string, updated: Goal): (r: seq<Goal>)
    ensures |r| == |goals|
  {
    if goals == [] then []
    else [if goals[0].id == goalId then updated else goals[0]] + ReplaceById(goals[1..], goalId, updated)
  }

  /** `filter((g) => g.id !== goalId)`. */
  function RemoveById(goals: seq<Goal>, goalId: string): (r: seq<Goal>)
    ensures |r| <= |goals|
  {
    if goals == [] then []
    else (if goals[0].id == goalId then [] else [goals[0]]) + RemoveById(goals[1..], goalId)
  }

  /** Only the elements with a matching id are replaced; every other element stays where it was. */
  lemma {:induction false} ReplaceByIdSpec(goals: seq<Goal>, goalId: string, updated: Goal)
    ensures forall i :: 0 <= i < |goals| ==>
              ReplaceById(goals, goalId, updated)[i] == if goals[i].id == goalId then updated else goals[i]
  {
    if goals != [] {
      ReplaceByIdSpec(goals[1..], goalId, updated);
    }
  }

  /** Removal keeps exactly the elements with another id. */
  lemma {:induction false} RemoveByIdMembers(goals: seq<Goal>, goalId: string)
    ensures forall g :: g in RemoveById(goals, goalId) <==> g in goals && g.id != goalId
  {
    if goals != [] {
      RemoveByIdMembers(goals[1..], goalId);
      assert goals == [goals[0]] + goals[1..];
    }
  }

  /** Removal keeps the order of what remains: it distributes over concatenation. */
  lemma {:induction false} RemoveByIdAppend(a: seq<Goal>, b: seq<Goal>, goalId: string)
    ensures RemoveById(a + b, goalId) == RemoveById(a, goalId) + RemoveById(b, goalId)
  {
    if a == [] {
      assert a + b == b;
    } else {
      RemoveByIdAppend(a[1..], b, goalId);
      var head := if a[0].id == goalId then [] else [a[0]];
      assert (a + b)[0] == a[0] && (a + b)[1..] == a[1..] + b;
      calc {
        RemoveById(a + b, goalId);
        head + RemoveById(a[1..] + b, goalId);
        head + (RemoveById(a[1..], goalId) + RemoveById(b, goalId));
        (head + RemoveById(a[1..], goalId)) + RemoveById(b, goalId);
      }
    }
  }

  /** A list without that id is left as it was. */
  lemma {:induction false} RemoveByIdAbsent(goals: seq<Goal>, goalId: string)
    requires forall i :: 0 <= i < |goals| ==> goals[i].id != goalId
    ensures RemoveById(goals, goalId) == goals
  {
    if goals != [] {
      RemoveByIdAbsent(goals[1..], goalId);
      assert goals == [goals[0]] + goals[1..];
    }
  }

  /** `useUserGoals().create`: after the API call, the new goal is appended to the cached list (`[]` if none). */
  method CreateGoal(state: AsyncState<seq<Goal>>, token: Option<string>, call: Settled<Goal>)
    returns (r: Settled<Goal>)
    modifies state
    ensures r == AuthedCall(token, call)
    ensures r.Resolved? ==> state.data == Some(old(state.data).GetOr([]) + [r.value]) &&
                            !state.loading && state.error.None?
    ensures r.Rejected? ==> state.data == old(state.data) && state.loading == old(state.loading) &&
                            state.error == old(state.error)
  {
    r := AuthedCall(token, call);
    if r.Resolved? {
      state.SetData(state.data.GetOr([]) + [r.value]);
    }
  }

  /** `useUserGoals().update`: the element(s) with that id are replaced by the returned goal. */
  method UpdateGoal(state: AsyncState<seq<Goal>>, token: Option<string>, goalId: string, call: Settled<Goal>)
    returns (r: Settled<Goal>)
    modifies state
    ensures r == AuthedCall(token, call)
    ensures r.Resolved? ==> state.data == Some(ReplaceById(old(state.data).GetOr([]), goalId, r.value)) &&
                            !state.loading && state.error.None?
    ensures r.Rejected? ==> state.data == old(state.data) && state.loading == old(state.loading) &&
                            state.error == old(state.error)
  {
    r := AuthedCall(token, call);
    if r.Resolved? {
      state.SetData(ReplaceById(state.data.GetOr([]), goalId, r.value));
    }
  }

  /** `useUserGoals().remove`: every element with that id is dropped once the delete call resolves. */
  method RemoveGoal(state: AsyncState<seq<Goal>>, token: Option<string>, goalId: string, call: Settled<()>)
    returns (r: Settled<()>)
    modifies state
    ensures r == AuthedCall(token, call)
    ensures r.Resolved? ==> state.data == Some(RemoveById(old(state.data).GetOr([]), goalId)) &&
                            !state.loading && state.error.None?
    ensures r.Rejected? ==> state.data == old(state.data) && state.loading == old(state.loading) &&
                            state.error == old(state.error)
  {
    r := AuthedCall(token, call);
    if r.Resolved? {
      state.SetData(RemoveById(state.data.GetOr([]), goalId));
    }
  }

  /**
   * `update` of `useUserProfile` / `useUserSettings`: a missing token throws
   * before any call; a resolved call replaces the slot's data.
   */
  method UpdateRecord<T>(state: AsyncState<T>, token: Option<string>, call: Settled<T>)
    returns (r: Settled<T>)
    modifies state
    ensures r == AuthedCall(token, call)
    ensures r.Resolved? ==> state.data == Some(r.value) && !state.loading && state.error.None?
    ensures r.Rejected? ==> state.data == old(state.data) && state.loading == old(state.loading) &&
                            state.error == old(state.error)
  {
    r := AuthedCall(token, call);
    if r.Resolved? {
      state.SetData(r.value);
    }
  }
}
