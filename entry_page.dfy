/**
 * The manual entry page (frontend/src/app/dashboard/entry/page.tsx): one form
 * record holding the fields of a morning routine and of a productivity entry,
 * the change handler that coerces numeric inputs, the submit handler that
 * splits the form into the two create payloads, and the Reset button.
 *
 * The form is the record the page keeps in state, keyed by input name. The
 * date of `initialFormData` is computed once when the page module loads; it
 * is the constructor's `today`. The access token and the outcome of the two
 * create calls are inputs.
 */
module EntryPage {
  import opened Common
  import ApiClient
  import opened Forms
  import UseApi

  type Form = map<string, FormValue>

  /** The inputs of the routine half of the form, in payload order. */
  const RoutineKeys: set<string> := {
    "date", "wake_time", "sleep_duration_hours", "exercise_minutes", "meditation_minutes",
    "breakfast_quality", "morning_mood", "caffeine_intake", "water_intake_ml", "screen_time_before_bed"
  }

  /** The inputs of the productivity half of the form, `date` included. */
  const ProductivityKeys: set<string> := {
    "date", "productivity_score", "tasks_completed", "tasks_planned", "focus_hours",
    "distractions_count", "energy_level", "stress_level", "notes"
  }

  /** Every input of the form. */
  const FormKeys: set<string> := RoutineKeys + ProductivityKeys

  /** `initialFormData`. */
  function InitialForm(today: string): (f: Form)
    ensures f.Keys == FormKeys
  {
    map[
      "date" := Text(today), "wake_time" := Text("06:30"), "sleep_duration_hours" := Num(7.0),
      "exercise_minutes" := Num(0.0), "meditation_minutes" := Num(0.0), "breakfast_quality" := Text("good"),
      "morning_mood" := Num(5.0), "caffeine_intake" := Num(0.0), "water_intake_ml" := Num(0.0),
      "screen_time_before_bed" := Num(0.0), "productivity_score" := Num(5.0), "tasks_completed" := Num(0.0),
      "tasks_planned" := Num(0.0), "focus_hours" := Num(0.0), "distractions_count" := Num(0.0),
      "energy_level" := Num(5.0), "stress_level" := Num(5.0), "notes" := Text("")]
  }

  /** The `type` attribute of the input that changed, as far as the handler looks at it. */
  datatype InputKind = NumberInput | RangeInput | OtherInput

  /** `type === 'number' || type === 'range' ? parseFloat(value) || 0 : value`. */
  function Coerce(kind: InputKind, value: string): FormValue {
    if kind == NumberInput || kind == RangeInput then Num(ParseFloat(value).GetOr(0.0)) else Text(value)
  }

  /**
   * Numeric inputs always store a number, and unparsable text stores 0; a
   * number typed in full is stored as its value; other inputs store the raw text.
   */
  lemma CoerceSpec(kind: InputKind, value: string)
    ensures kind != OtherInput ==> Coerce(kind, value).Num?
    ensures kind != OtherInput && ParseFloat(value).None? ==> Coerce(kind, value) == Num(0.0)
    ensures kind != OtherInput && ParseFloat(value).Some? ==> Coerce(kind, value) == Num(ParseFloat(value).value)
    ensures kind == OtherInput ==> Coerce(kind, value) == Text(value)
  {
  }

  lemma CoerceNat(n: nat)
    ensures Coerce(NumberInput, NatToString(n)) == Num(n as real)
    ensures Coerce(RangeInput, NatToString(n)) == Num(n as real)
  {
    ParseFloatOfNat(n);
  }

  /** `routineData`: the ten routine fields, copied from the form. */
  function RoutinePayload(f: Form): map<string, FormValue>
    requires FormKeys <= f.Keys
  {
    map[
      "date" := f["date"], "wake_time" := f["wake_time"], "sleep_duration_hours" := f["sleep_duration_hours"],
      "exercise_minutes" := f["exercise_minutes"], "meditation_minutes" := f["meditation_minutes"],
      "breakfast_quality" := f["breakfast_quality"], "morning_mood" := f["morning_mood"],
      "caffeine_intake" := f["caffeine_intake"], "water_intake_ml" := f["water_intake_ml"],
      "screen_time_before_bed" := f["screen_time_before_bed"]]
  }

  /**
   * `productivityData`: the productivity fields copied from the form, with
   * `notes || undefined`, so empty notes leave the key out of the request body.
   */
  function ProductivityPayload(f: Form): map<string, FormValue>
    requires FormKeys <= f.Keys
  {
    if JsTruthy(f["notes"]) then ProductivityFields(f)["notes" := f["notes"]] else ProductivityFields(f)
  }

  /** The productivity fields other than `notes`, copied from the form. */
  function ProductivityFields(f: Form): (m: map<string, FormValue>)
    requires FormKeys <= f.Keys
    ensures m.Keys == ProductivityKeys - {"notes"}
    ensures forall k :: k in m ==> m[k] == f[k]
  {
    map[
      "date" := f["date"], "productivity_score" := f["productivity_score"],
      "tasks_completed" := f["tasks_completed"], "tasks_planned" := f["tasks_planned"],
      "focus_hours" := f["focus_hours"], "distractions_count" := f["distractions_count"],
      "energy_level" := f["energy_level"], "stress_level" := f["stress_level"]]
  }

  /** The routine payload carries exactly the routine fields, each as the form holds it. */
  lemma RoutinePayloadSpec(f: Form)
    requires FormKeys <= f.Keys
    ensures RoutinePayload(f).Keys == RoutineKeys
    ensures forall k :: k in RoutineKeys ==> RoutinePayload(f)[k] == f[k]
  {
  }

  /**
   * The productivity payload carries the productivity fields as the form
   * holds them, and `notes` exactly when the notes are not empty.
   */
  lemma ProductivityPayloadSpec(f: Form)
    requires FormKeys <= f.Keys
    ensures ProductivityPayload(f).Keys == if JsTruthy(f["notes"]) then ProductivityKeys else ProductivityKeys - {"notes"}
    ensures forall k :: k in ProductivityPayload(f) ==> ProductivityPayload(f)[k] == f[k]
  {
    var m := ProductivityFields(f);
    assert "notes" in ProductivityKeys;
    assert (ProductivityKeys - {"notes"}) + {"notes"} == ProductivityKeys;
    if JsTruthy(f["notes"]) {
      assert ProductivityPayload(f).Keys == m.Keys + {"notes"};
    }
  }

  /** The two payloads share only the date, and every form field goes to one of them unless it is empty notes. */
  lemma PayloadSplit(f: Form)
    requires FormKeys <= f.Keys
    ensures RoutinePayload(f).Keys * ProductivityPayload(f).Keys == {"date"}
    ensures RoutinePayload(f)["date"] == ProductivityPayload(f)["date"] == f["date"]
    ensures f["notes"] == Text("") ==> RoutinePayload(f).Keys + ProductivityPayload(f).Keys == FormKeys - {"notes"}
  {
    RoutinePayloadSpec(f);
    ProductivityPayloadSpec(f);
    KeySetsShareDate();
    var pk := ProductivityPayload(f).Keys;
    assert pk == ProductivityKeys || pk == ProductivityKeys - {"notes"};
    if f["notes"] == Text("") {
      assert !JsTruthy(f["notes"]);
      assert pk == ProductivityKeys - {"notes"};
    }
  }

  /** The two halves of the form have only the date in common. */
  lemma KeySetsShareDate()
    ensures RoutineKeys * ProductivityKeys == {"date"}
    ensures RoutineKeys * (ProductivityKeys - {"notes"}) == {"date"}
    ensures RoutineKeys + (ProductivityKeys - {"notes"}) == FormKeys - {"notes"}
  {
  }

  class EntryPageState {
    /** The date `initialFormData` was built with. */
    const today: string
    /** `initialFormData`, built once with `today`. */
    const initial: Form
    var form: Form
    var saving: bool
    var success: bool
    var error: Option<string>

    /** Every input of the page has a value in the form. */
    predicate Valid()
      reads this
    {
      FormKeys <= form.Keys && FormKeys <= initial.Keys
    }

    constructor(today: string)
      ensures this.today == today && initial == InitialForm(today) && form == initial
      ensures !saving && !success && error.None? && Valid()
    {
      this.today := today;
      initial := InitialForm(today);
      form := initial;
      saving := false;
      success := false;
      error := None;
    }

    /** `handleChange`: stores the coerced value under the input's name and clears both banners. */
    method HandleChange(name: string, value: string, kind: InputKind)
      requires Valid()
      modifies this
      ensures form == old(form)[name := Coerce(kind, value)] && Valid()
      ensures !success && error.None? && saving == old(saving)
    {
      form := form[name := Coerce(kind, value)];
      success := false;
      error := None;
    }

    /**
     * `handleSubmit`: both create calls are made with the two payloads (which
     * it returns); on success the page shows success and no error, on failure
     * the first rejection's message or `Failed to save entry`; saving ends.
     */
    method HandleSubmit(token: Option<string>, routineCall: ApiClient.Settled<()>, productivityCall: ApiClient.Settled<()>,
                        routineFirst: bool)
      returns (routineSent: map<string, FormValue>, productivitySent: map<string, FormValue>)
      requires Valid()
      modifies this
      ensures form == old(form) && !saving && Valid()
      ensures routineSent == RoutinePayload(form) && productivitySent == ProductivityPayload(form)
      ensures var all := PromiseAll(UseApi.AuthedCall(token, routineCall),
                                    UseApi.AuthedCall(token, productivityCall), routineFirst);
              (all.Resolved? ==> success && error.None?) &&
              (all.Rejected? ==> !success && error == Some(MessageOr(all.reason, "Failed to save entry")))
    {
      saving := true;
      error := None;
      success := false;
      routineSent := RoutinePayload(form);
      productivitySent := ProductivityPayload(form);
      var all := PromiseAll(UseApi.AuthedCall(token, routineCall),
                            UseApi.AuthedCall(token, productivityCall), routineFirst);
      if all.Resolved? {
        success := true;
      } else {
        error := Some(MessageOr(all.reason, "Failed to save entry"));
      }
      saving := false;
    }

    /** The timer a successful submit starts: the form returns to its initial values and success is cleared. */
    method SuccessTimerFires()
      requires Valid()
      modifies this
      ensures form == initial && !success && error == old(error) && saving == old(saving) && Valid()
    {
      form := initial;
      success := false;
    }

    /** The Reset button: the initial form, and neither banner. */
    method Reset()
      requires Valid()
      modifies this
      ensures form == initial && !success && error.None? && saving == old(saving) && Valid()
    {
      form, success, error := initial, false, None;
    }
  }

  /** Submitting without a session reports `Not authenticated`. */
  lemma SubmitWithoutToken(token: Option<string>, routineCall: ApiClient.Settled<()>, productivityCall: ApiClient.Settled<()>,
                           routineFirst: bool)
    requires !Truthy(token)
    ensures var all := PromiseAll(UseApi.AuthedCall(token, routineCall),
                                  UseApi.AuthedCall(token, productivityCall), routineFirst);
            all.Rejected? && MessageOr(all.reason, "Failed to save entry") == "Not authenticated"
  {
  }
}
