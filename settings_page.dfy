/**
 * The settings page (frontend/src/app/dashboard/settings/page.tsx): a profile
 * form and a preferences form, filled from the loaded profile and settings,
 * edited field by field, and saved through the profile and settings hooks
 * with one shared saving flag and success / error banners.
 *
 * The two effects that copy loaded data into the forms are the methods
 * `OnProfileData` / `OnSettingsData`, run with the hook slot's data. Each
 * change event names a field of the form its input belongs to.
 */
module SettingsPage {
  import opened Common
  import ApiClient
  import opened Forms
  import UseApi

  /** The profile as the API returns it; a `None` field is `null` or absent. */
  datatype ProfileData = ProfileData(
    fullName: Option<string>, displayName: Option<string>, timezone: Option<string>,
    bio: Option<string>, occupation: Option<string>)

  /** The settings as the API returns them. */
  datatype SettingsData = SettingsData(
    theme: Option<string>, emailNotifications: Option<bool>, pushNotifications: Option<bool>,
    weeklySummaryEmail: Option<bool>, reminderTime: Option<string>, timeFormat: Option<string>,
    startWeekOn: Option<string>)

  /** `profileForm` (a `UserProfileUpdate`). */
  datatype ProfileForm = ProfileForm(
    fullName: string, displayName: string, timezone: string, bio: string, occupation: string)

  /** `settingsForm` (a `UserSettingsUpdate`). */
  datatype SettingsForm = SettingsForm(
    theme: string, emailNotifications: bool, pushNotifications: bool, weeklySummaryEmail: bool,
    reminderTime: string, timeFormat: string, startWeekOn: string)

  const InitialProfileForm := ProfileForm("", "", "UTC", "", "")

  const InitialSettingsForm := SettingsForm("system", true, false, true, "07:00", "12h", "monday")

  /** The profile form filled from loaded data: strings fall back with `||`. */
  function PopulateProfile(d: ProfileData): ProfileForm {
    ProfileForm(OrString(d.fullName, ""), OrString(d.displayName, ""), OrString(d.timezone, "UTC"),
                OrString(d.bio, ""), OrString(d.occupation, ""))
  }

  /** The settings form filled from loaded data: strings fall back with `||`, booleans with `??`. */
  function PopulateSettings(d: SettingsData): SettingsForm {
    SettingsForm(OrString(d.theme, "system"), OrBool(d.emailNotifications, true),
                 OrBool(d.pushNotifications, false), OrBool(d.weeklySummaryEmail, true),
                 OrString(d.reminderTime, "07:00"), OrString(d.timeFormat, "12h"),
                 OrString(d.startWeekOn, "monday"))
  }

  /** A stored record with every field present, as saving a form would leave it. */
  function StoredProfile(f: ProfileForm): ProfileData {
    ProfileData(Some(f.fullName), Some(f.displayName), Some(f.timezone), Some(f.bio), Some(f.occupation))
  }

  function StoredSettings(f: SettingsForm): SettingsData {
    SettingsData(Some(f.theme), Some(f.emailNotifications), Some(f.pushNotifications),
                 Some(f.weeklySummaryEmail), Some(f.reminderTime), Some(f.timeFormat), Some(f.startWeekOn))
  }

  /** The fallbacks of population are the forms' initial values. */
  lemma PopulateEmptyIsInitial()
    ensures PopulateProfile(ProfileData(None, None, None, None, None)) == InitialProfileForm
    ensures PopulateSettings(SettingsData(None, None, None, None, None, None, None)) == InitialSettingsForm
  {
  }

  /**
   * Reloading a saved profile gives the form back exactly when its timezone
   * is not empty: an empty timezone comes back as `UTC`.
   */
  lemma ProfileRoundTrip(f: ProfileForm)
    ensures PopulateProfile(StoredProfile(f)) == f <==> f.timezone != ""
    ensures f.timezone == "" ==> PopulateProfile(StoredProfile(f)).timezone == "UTC"
  {
  }

  /**
   * Reloading saved settings always keeps the three switches, `false`
   * included, and keeps the strings exactly when none of them is empty.
   */
  lemma SettingsRoundTrip(f: SettingsForm)
    ensures var g := PopulateSettings(StoredSettings(f));
            g.emailNotifications == f.emailNotifications && g.pushNotifications == f.pushNotifications &&
            g.weeklySummaryEmail == f.weeklySummaryEmail
    ensures PopulateSettings(StoredSettings(f)) == f <==>
              f.theme != "" && f.reminderTime != "" && f.timeFormat != "" && f.startWeekOn != ""
  {
  }

  /** The inputs of the profile form. */
  datatype ProfileField = FullName | DisplayName | Timezone | Bio | Occupation

  function ProfileValue(f: ProfileForm, field: ProfileField): string {
    match field
    case FullName => f.fullName
    case DisplayName => f.displayName
    case Timezone => f.timezone
    case Bio => f.bio
    case Occupation => f.occupation
  }

  /** `{ ...prev, [name]: value }` on the profile form. */
  function SetProfileValue(f: ProfileForm, field: ProfileField, value: string): (g: ProfileForm)
    ensures forall other :: ProfileValue(g, other) == if other == field then value else ProfileValue(f, other)
  {
    match field
    case FullName => f.(fullName := value)
    case DisplayName => f.(displayName := value)
    case Timezone => f.(timezone := value)
    case Bio => f.(bio := value)
    case Occupation => f.(occupation := value)
  }

  /** The checkboxes and the other inputs of the preferences form. */
  datatype FlagField = EmailNotifications | PushNotifications | WeeklySummaryEmail
  datatype TextField = Theme | ReminderTime | TimeFormat | StartWeekOn

  /** A change event of the preferences form: a checkbox reports `checked`, any other input its `value`. */
  datatype SettingsEvent = CheckboxChanged(flag: FlagField, checked: bool) | ValueChanged(text: TextField, value: string)

  function SettingsFlag(f: SettingsForm, flag: FlagField): bool {
    match flag
    case EmailNotifications => f.emailNotifications
    case PushNotifications => f.pushNotifications
    case WeeklySummaryEmail => f.weeklySummaryEmail
  }

  function SettingsText(f: SettingsForm, text: TextField): string {
    match text
    case Theme => f.theme
    case ReminderTime => f.reminderTime
    case TimeFormat => f.timeFormat
    case StartWeekOn => f.startWeekOn
  }

  /** `{ ...prev, [name]: type === "checkbox" ? checked : value }` on the preferences form. */
  function ApplySettingsEvent(f: SettingsForm, e: SettingsEvent): (g: SettingsForm)
    ensures forall flag :: SettingsFlag(g, flag) ==
              if e.CheckboxChanged? && e.flag == flag then e.checked else SettingsFlag(f, flag)
    ensures forall text :: SettingsText(g, text) ==
              if e.ValueChanged? && e.text == text then e.value else SettingsText(f, text)
  {
    match e
    case CheckboxChanged(flag, checked) =>
      (match flag
       case EmailNotifications => f.(emailNotifications := checked)
       case PushNotifications => f.(pushNotifications := checked)
       case WeeklySummaryEmail => f.(weeklySummaryEmail := checked))
    case ValueChanged(text, value) =>
      (match text
       case Theme => f.(theme := value)
       case ReminderTime => f.(reminderTime := value)
       case TimeFormat => f.(timeFormat := value)
       case StartWeekOn => f.(startWeekOn := value))
  }

  /** `isLoading`: either hook is loading; the profile section then shows its skeleton. */
  function IsLoading(profile: UseApi.AsyncState<ProfileData>, settings: UseApi.AsyncState<SettingsData>): bool
    reads profile, settings
  {
    profile.loading || settings.loading
  }

  class SettingsPageState {
    var profileForm: ProfileForm
    var settingsForm: SettingsForm
    var saving: bool
    var success: Option<string>
    var error: Option<string>

    constructor()
      ensures profileForm == InitialProfileForm && settingsForm == InitialSettingsForm
      ensures !saving && success.None? && error.None?
    {
      profileForm := InitialProfileForm;
      settingsForm := InitialSettingsForm;
      saving := false;
      success := None;
      error := None;
    }

    /**
     * Mounting the page: the mount effect runs `profile.fetch()` and
     * `settings.fetch()`, then the two populate effects see the new data.
     * With a token both requests settle, so the page is no longer loading and
     * each form holds what its request returned; without one the hooks return
     * silently and nothing changes.
     */
    method Mount(profile: UseApi.AsyncState<ProfileData>, settings: UseApi.AsyncState<SettingsData>,
                 token: Option<string>, profileCall: ApiClient.Settled<ProfileData>,
                 settingsCall: ApiClient.Settled<SettingsData>)
      modifies this, profile, settings
      ensures Truthy(token) ==> !IsLoading(profile, settings)
      ensures !Truthy(token) ==> IsLoading(profile, settings) == old(IsLoading(profile, settings))
      ensures Truthy(token) && profileCall.Resolved? ==> profileForm == PopulateProfile(profileCall.value)
      ensures Truthy(token) && settingsCall.Resolved? ==> settingsForm == PopulateSettings(settingsCall.value)
      ensures Truthy(token) && profileCall.Rejected? ==>
                profile.error == Some(ApiClient.GetApiErrorMessage(profileCall.reason, "Failed to fetch profile"))
      ensures Truthy(token) && settingsCall.Rejected? ==>
                settings.error == Some(ApiClient.GetApiErrorMessage(settingsCall.reason, "Failed to fetch settings"))
      ensures profileForm == (if profile.data.Some? then PopulateProfile(profile.data.value) else old(profileForm))
      ensures settingsForm == (if settings.data.Some? then PopulateSettings(settings.data.value) else old(settingsForm))
      ensures saving == old(saving) && success == old(success) && error == old(error)
    {
      UseApi.Fetch(profile, UseApi.Profile, token, profileCall);
      UseApi.Fetch(settings, UseApi.Settings, token, settingsCall);
      OnProfileData(profile.data);
      OnSettingsData(settings.data);
    }

    /** The effect on `profile.data`: a loaded profile replaces the profile form. */
    method OnProfileData(data: Option<ProfileData>)
      modifies this
      ensures profileForm == if data.Some? then PopulateProfile(data.value) else old(profileForm)
      ensures settingsForm == old(settingsForm) && saving == old(saving)
      ensures success == old(success) && error == old(error)
    {
      if data.Some? {
        profileForm := PopulateProfile(data.value);
      }
    }

    /** The effect on `settings.data`: loaded settings replace the preferences form. */
    method OnSettingsData(data: Option<SettingsData>)
      modifies this
      ensures settingsForm == if data.Some? then PopulateSettings(data.value) else old(settingsForm)
      ensures profileForm == old(profileForm) && saving == old(saving)
      ensures success == old(success) && error == old(error)
    {
      if data.Some? {
        settingsForm := PopulateSettings(data.value);
      }
    }

    /** `handleProfileChange`: one field takes the input's value and both banners clear. */
    method HandleProfileChange(field: ProfileField, value: string)
      modifies this
      ensures profileForm == SetProfileValue(old(profileForm), field, value)
      ensures settingsForm == old(settingsForm) && saving == old(saving)
      ensures success.None? && error.None?
    {
      profileForm := SetProfileValue(profileForm, field, value);
      success := None;
      error := None;
    }

    /** `handleSettingsChange`: one field takes the checkbox state or the value, and both banners clear. */
    method HandleSettingsChange(e: SettingsEvent)
      modifies this
      ensures settingsForm == ApplySettingsEvent(old(settingsForm), e)
      ensures profileForm == old(profileForm) && saving == old(saving)
      ensures success.None? && error.None?
    {
      settingsForm := ApplySettingsEvent(settingsForm, e);
      success := None;
      error := None;
    }

    /**
     * `handleSaveProfile`: sends the profile form through the hook; exactly
     * one banner is set, and saving ends.
     */
    method SaveProfile(hook: UseApi.AsyncState<ProfileData>, token: Option<string>,
                       call: ApiClient.Settled<ProfileData>)
      returns (r: ApiClient.Settled<ProfileData>)
      modifies this, hook
      ensures r == UseApi.AuthedCall(token, call)
      ensures r.Resolved? ==> success == Some("Profile updated successfully!") && error.None? &&
                              hook.data == Some(r.value) && !hook.loading && hook.error.None?
      ensures r.Rejected? ==> success.None? && error == Some(MessageOr(r.reason, "Failed to update profile")) &&
                              hook.data == old(hook.data) && hook.loading == old(hook.loading) &&
                              hook.error == old(hook.error)
      ensures !saving && profileForm == old(profileForm) && settingsForm == old(settingsForm)
    {
      saving := true;
      error := None;
      success := None;
      r := UseApi.UpdateRecord(hook, token, call);
      if r.Resolved? {
        success := Some("Profile updated successfully!");
      } else {
        error := Some(MessageOr(r.reason, "Failed to update profile"));
      }
      saving := false;
    }

    /** `handleSaveSettings`: the same sequence for the preferences form. */
    method SaveSettings(hook: UseApi.AsyncState<SettingsData>, token: Option<string>,
                        call: ApiClient.Settled<SettingsData>)
      returns (r: ApiClient.Settled<SettingsData>)
      modifies this, hook
      ensures r == UseApi.AuthedCall(token, call)
      ensures r.Resolved? ==> success == Some("Settings updated successfully!") && error.None? &&
                              hook.data == Some(r.value) && !hook.loading && hook.error.None?
      ensures r.Rejected? ==> success.None? && error == Some(MessageOr(r.reason, "Failed to update settings")) &&
                              hook.data == old(hook.data) && hook.loading == old(hook.loading) &&
                              hook.error == old(hook.error)
      ensures !saving && profileForm == old(profileForm) && settingsForm == old(settingsForm)
    {
      saving := true;
      error := None;
      success := None;
      r := UseApi.UpdateRecord(hook, token, call);
      if r.Resolved? {
        success := Some("Settings updated successfully!");
      } else {
        error := Some(MessageOr(r.reason, "Failed to update settings"));
      }
      saving := false;
    }
  }
}
