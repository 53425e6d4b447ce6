/**
 * The settings page: the profile form filled in from the profile, the
 * change-password guard, and the notification and dark-mode toggles, which go
 * through the settings hook.
 */
module SettingsPage {
  import opened Js
  import opened Validation
  import opened SettingsHook

  /** The five fields of the profile form. */
  const ProfileFormKeys: set<string> := {"firstName", "lastName", "email", "phone", "bio"}

  /** `{firstName: profile.firstName || '', ...}` over the five form fields. */
  function ProfileFormOf(profile: Record): (r: Record)
    ensures r.Keys == ProfileFormKeys
    ensures forall k :: k in r ==> r[k] == ValueOr(Get(profile, k), Str(""))
  {
    map k | k in ProfileFormKeys :: ValueOr(Get(profile, k), Str(""))
  }

  /** A field the profile has, with a truthy value, is copied; any other field is blank. */
  lemma ProfileFormFields(profile: Record, k: string)
    requires k in ProfileFormKeys
    ensures k in profile && Truthy(profile[k]) ==> ProfileFormOf(profile)[k] == profile[k]
    ensures !(k in profile && Truthy(profile[k])) ==> ProfileFormOf(profile)[k] == Str("")
    ensures "photoUrl" !in ProfileFormOf(profile)
  {
  }

  /** The change-password form. */
  datatype PasswordForm = PasswordForm(currentPassword: string, newPassword: string, confirmPassword: string)

  const EmptyPasswordForm := PasswordForm("", "", "")

  /** The alert `handlePasswordSubmit` ends with. */
  datatype PasswordAlert = Mismatch | TooShort | Changed | ChangeFailed(error: Option<string>)

  /** The guard in front of `changePassword`: mismatch is reported first, then a short password. */
  function PasswordGuard(form: PasswordForm): (r: Option<PasswordAlert>)
    ensures r == Some(Mismatch) <==> form.newPassword != form.confirmPassword
    ensures r == Some(TooShort) <==> form.newPassword == form.confirmPassword && Utf16Length(form.newPassword) < 8
    ensures r == None <==> form.newPassword == form.confirmPassword && Utf16Length(form.newPassword) >= 8
  {
    if form.newPassword != form.confirmPassword then Some(Mismatch)
    else if Utf16Length(form.newPassword) < 8 then Some(TooShort)
    else None
  }

  /** The page checks only the length: eight lowercase letters pass here,
      although the sign-up rules reject them for lacking an uppercase letter. */
  lemma GuardWeakerThanSignupRules()
    ensures PasswordGuard(PasswordForm("", "aaaaaaaa", "aaaaaaaa")) == None
    ensures FirstFailedRule("aaaaaaaa") == Some(UppercaseMessage)
  {
    var p := "aaaaaaaa";
    assert forall k :: 0 <= k < |p| ==> p[k] as int < 0x10000;
    Utf16LengthBmp(p);
    assert !HasUpper(p) by {
      forall k | 0 <= k < |p| ensures !IsAsciiUpper(p[k]) {
        assert p[k] == 'a';
      }
    }
  }

  /** Every password the sign-up rules accept passes the page's guard when confirmed. */
  lemma SignupRulesImplyGuard(password: string, current: string)
    requires FirstFailedRule(password) == None
    ensures PasswordGuard(PasswordForm(current, password, password)) == None
  {
  }

  /** `{...record, [key]: !record[key]}`, where `!undefined` is `true`. */
  function Toggled(record: Record, key: string): (r: Record)
    ensures r.Keys == record.Keys + {key}
    ensures r[key] == Bool(!(key in record && Truthy(record[key])))
    ensures forall k :: k in record && k != key ==> r[k] == record[k]
  {
    record[key := Bool(!(key in record && Truthy(record[key])))]
  }

  /** Toggling a boolean key twice restores the record. */
  lemma ToggleTwiceRestores(record: Record, key: string)
    requires key in record && record[key].Bool?
    ensures Toggled(Toggled(record, key), key) == record
  {
    var r := Toggled(Toggled(record, key), key);
    assert r.Keys == record.Keys;
    assert forall k :: k in r ==> r[k] == record[k];
  }

  class SettingsPageState {
    const hook: SettingsState
    var profileForm: Record
    var passwordForm: PasswordForm
    var preferencesForm: Record

    constructor (h: SettingsState)
      ensures hook == h
      ensures profileForm == map k | k in ProfileFormKeys :: Str("")
      ensures passwordForm == EmptyPasswordForm
      ensures preferencesForm == map["currency" := Str("INR"), "dateFormat" := Str("DD/MM/YYYY"),
        "timezone" := Str("Asia/Kolkata"), "darkMode" := Bool(false)]
    {
      hook := h;
      profileForm := map k | k in ProfileFormKeys :: Str("");
      passwordForm := EmptyPasswordForm;
      preferencesForm := map["currency" := Str("INR"), "dateFormat" := Str("DD/MM/YYYY"),
        "timezone" := Str("Asia/Kolkata"), "darkMode" := Bool(false)];
    }

    /** The two effects that follow the hook: the profile form from the profile,
        the preferences form from the preferences. */
    method SyncForms()
      modifies this
      ensures profileForm == ProfileFormOf(hook.profile) && preferencesForm == hook.preferences
      ensures passwordForm == old(passwordForm)
    {
      profileForm := ProfileFormOf(hook.profile);
      preferencesForm := hook.preferences;
    }

    /**
     * `handlePasswordSubmit`, given whether `changePassword` succeeds and its
     * error. `changePassword` is called, with the form, only past the guard;
     * a success clears all three fields.
     */
    method HandlePasswordSubmit(succeeded: bool, failure: Option<string>)
      returns (called: Option<PasswordForm>, alert: PasswordAlert)
      modifies this
      ensures called.Some? <==> (old(passwordForm).newPassword == old(passwordForm).confirmPassword &&
        Utf16Length(old(passwordForm).newPassword) >= 8)
      ensures called.Some? ==> called.value == old(passwordForm)
      ensures called.None? ==> Some(alert) == PasswordGuard(old(passwordForm)) && passwordForm == old(passwordForm)
      ensures called.Some? && succeeded ==> alert == Changed && passwordForm == EmptyPasswordForm
      ensures called.Some? && !succeeded ==> alert == ChangeFailed(failure) && passwordForm == old(passwordForm)
      ensures profileForm == old(profileForm) && preferencesForm == old(preferencesForm)
    {
      var guard := PasswordGuard(passwordForm);
      if guard.Some? {
        return None, guard.value;
      }
      called := Some(passwordForm);
      if succeeded {
        alert := Changed;
        passwordForm := EmptyPasswordForm;
      } else {
        alert := ChangeFailed(failure);
      }
    }

    /** `handleNotificationToggle(key)`: asks the hook for the toggled settings;
        they are kept whether or not the server accepts them. */
    method HandleNotificationToggle(key: string, outcome: Outcome<Record>)
      modifies hook
      ensures outcome.Resolved? ==> hook.notifications == outcome.value
      ensures outcome.Threw? ==> hook.notifications == Toggled(old(hook.notifications), key)
      ensures hook.profile == old(hook.profile) && hook.preferences == old(hook.preferences)
      ensures hook.connectedAccounts == old(hook.connectedAccounts)
      ensures hook.loading == old(hook.loading) && hook.error == old(hook.error)
    {
      var newNotifications := Toggled(hook.notifications, key);
      var _ := hook.UpdateNotifications(newNotifications, outcome);
    }

    /** `handleDarkModeToggle`: only `darkMode` flips in the form, and the hook is
        asked to store the new preferences. */
    method HandleDarkModeToggle(outcome: Outcome<Record>)
      modifies this, hook
      ensures preferencesForm == Toggled(old(preferencesForm), "darkMode")
      ensures outcome.Resolved? ==> hook.preferences == outcome.value
      ensures outcome.Threw? ==> hook.preferences == preferencesForm
      ensures profileForm == old(profileForm) && passwordForm == old(passwordForm)
      ensures hook.profile == old(hook.profile) && hook.notifications == old(hook.notifications)
      ensures hook.connectedAccounts == old(hook.connectedAccounts)
      ensures hook.loading == old(hook.loading) && hook.error == old(hook.error)
    {
      var newPrefs := Toggled(preferencesForm, "darkMode");
      preferencesForm := newPrefs;
      var _ := hook.UpdatePreferences(newPrefs, outcome);
    }
  }
}
