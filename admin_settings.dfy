/**
 * The admin settings page: four categories of settings edited one key at a
 * time, and a save that checks the password confirmation.
 */
module AdminSettings {
  import opened Json

  type Settings = map<string, Object>

  /** The settings the page starts with; `name` and `email` come from the signed-in user. */
  function InitialSettings(userName: string, userEmail: string): (s: Settings)
    ensures s.Keys == {"surveySettings", "notifications", "account", "appearance"}
    ensures !PasswordsMismatch(s)
  {
    map[
      "surveySettings" := map["aboveEighteenPrice" := Num(5000), "belowEighteenPrice" := Num(3000),
                              "enableAdditionalQuestions" := Bool(true), "requirePayment" := Bool(true)],
      "notifications" := map["emailNotifications" := Bool(true), "newResponseNotification" := Bool(true),
                             "paymentNotification" := Bool(true), "weeklyReportNotification" := Bool(true)],
      "account" := map["name" := Str(userName), "email" := Str(userEmail),
                       "password" := Str(""), "confirmPassword" := Str("")],
      "appearance" := map["theme" := Str("dark"), "accentColor" := Str("indigo")]]
  }

  /** `settings.account[key]`, with `undefined` read as `null`. */
  function AccountField(settings: Settings, key: string): Value
    requires "account" in settings
  {
    if key in settings["account"] then settings["account"][key] else Null
  }

  /** The save is refused: a password is being set and the confirmation differs from it. */
  predicate PasswordsMismatch(settings: Settings)
    requires "account" in settings
  {
    Truthy(AccountField(settings, "password"))
    && AccountField(settings, "password") != AccountField(settings, "confirmPassword")
  }

  class SettingsPage {
    var settings: Settings
    var isSaving: bool
    var saveSuccess: bool
    var error: string

    ghost predicate Valid()
      reads this
    {
      "account" in settings
    }

    constructor (userName: string, userEmail: string)
      ensures Valid()
      ensures settings == InitialSettings(userName, userEmail)
      ensures !isSaving && !saveSuccess && error == ""
    {
      settings := InitialSettings(userName, userEmail);
      isSaving, saveSuccess, error := false, false, "";
    }

    /** `handleSettingChange`: `{ ...prev, [category]: { ...prev[category], [setting]: value } }`. */
    method HandleSettingChange(category: string, setting: string, value: Value)
      requires Valid()
      modifies this`settings
      ensures Valid()
      ensures settings.Keys == old(settings).Keys + {category}
      ensures settings[category] == (if category in old(settings) then old(settings)[category] else map[])[setting := value]
      ensures forall c :: c in old(settings) && c != category ==> settings[c] == old(settings)[c]
    {
      var previous := if category in settings then settings[category] else map[];
      settings := settings[category := previous[setting := value]];
    }

    /** `handleSaveSettings`, after its simulated delay. */
    method HandleSaveSettings()
      requires Valid()
      modifies this`isSaving, this`saveSuccess, this`error
      ensures Valid() && !isSaving
      ensures PasswordsMismatch(settings) ==> error == "Passwords do not match" && saveSuccess == old(saveSuccess)
      ensures !PasswordsMismatch(settings) ==> error == "" && saveSuccess
    {
      isSaving := true;
      error := "";
      var password := AccountField(settings, "password");
      if Truthy(password) && password != AccountField(settings, "confirmPassword") {
        error := "Passwords do not match";
      } else {
        saveSuccess := true;
      }
      isSaving := false;
    }

    /** The timer set after a successful save, when it fires. */
    method SaveSuccessExpired()
      modifies this`saveSuccess
      ensures !saveSuccess
    {
      saveSuccess := false;
    }
  }

  /** An empty password always saves: the confirmation is not looked at. */
  lemma EmptyPasswordSaves(settings: Settings)
    requires "account" in settings && AccountField(settings, "password") == Str("")
    ensures !PasswordsMismatch(settings)
  {
  }
}
