/**
 * `SettingsService`: per-user privacy and accessibility records kept in two
 * dictionaries. A user without a stored record reads the defaults; the
 * update operations store a record (materialising the defaults first) and
 * adjust related flags according to the chosen level or mode. The
 * `updated_at` timestamp is a parameter.
 */
module Settings {
  import opened Wrappers

  datatype DataSharingLevel = NoSharing | Minimal | Standard | Full {
    function Value(): string {
      match this
      case NoSharing => "none"
      case Minimal => "minimal"
      case Standard => "standard"
      case Full => "full"
    }
  }

  datatype AccessibilityMode = TextOnly | VoiceEnabled | Multimodal {
    function Value(): string {
      match this
      case TextOnly => "text_only"
      case VoiceEnabled => "voice_enabled"
      case Multimodal => "multimodal"
    }
  }

  datatype PrivacySettings = PrivacySettings(
    dataSharing: string,
    locationTracking: bool,
    healthDataSharing: bool,
    anonymizeData: bool,
    thirdPartySharing: bool,
    dataRetentionDays: int,
    updatedAt: Option<string>)

  datatype AccessibilitySettings = AccessibilitySettings(
    mode: string,
    textOnly: bool,
    voiceEnabled: bool,
    signLanguageEnabled: bool,
    hapticFeedback: bool,
    highContrast: bool,
    fontSize: string,
    screenReader: bool,
    audioDescriptions: bool,
    updatedAt: Option<string>)

  const DefaultPrivacy: PrivacySettings :=
    PrivacySettings(DataSharingLevel.Standard.Value(), true, false, true, false, 90, None)

  const DefaultAccessibility: AccessibilitySettings :=
    AccessibilitySettings(AccessibilityMode.Multimodal.Value(), false, true, true, true, true,
                          "large", false, true, None)

  /** The five flags `toggle_communication_preference` accepts, in the source's order. */
  const ValidPreferences: seq<string> :=
    ["text_only", "voice_enabled", "sign_language_enabled", "haptic_feedback", "audio_descriptions"]

  /** The value of a valid preference flag in a record. */
  function Preference(a: AccessibilitySettings, name: string): bool
    requires name in ValidPreferences
  {
    if name == "text_only" then a.textOnly
    else if name == "voice_enabled" then a.voiceEnabled
    else if name == "sign_language_enabled" then a.signLanguageEnabled
    else if name == "haptic_feedback" then a.hapticFeedback
    else a.audioDescriptions
  }

  /** `settings[name] = enabled` for one of the five valid flags. */
  function SetPreference(a: AccessibilitySettings, name: string, enabled: bool): (r: AccessibilitySettings)
    requires name in ValidPreferences
    ensures Preference(r, name) == enabled
    ensures forall other | other in ValidPreferences && other != name :: Preference(r, other) == Preference(a, other)
    ensures r.mode == a.mode && r.highContrast == a.highContrast && r.fontSize == a.fontSize
            && r.screenReader == a.screenReader && r.updatedAt == a.updatedAt
  {
    if name == "text_only" then a.(textOnly := enabled)
    else if name == "voice_enabled" then a.(voiceEnabled := enabled)
    else if name == "sign_language_enabled" then a.(signLanguageEnabled := enabled)
    else if name == "haptic_feedback" then a.(hapticFeedback := enabled)
    else a.(audioDescriptions := enabled)
  }

  datatype PrivacyUpdate = PrivacyUpdate(success: bool, message: string, settings: PrivacySettings)
  datatype AccessibilityUpdate = AccessibilityUpdate(success: bool, message: string, settings: AccessibilitySettings)
  datatype ToggleResult =
    | Toggled(preference: string, enabled: bool, message: string)
    | InvalidPreference(message: string)
  datatype AllSettings = AllSettings(privacy: PrivacySettings, accessibility: AccessibilitySettings,
                                     userId: string, timestamp: string)

  class SettingsService {
    var privacySettings: map<string, PrivacySettings>
    var accessibilitySettings: map<string, AccessibilitySettings>

    constructor ()
      ensures privacySettings == map[] && accessibilitySettings == map[]
    {
      privacySettings := map[];
      accessibilitySettings := map[];
    }

    /** `get_privacy_settings`: the stored record, or the defaults (not stored). */
    function GetPrivacySettings(userId: string): (p: PrivacySettings)
      reads this
      ensures userId in privacySettings ==> p == privacySettings[userId]
      ensures userId !in privacySettings ==>
        p.dataSharing == "standard" && p.locationTracking && !p.healthDataSharing && p.anonymizeData
        && !p.thirdPartySharing && p.dataRetentionDays == 90 && p.updatedAt.None?
    {
      if userId in privacySettings then privacySettings[userId] else DefaultPrivacy
    }

    /** `get_accessibility_settings`: the stored record, or the defaults (not stored). */
    function GetAccessibilitySettings(userId: string): (a: AccessibilitySettings)
      reads this
      ensures userId in accessibilitySettings ==> a == accessibilitySettings[userId]
      ensures userId !in accessibilitySettings ==>
        a.mode == "multimodal" && !a.textOnly && a.voiceEnabled && a.signLanguageEnabled
        && a.hapticFeedback && a.highContrast && a.fontSize == "large" && !a.screenReader
        && a.audioDescriptions && a.updatedAt.None?
    {
      if userId in accessibilitySettings then accessibilitySettings[userId] else DefaultAccessibility
    }

    /** `update_data_sharing`: NONE also switches off location tracking and both kinds of sharing. */
    method UpdateDataSharing(userId: string, level: DataSharingLevel, now: string) returns (r: PrivacyUpdate)
      modifies this
      ensures privacySettings == old(privacySettings)[userId := r.settings]
      ensures accessibilitySettings == old(accessibilitySettings)
      ensures r.success && r.message == "Data sharing updated to " + level.Value()
      ensures r.settings.dataSharing == level.Value() && r.settings.updatedAt == Some(now)
      ensures level == NoSharing ==>
        !r.settings.locationTracking && !r.settings.healthDataSharing && !r.settings.thirdPartySharing
      ensures level != NoSharing ==>
        r.settings.locationTracking == old(GetPrivacySettings(userId)).locationTracking
        && r.settings.healthDataSharing == old(GetPrivacySettings(userId)).healthDataSharing
        && r.settings.thirdPartySharing == old(GetPrivacySettings(userId)).thirdPartySharing
      ensures r.settings.anonymizeData == old(GetPrivacySettings(userId)).anonymizeData
      ensures r.settings.dataRetentionDays == old(GetPrivacySettings(userId)).dataRetentionDays
    {
      if userId !in privacySettings {
        privacySettings := privacySettings[userId := GetPrivacySettings(userId)];
      }
      var p := privacySettings[userId].(dataSharing := level.Value(), updatedAt := Some(now));
      if level == NoSharing {
        p := p.(locationTracking := false, healthDataSharing := false, thirdPartySharing := false);
      }
      privacySettings := privacySettings[userId := p];
      r := PrivacyUpdate(true, "Data sharing updated to " + level.Value(), p);
    }

    /** `update_accessibility_mode`: each mode sets its own group of flags. */
    method UpdateAccessibilityMode(userId: string, mode: AccessibilityMode, now: string) returns (r: AccessibilityUpdate)
      modifies this
      ensures accessibilitySettings == old(accessibilitySettings)[userId := r.settings]
      ensures privacySettings == old(privacySettings)
      ensures r.success && r.message == "Accessibility mode updated to " + mode.Value()
      ensures r.settings.mode == mode.Value() && r.settings.updatedAt == Some(now)
      ensures mode == TextOnly ==>
        r.settings.textOnly && !r.settings.voiceEnabled && !r.settings.audioDescriptions
        && r.settings.signLanguageEnabled == old(GetAccessibilitySettings(userId)).signLanguageEnabled
      ensures mode == VoiceEnabled ==>
        !r.settings.textOnly && r.settings.voiceEnabled && r.settings.audioDescriptions
        && r.settings.signLanguageEnabled == old(GetAccessibilitySettings(userId)).signLanguageEnabled
      ensures mode == Multimodal ==>
        !r.settings.textOnly && r.settings.voiceEnabled && r.settings.signLanguageEnabled
        && r.settings.audioDescriptions == old(GetAccessibilitySettings(userId)).audioDescriptions
      ensures var a := old(GetAccessibilitySettings(userId));
        r.settings.hapticFeedback == a.hapticFeedback && r.settings.highContrast == a.highContrast
        && r.settings.fontSize == a.fontSize && r.settings.screenReader == a.screenReader
    {
      if userId !in accessibilitySettings {
        accessibilitySettings := accessibilitySettings[userId := GetAccessibilitySettings(userId)];
      }
      var a := accessibilitySettings[userId].(mode := mode.Value(), updatedAt := Some(now));
      match mode {
        case TextOnly =>
          a := a.(textOnly := true, voiceEnabled := false, audioDescriptions := false);
        case VoiceEnabled =>
          a := a.(textOnly := false, voiceEnabled := true, audioDescriptions := true);
        case Multimodal =>
          a := a.(textOnly := false, voiceEnabled := true, signLanguageEnabled := true);
      }
      accessibilitySettings := accessibilitySettings[userId := a];
      r := AccessibilityUpdate(true, "Accessibility mode updated to " + mode.Value(), a);
    }

    /**
     * `toggle_communication_preference`: the user's record is materialised
     * first; an unknown name is refused without touching any flag, a valid
     * one sets exactly that flag.
     */
    method ToggleCommunicationPreference(userId: string, preference: string, enabled: bool, now: string)
      returns (r: ToggleResult)
      modifies this
      ensures privacySettings == old(privacySettings)
      ensures userId in accessibilitySettings
      ensures accessibilitySettings.Keys == old(accessibilitySettings).Keys + {userId}
      ensures forall u | u in old(accessibilitySettings) && u != userId ::
        accessibilitySettings[u] == old(accessibilitySettings)[u]
      ensures preference !in ValidPreferences ==>
        r == InvalidPreference("Invalid preference: " + preference)
        && accessibilitySettings[userId] == old(GetAccessibilitySettings(userId))
      ensures preference in ValidPreferences ==>
        r == Toggled(preference, enabled, preference + (if enabled then " enabled" else " disabled"))
        && accessibilitySettings[userId]
           == SetPreference(old(GetAccessibilitySettings(userId)), preference, enabled).(updatedAt := Some(now))
    {
      if userId !in accessibilitySettings {
        accessibilitySettings := accessibilitySettings[userId := GetAccessibilitySettings(userId)];
      }
      if preference !in ValidPreferences {
        return InvalidPreference("Invalid preference: " + preference);
      }
      var a := SetPreference(accessibilitySettings[userId], preference, enabled).(updatedAt := Some(now));
      accessibilitySettings := accessibilitySettings[userId := a];
      r := Toggled(preference, enabled, preference + (if enabled then " enabled" else " disabled"));
    }

    /** `get_all_settings` */
    function GetAllSettings(userId: string, now: string): (r: AllSettings)
      reads this
      ensures r.privacy == GetPrivacySettings(userId) && r.accessibility == GetAccessibilitySettings(userId)
      ensures r.userId == userId && r.timestamp == now
    {
      AllSettings(GetPrivacySettings(userId), GetAccessibilitySettings(userId), userId, now)
    }

    /** `reset_to_defaults`: both records removed, so the getters give the defaults again. */
    method ResetToDefaults(userId: string, now: string) returns (r: AllSettings)
      modifies this
      ensures privacySettings == old(privacySettings) - {userId}
      ensures accessibilitySettings == old(accessibilitySettings) - {userId}
      ensures r == AllSettings(DefaultPrivacy, DefaultAccessibility, userId, now)
      ensures GetPrivacySettings(userId) == DefaultPrivacy
      ensures GetAccessibilitySettings(userId) == DefaultAccessibility
    {
      privacySettings := privacySettings - {userId};
      accessibilitySettings := accessibilitySettings - {userId};
      r := GetAllSettings(userId, now);
    }
  }

  /** Toggling a valid flag and then reading it gives the value just set, other flags untouched. */
  lemma ToggleThenRead(a: AccessibilitySettings, name: string, enabled: bool, other: string)
    requires name in ValidPreferences && other in ValidPreferences
    ensures Preference(SetPreference(a, name, enabled), other) == if other == name then enabled else Preference(a, other)
  {
  }

  /** Toggling a flag back to its current value changes nothing. */
  lemma ToggleToSameValueIsIdentity(a: AccessibilitySettings, name: string)
    requires name in ValidPreferences
    ensures SetPreference(a, name, Preference(a, name)) == a
  {
  }
}
