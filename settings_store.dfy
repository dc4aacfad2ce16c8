// The settings store: the settings record, the rate-provider and Telegram
// credentials, hydration from loaded data (with the mapping of the legacy
// fixer fields onto the provider-based ones), and the setters that persist
// to the config table. Language switching and the retranslation of default
// catalog names are reported as flags.

module SettingsStore {
  import opened Common
  import opened Schema
  import Database

  /** The parts of loaded app data the store reads; None is `undefined`. */
  datatype HydrateInput = HydrateInput(
    settings: Option<Settings>, ratesApiKey: Option<string>, ratesProvider: Option<string>,
    fixerApiKey: Option<string>, fixerProvider: Option<int>,
    telegramBotToken: Option<string>, telegramChatId: Option<string>, telegramEnabled: Option<bool>)

  /** The rates key after hydration: the new key when given, else a
      non-empty legacy fixer key, else the current one. */
  function HydratedRatesKey(current: string, d: HydrateInput): (k: string)
    ensures d.ratesApiKey.Some? ==> k == d.ratesApiKey.value
    ensures d.ratesApiKey.None? && d.fixerApiKey.Some? && d.fixerApiKey.value != "" ==> k == d.fixerApiKey.value
    ensures d.ratesApiKey.None? && (d.fixerApiKey.None? || d.fixerApiKey.value == "") ==> k == current
  {
    if d.ratesApiKey.Some? then d.ratesApiKey.value
    else if d.fixerApiKey.Some? && d.fixerApiKey.value != "" then d.fixerApiKey.value
    else current
  }

  /** The provider after hydration: the new provider when given, else the
      one the legacy fixer flag names (1 is apilayer), else the current. */
  function HydratedProvider(current: string, d: HydrateInput): (p: string)
    ensures d.ratesProvider.Some? ==> p == d.ratesProvider.value
    ensures d.ratesProvider.None? && d.fixerProvider == Some(1) ==> p == "apilayer"
    ensures d.ratesProvider.None? && d.fixerProvider.Some? && d.fixerProvider.value != 1 ==> p == "fixer"
    ensures d.ratesProvider.None? && d.fixerProvider.None? ==> p == current
  {
    if d.ratesProvider.Some? then d.ratesProvider.value
    else if d.fixerProvider.Some? then (if d.fixerProvider.value == 1 then "apilayer" else "fixer")
    else current
  }

  /** A partial settings update; None leaves a field as it is. */
  datatype SettingsPatch = SettingsPatch(
    language: Option<string>, mainCurrencyId: Option<string>, defaultCategoryId: Option<string>,
    defaultPaymentMethodId: Option<string>, notifyDaysBefore: Option<int>, notificationTitle: Option<string>,
    notificationBodyDueToday: Option<string>, notificationBodyDueSoon: Option<string>,
    notificationOverdueTitle: Option<string>, notificationOverdueBody: Option<string>,
    notificationSchedule: Option<string>, notificationCustomHour: Option<int>,
    recurringNotifications: Option<bool>, currencyAutoUpdate: Option<bool>,
    currencyUpdateTargets: Option<seq<string>>, lastCurrencyUpdate: Option<string>)

  const NoChange := SettingsPatch(None, None, None, None, None, None, None, None, None, None, None, None, None, None, None, None)

  function Or<T>(o: Option<T>, fallback: T): T
  {
    if o.Some? then o.value else fallback
  }

  /** `{ ...settings, ...updates }`. */
  function Apply(s: Settings, p: SettingsPatch): Settings
  {
    Settings(
      Or(p.language, s.language), Or(p.mainCurrencyId, s.mainCurrencyId),
      Or(p.defaultCategoryId, s.defaultCategoryId), Or(p.defaultPaymentMethodId, s.defaultPaymentMethodId),
      Or(p.notifyDaysBefore, s.notifyDaysBefore), Or(p.notificationTitle, s.notificationTitle),
      Or(p.notificationBodyDueToday, s.notificationBodyDueToday), Or(p.notificationBodyDueSoon, s.notificationBodyDueSoon),
      Or(p.notificationOverdueTitle, s.notificationOverdueTitle), Or(p.notificationOverdueBody, s.notificationOverdueBody),
      Or(p.notificationSchedule, s.notificationSchedule), Or(p.notificationCustomHour, s.notificationCustomHour),
      Or(p.recurringNotifications, s.recurringNotifications), Or(p.currencyAutoUpdate, s.currencyAutoUpdate),
      Or(p.currencyUpdateTargets, s.currencyUpdateTargets), Or(p.lastCurrencyUpdate, s.lastCurrencyUpdate))
  }

  /** An update changes exactly the fields it carries: the empty update
      changes nothing, applying it twice is applying it once, and a later
      update of a field overrides an earlier one. */
  lemma ApplySpec(s: Settings, p: SettingsPatch, q: SettingsPatch)
    ensures Apply(s, NoChange) == s
    ensures Apply(Apply(s, p), p) == Apply(s, p)
    ensures p.language.Some? ==> Apply(s, p).language == p.language.value
    ensures p.language.None? ==> Apply(s, p).language == s.language
    ensures p.mainCurrencyId.Some? ==> Apply(s, p).mainCurrencyId == p.mainCurrencyId.value
    ensures p.mainCurrencyId.None? ==> Apply(s, p).mainCurrencyId == s.mainCurrencyId
    ensures p.defaultCategoryId.Some? ==> Apply(s, p).defaultCategoryId == p.defaultCategoryId.value
    ensures p.defaultCategoryId.None? ==> Apply(s, p).defaultCategoryId == s.defaultCategoryId
    ensures p.defaultPaymentMethodId.Some? ==> Apply(s, p).defaultPaymentMethodId == p.defaultPaymentMethodId.value
    ensures p.defaultPaymentMethodId.None? ==> Apply(s, p).defaultPaymentMethodId == s.defaultPaymentMethodId
    ensures p.notifyDaysBefore.Some? ==> Apply(s, p).notifyDaysBefore == p.notifyDaysBefore.value
    ensures p.notifyDaysBefore.None? ==> Apply(s, p).notifyDaysBefore == s.notifyDaysBefore
    ensures p.notificationTitle.Some? ==> Apply(s, p).notificationTitle == p.notificationTitle.value
    ensures p.notificationTitle.None? ==> Apply(s, p).notificationTitle == s.notificationTitle
    ensures p.notificationBodyDueToday.Some? ==> Apply(s, p).notificationBodyDueToday == p.notificationBodyDueToday.value
    ensures p.notificationBodyDueToday.None? ==> Apply(s, p).notificationBodyDueToday == s.notificationBodyDueToday
    ensures p.notificationBodyDueSoon.Some? ==> Apply(s, p).notificationBodyDueSoon == p.notificationBodyDueSoon.value
    ensures p.notificationBodyDueSoon.None? ==> Apply(s, p).notificationBodyDueSoon == s.notificationBodyDueSoon
    ensures p.notificationOverdueTitle.Some? ==> Apply(s, p).notificationOverdueTitle == p.notificationOverdueTitle.value
    ensures p.notificationOverdueTitle.None? ==> Apply(s, p).notificationOverdueTitle == s.notificationOverdueTitle
    ensures p.notificationOverdueBody.Some? ==> Apply(s, p).notificationOverdueBody == p.notificationOverdueBody.value
    ensures p.notificationOverdueBody.None? ==> Apply(s, p).notificationOverdueBody == s.notificationOverdueBody
    ensures p.notificationSchedule.Some? ==> Apply(s, p).notificationSchedule == p.notificationSchedule.value
    ensures p.notificationSchedule.None? ==> Apply(s, p).notificationSchedule == s.notificationSchedule
    ensures p.notificationCustomHour.Some? ==> Apply(s, p).notificationCustomHour == p.notificationCustomHour.value
    ensures p.notificationCustomHour.None? ==> Apply(s, p).notificationCustomHour == s.notificationCustomHour
    ensures p.recurringNotifications.Some? ==> Apply(s, p).recurringNotifications == p.recurringNotifications.value
    ensures p.recurringNotifications.None? ==> Apply(s, p).recurringNotifications == s.recurringNotifications
    ensures p.currencyAutoUpdate.Some? ==> Apply(s, p).currencyAutoUpdate == p.currencyAutoUpdate.value
    ensures p.currencyAutoUpdate.None? ==> Apply(s, p).currencyAutoUpdate == s.currencyAutoUpdate
    ensures p.currencyUpdateTargets.Some? ==> Apply(s, p).currencyUpdateTargets == p.currencyUpdateTargets.value
    ensures p.currencyUpdateTargets.None? ==> Apply(s, p).currencyUpdateTargets == s.currencyUpdateTargets
    ensures p.lastCurrencyUpdate.Some? ==> Apply(s, p).lastCurrencyUpdate == p.lastCurrencyUpdate.value
    ensures p.lastCurrencyUpdate.None? ==> Apply(s, p).lastCurrencyUpdate == s.lastCurrencyUpdate
    ensures q.language.Some? ==> Apply(Apply(s, p), q).language == q.language.value
  {
  }

  /** Whether an update switches the language: only a non-empty one does. */
  predicate SwitchesLanguage(p: SettingsPatch)
  {
    p.language.Some? && p.language.value != ""
  }

  class Store {
    var settings: Settings
    var ratesApiKey: string
    var ratesProvider: string
    var fixerApiKey: string
    var fixerProvider: int
    var telegramBotToken: string
    var telegramChatId: string
    var telegramEnabled: bool
    /** The config table's key/value pairs this store writes. */
    var config: map<string, string>

    constructor(config: map<string, string>)
      ensures settings == DefaultSettings && ratesApiKey == "" && ratesProvider == "frankfurter"
      ensures fixerApiKey == "" && fixerProvider == 0
      ensures telegramBotToken == "" && telegramChatId == "" && !telegramEnabled
      ensures this.config == config
    {
      settings := DefaultSettings;
      ratesApiKey, ratesProvider := "", "frankfurter";
      fixerApiKey, fixerProvider := "", 0;
      telegramBotToken, telegramChatId, telegramEnabled := "", "", false;
      this.config := config;
    }

    /** $hydrate: each field given replaces the current one; the rate
        fields fall back to the legacy fixer fields. */
    method Hydrate(d: HydrateInput)
      modifies this`settings, this`ratesApiKey, this`ratesProvider, this`fixerApiKey, this`fixerProvider
      modifies this`telegramBotToken, this`telegramChatId, this`telegramEnabled
      ensures settings == Or(d.settings, old(settings))
      ensures ratesApiKey == HydratedRatesKey(old(ratesApiKey), d)
      ensures ratesProvider == HydratedProvider(old(ratesProvider), d)
      ensures fixerApiKey == Or(d.fixerApiKey, old(fixerApiKey))
      ensures fixerProvider == Or(d.fixerProvider, old(fixerProvider))
      ensures telegramBotToken == Or(d.telegramBotToken, old(telegramBotToken))
      ensures telegramChatId == Or(d.telegramChatId, old(telegramChatId))
      ensures telegramEnabled == Or(d.telegramEnabled, old(telegramEnabled))
      ensures config == old(config)
    {
      var key := HydratedRatesKey(ratesApiKey, d);
      var provider := HydratedProvider(ratesProvider, d);
      settings, ratesApiKey, ratesProvider := Or(d.settings, settings), key, provider;
      fixerApiKey, fixerProvider := Or(d.fixerApiKey, fixerApiKey), Or(d.fixerProvider, fixerProvider);
      telegramBotToken, telegramChatId := Or(d.telegramBotToken, telegramBotToken), Or(d.telegramChatId, telegramChatId);
      telegramEnabled := Or(d.telegramEnabled, telegramEnabled);
    }

    /** updateSettings: merges the update and parses the result; a merge
        the schema rejects throws before anything changes (`ok` false).
        Otherwise it switches the language when the update names one,
        retranslates the default catalog names unless told not to, and
        persists the settings as JSON. */
    method UpdateSettings(p: SettingsPatch, skipRetranslate: bool, settingsJson: Settings -> string)
      returns (ok: bool, languageSet: bool, retranslated: bool)
      modifies this`settings, this`config
      ensures ok <==> SettingsSchemaHolds(Apply(old(settings), p))
      ensures !ok ==> settings == old(settings) && config == old(config) && !languageSet && !retranslated
      ensures ok ==> settings == Apply(old(settings), p)
      ensures ok ==> languageSet == SwitchesLanguage(p)
      ensures ok ==> retranslated == (SwitchesLanguage(p) && !skipRetranslate)
      ensures ok ==> config == old(config)["settings" := settingsJson(settings)]
    {
      var merged := Apply(settings, p);
      if !SettingsSchemaHolds(merged) {
        return false, false, false;
      }
      ok := true;
      settings := merged;
      languageSet, retranslated := false, false;
      if p.language.Some? && p.language.value != "" {
        languageSet := true;
        if !skipRetranslate {
          retranslated := true;
        }
      }
      config := config["settings" := settingsJson(settings)];
    }

    /** setRatesConfig. */
    method SetRatesConfig(key: string, provider: string)
      modifies this`ratesApiKey, this`ratesProvider, this`config
      ensures ratesApiKey == key && ratesProvider == provider
      ensures config == old(config)["ratesApiKey" := key]["ratesProvider" := provider]
    {
      ratesApiKey := key;
      ratesProvider := provider;
      config := config["ratesApiKey" := key];
      config := config["ratesProvider" := provider];
    }

    /** setFixerApiKey: the provider number is persisted as its decimal text. */
    method SetFixerApiKey(key: string, provider: int)
      modifies this`fixerApiKey, this`fixerProvider, this`config
      ensures fixerApiKey == key && fixerProvider == provider
      ensures config == old(config)["fixerApiKey" := key]["fixerProvider" := IntToString(provider)]
    {
      fixerApiKey := key;
      fixerProvider := provider;
      config := config["fixerApiKey" := key];
      config := config["fixerProvider" := IntToString(provider)];
    }

    /** setTelegramConfig: the flag is persisted as "1" or "0". */
    method SetTelegramConfig(botToken: string, chatId: string, enabled: bool)
      modifies this`telegramBotToken, this`telegramChatId, this`telegramEnabled, this`config
      ensures telegramBotToken == botToken && telegramChatId == chatId && telegramEnabled == enabled
      ensures config == old(config)["telegramBotToken" := botToken]["telegramChatId" := chatId]
                                   ["telegramEnabled" := EnabledFlag(enabled)]
    {
      telegramBotToken, telegramChatId, telegramEnabled := botToken, chatId, enabled;
      config := config["telegramBotToken" := botToken];
      config := config["telegramChatId" := chatId];
      config := config["telegramEnabled" := if enabled then "1" else "0"];
    }
  }

  /** The stored form of the Telegram flag. */
  function EnabledFlag(enabled: bool): (t: string)
    ensures t == "1" <==> enabled
    ensures t == "0" <==> !enabled
  {
    if enabled then "1" else "0"
  }

  /** The Telegram configuration as loadAllData reads it back from the
      config table: token and chat id `|| ""`, the flag only for "1". */
  function LoadedTelegram(config: map<string, string>): HydrateInput
  {
    HydrateInput(None, None, None, None, None,
                 Some(Database.ConfigOr(config, "telegramBotToken", "")),
                 Some(Database.ConfigOr(config, "telegramChatId", "")),
                 Some("telegramEnabled" in config && config["telegramEnabled"] == "1"))
  }

  /** setTelegramConfig survives a restart: the config table it leaves,
      loaded and hydrated into a fresh store, gives back the token, the chat
      id and the flag that were set. */
  method TelegramConfigSurvivesReload(s: Store, botToken: string, chatId: string, enabled: bool)
    returns (restarted: Store)
    modifies s
    ensures restarted.telegramBotToken == botToken && restarted.telegramChatId == chatId
    ensures restarted.telegramEnabled == enabled
  {
    s.SetTelegramConfig(botToken, chatId, enabled);
    var c := s.config;
    assert "telegramBotToken"[8] != "telegramChatId"[8] && "telegramChatId"[8] != "telegramEnabled"[8];
    assert "telegramBotToken"[8] != "telegramEnabled"[8];
    assert c["telegramBotToken"] == botToken && c["telegramChatId"] == chatId;
    restarted := new Store(c);
    restarted.Hydrate(LoadedTelegram(c));
  }

  /** The persisted provider number reads back as itself. */
  lemma FixerProviderRoundTrip(provider: int)
    ensures ParseInt(IntToString(provider)) == Some(provider)
  {
    ParseIntOfIntToString(provider);
  }

  /** Hydrating legacy-only data (no provider-based fields) maps fixer.io
      and apilayer onto the matching provider, with the legacy key. */
  lemma LegacyHydration(current: string, currentProvider: string, d: HydrateInput)
    requires d.ratesApiKey.None? && d.ratesProvider.None?
    requires d.fixerApiKey.Some? && d.fixerApiKey.value != "" && d.fixerProvider.Some?
    ensures HydratedRatesKey(current, d) == d.fixerApiKey.value
    ensures HydratedProvider(currentProvider, d) == (if d.fixerProvider.value == 1 then "apilayer" else "fixer")
  {
  }
}
