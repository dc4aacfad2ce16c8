// The persisted data shape of Subly (subscriptions, expenses, catalog
// entities, settings) and the tolerant validation that turns untrusted JSON
// into it: validateAppData's schema-or-partial-recovery and
// validateImportData's stricter front door.
//
// JSON values are `Raw`. Each Zod schema is a function parameter
// `Raw -> Option<T>` (None when `safeParse` fails), gathered in `Schemas`;
// the defaults that `parse({})` produces are written out where the recovery
// code depends on them.

module Schema {
  import opened Common

  /** An untrusted JSON value. Numbers are integers in this model. */
  datatype Raw =
    | RNull
    | RBool(b: bool)
    | RNum(n: int)
    | RStr(s: string)
    | RArr(items: seq<Raw>)
    | RObj(fields: map<string, Raw>)

  /** JavaScript truthiness of a JSON value. */
  predicate Truthy(r: Raw)
  {
    match r
    case RNull => false
    case RBool(b) => b
    case RNum(n) => n != 0
    case RStr(s) => s != []
    case RArr(_) => true
    case RObj(_) => true
  }

  /** `typeof r === "object"` (arrays included; null is excluded by truthiness). */
  predicate IsObject(r: Raw)
  {
    r.RArr? || r.RObj?
  }

  /** `obj[key]`, `None` standing for `undefined`. */
  function Field(r: Raw, key: string): Option<Raw>
  {
    if r.RObj? && key in r.fields then Some(r.fields[key]) else None
  }

  // ---------------------------------------------------------------------
  // Entities
  // ---------------------------------------------------------------------

  datatype PaymentRecord = PaymentRecord(id: string, date: string, amount: real, currencyId: string, note: string)

  /** `cycle` is 1 daily, 2 weekly, 3 monthly, 4 yearly. */
  datatype Subscription = Subscription(
    id: string, name: string, logo: string, price: real, currencyId: string,
    nextPayment: string, startDate: string, cycle: int, frequency: int, notes: string,
    paymentMethodId: string, payerUserId: string, categoryId: string,
    notify: bool, notifyDaysBefore: int, lastNotifiedDate: string,
    inactive: bool, autoRenew: bool, url: string,
    cancellationDate: Option<string>, replacementSubscriptionId: Option<string>,
    createdAt: string, tags: seq<string>, favorite: bool, paymentHistory: seq<PaymentRecord>)

  datatype Expense = Expense(
    id: string, name: string, amount: real, currencyId: string, date: string,
    categoryId: string, paymentMethodId: string, payerUserId: string,
    tags: seq<string>, notes: string, createdAt: string)

  datatype Category = Category(id: string, name: string, icon: string, sortOrder: int, i18nKey: string)

  datatype Currency = Currency(id: string, name: string, symbol: string, code: string, rate: real, sortOrder: int, i18nKey: string)

  datatype HouseholdMember = HouseholdMember(id: string, name: string, email: string, sortOrder: int)

  datatype PaymentMethod = PaymentMethod(id: string, name: string, icon: string, enabled: bool, sortOrder: int, i18nKey: string)

  datatype Tag = Tag(id: string, name: string, favorite: bool, sortOrder: int, i18nKey: string)

  /** The settings the modelled services read. */
  datatype Settings = Settings(
    language: string, mainCurrencyId: string, defaultCategoryId: string, defaultPaymentMethodId: string,
    notifyDaysBefore: int, notificationTitle: string, notificationBodyDueToday: string,
    notificationBodyDueSoon: string, notificationOverdueTitle: string, notificationOverdueBody: string,
    notificationSchedule: string, notificationCustomHour: int, recurringNotifications: bool,
    currencyAutoUpdate: bool, currencyUpdateTargets: seq<string>, lastCurrencyUpdate: string)

  /** The checks SettingsSchema makes on the modelled fields beyond their
      types: the schedule is one of the four enum values and the custom hour
      an integer from 0 to 23. */
  predicate SettingsSchemaHolds(s: Settings)
  {
    && s.notificationSchedule in ["any", "morning", "evening", "custom"]
    && 0 <= s.notificationCustomHour <= 23
  }

  /** `ratesApiKey` and `ratesProvider` are not part of the schema: only the
      database loader sets them, so every validated value has them `None`. */
  datatype AppData = AppData(
    subscriptions: seq<Subscription>, expenses: seq<Expense>, categories: seq<Category>,
    currencies: seq<Currency>, household: seq<HouseholdMember>, paymentMethods: seq<PaymentMethod>,
    tags: seq<Tag>, settings: Settings,
    fixerApiKey: string, fixerProvider: int, telegramBotToken: string, telegramChatId: string,
    telegramEnabled: bool, initialized: bool,
    ratesApiKey: Option<string>, ratesProvider: Option<string>)

  /** What `SettingsSchema.parse({})` produces. */
  const DefaultSettings := Settings(
    "en", "cur-2", "cat-1", "pm-1", 1,
    "Subly \U{2014} Payment Reminder",
    "Payment for \"{name}\" is due today!",
    "Payment for \"{name}\" is due in {days} day(s).",
    "Subly \U{2014} Overdue Payment",
    "\"{name}\" is overdue by {days} day(s). Please renew manually.",
    "any", 9, true, false, [], "")

  /** The Zod schemas, each as its `safeParse`. */
  datatype Schemas = Schemas(
    appData: Raw -> Option<AppData>,
    subscription: Raw -> Option<Subscription>,
    expense: Raw -> Option<Expense>,
    category: Raw -> Option<Category>,
    currency: Raw -> Option<Currency>,
    member: Raw -> Option<HouseholdMember>,
    paymentMethod: Raw -> Option<PaymentMethod>,
    tag: Raw -> Option<Tag>,
    settings: Raw -> Option<Settings>)

  // ---------------------------------------------------------------------
  // safeParseArray
  // ---------------------------------------------------------------------

  /** The items that pass the schema, parsed, in their original order. */
  function ParsedItems<T>(items: seq<Raw>, parse: Raw -> Option<T>): (r: seq<T>)
    ensures |r| <= |items|
  {
    if items == [] then []
    else
      var front := ParsedItems(items[..|items| - 1], parse);
      match parse(items[|items| - 1])
      case Some(v) => front + [v]
      case None => front
  }

  /** The value `safeParseArray` returns. */
  function SafeParsedArray<T>(raw: Option<Raw>, parse: Raw -> Option<T>, fallback: seq<T>): seq<T>
  {
    if raw.Some? && raw.value.RArr? && ParsedItems(raw.value.items, parse) != [] then
      ParsedItems(raw.value.items, parse)
    else fallback
  }

  method SafeParseArray<T>(raw: Option<Raw>, parse: Raw -> Option<T>, fallback: seq<T>) returns (r: seq<T>)
    ensures r == SafeParsedArray(raw, parse, fallback)
    ensures r != fallback ==> raw.Some? && raw.value.RArr? && 0 < |r| <= |raw.value.items|
  {
    if !(raw.Some? && raw.value.RArr?) {
      return fallback;
    }
    var items := raw.value.items;
    var result: seq<T> := [];
    var i := 0;
    while i < |items|
      invariant 0 <= i <= |items|
      invariant result == ParsedItems(items[..i], parse)
    {
      assert items[..i + 1][..i] == items[..i];
      var parsed := parse(items[i]);
      if parsed.Some? {
        result := result + [parsed.value];
      }
      i := i + 1;
    }
    assert items[..i] == items;
    r := if |result| > 0 then result else fallback;
  }

  /** Parsing is order-preserving: the valid items of `a + b` are those of `a` followed by those of `b`. */
  lemma {:induction false} ParsedItemsAppend<T>(a: seq<Raw>, b: seq<Raw>, parse: Raw -> Option<T>)
    ensures ParsedItems(a + b, parse) == ParsedItems(a, parse) + ParsedItems(b, parse)
  {
    if b == [] {
      assert a + b == a;
    } else {
      var b' := b[..|b| - 1];
      assert (a + b)[..|a + b| - 1] == a + b';
      ParsedItemsAppend(a, b', parse);
    }
  }

  /** When every item passes, nothing is dropped and item `i` is the parse of input `i`. */
  lemma {:induction false} ParsedItemsAllValid<T>(items: seq<Raw>, parse: Raw -> Option<T>)
    requires forall i :: 0 <= i < |items| ==> parse(items[i]).Some?
    ensures |ParsedItems(items, parse)| == |items|
    ensures forall i :: 0 <= i < |items| ==> ParsedItems(items, parse)[i] == parse(items[i]).value
  {
    if items != [] {
      var front := items[..|items| - 1];
      ParsedItemsAllValid(front, parse);
    }
  }

  /** When no item passes, the fallback is returned. */
  lemma {:induction false} ParsedItemsNoneValid<T>(items: seq<Raw>, parse: Raw -> Option<T>, fallback: seq<T>)
    requires forall i :: 0 <= i < |items| ==> parse(items[i]).None?
    ensures SafeParsedArray(Some(RArr(items)), parse, fallback) == fallback
  {
    NoneValidParsesEmpty(items, parse);
  }

  lemma {:induction false} NoneValidParsesEmpty<T>(items: seq<Raw>, parse: Raw -> Option<T>)
    requires forall i :: 0 <= i < |items| ==> parse(items[i]).None?
    ensures ParsedItems(items, parse) == []
  {
    if items != [] {
      NoneValidParsesEmpty(items[..|items| - 1], parse);
    }
  }

  // ---------------------------------------------------------------------
  // migrateTags
  // ---------------------------------------------------------------------

  /** The tag a legacy plain-string entry at position `i` becomes
      (`TagSchema.parse` of `{ id: "tag-migrated-i", name, order: i, favorite: true }`). */
  function MigratedTag(name: string, i: nat): Tag
  {
    Tag("tag-migrated-" + NatToString(i), name, true, i, "")
  }

  /** The tag produced for item `i`, if any. */
  function MigrateItem(item: Raw, i: nat, tagSchema: Raw -> Option<Tag>): Option<Tag>
  {
    if item.RStr? then Some(MigratedTag(item.s, i)) else tagSchema(item)
  }

  /** The tags `migrateTags` produces from the first items of a list. */
  function MigratedTags(items: seq<Raw>, tagSchema: Raw -> Option<Tag>): (r: seq<Tag>)
    ensures |r| <= |items|
  {
    if items == [] then []
    else
      var front := MigratedTags(items[..|items| - 1], tagSchema);
      match MigrateItem(items[|items| - 1], |items| - 1, tagSchema)
      case Some(t) => front + [t]
      case None => front
  }

  method MigrateTags(raw: Option<Raw>, tagSchema: Raw -> Option<Tag>) returns (r: seq<Tag>)
    ensures r == if raw.Some? && raw.value.RArr? then MigratedTags(raw.value.items, tagSchema) else []
  {
    if !(raw.Some? && raw.value.RArr?) {
      return [];
    }
    var items := raw.value.items;
    r := [];
    var i := 0;
    while i < |items|
      invariant 0 <= i <= |items|
      invariant r == MigratedTags(items[..i], tagSchema)
    {
      assert items[..i + 1][..i] == items[..i];
      var item := items[i];
      if item.RStr? {
        r := r + [MigratedTag(item.s, i)];
      } else {
        var parsed := tagSchema(item);
        if parsed.Some? {
          r := r + [parsed.value];
        }
      }
      i := i + 1;
    }
    assert items[..i] == items;
  }

  /** A legacy list of plain strings migrates one tag per string, keeping the
      name and taking the position as order, with distinct generated ids. */
  lemma {:induction false} MigrateLegacyStrings(items: seq<Raw>, tagSchema: Raw -> Option<Tag>)
    requires forall i :: 0 <= i < |items| ==> items[i].RStr?
    ensures |MigratedTags(items, tagSchema)| == |items|
    ensures forall i :: 0 <= i < |items| ==>
      MigratedTags(items, tagSchema)[i] == MigratedTag(items[i].s, i)
    ensures forall i, j :: 0 <= i < j < |items| ==>
      MigratedTags(items, tagSchema)[i].id != MigratedTags(items, tagSchema)[j].id
  {
    if items != [] {
      MigrateLegacyStrings(items[..|items| - 1], tagSchema);
    }
    forall i, j | 0 <= i < j < |items|
      ensures MigratedTag(items[i].s, i).id != MigratedTag(items[j].s, j).id
    {
      var p := "tag-migrated-";
      if p + NatToString(i) == p + NatToString(j) {
        assert NatToString(i) == (p + NatToString(i))[|p|..];
        DigitsValueOfNatToString(i);
        DigitsValueOfNatToString(j);
      }
    }
  }

  // ---------------------------------------------------------------------
  // validateAppData / validateImportData
  // ---------------------------------------------------------------------

  /** `safeParseObj`: the schema's result for `raw ?? {}`, else the defaults. */
  function SafeParseSettings(raw: Option<Raw>, settingsSchema: Raw -> Option<Settings>): (r: Settings)
    ensures raw.Some? && !raw.value.RNull? && settingsSchema(raw.value).Some? ==> r == settingsSchema(raw.value).value
    ensures raw.Some? && !raw.value.RNull? && settingsSchema(raw.value).None? ==> r == DefaultSettings
    ensures (raw.None? || raw.value.RNull?) && settingsSchema(RObj(map[])).Some? ==> r == settingsSchema(RObj(map[])).value
    ensures (raw.None? || raw.value.RNull?) && settingsSchema(RObj(map[])).None? ==> r == DefaultSettings
  {
    var input := if raw.Some? && !raw.value.RNull? then raw.value else RObj(map[]);
    match settingsSchema(input)
    case Some(s) => s
    case None => DefaultSettings
  }

  function StringField(obj: Raw, key: string): string
  {
    match Field(obj, key)
    case Some(RStr(s)) => s
    case _ => ""
  }

  /** Whether the object holds a value of the given JSON type under the key. */
  predicate HasString(obj: Raw, key: string)
  {
    Field(obj, key).Some? && Field(obj, key).value.RStr?
  }

  predicate HasNumber(obj: Raw, key: string)
  {
    Field(obj, key).Some? && Field(obj, key).value.RNum?
  }

  predicate HasBoolean(obj: Raw, key: string)
  {
    Field(obj, key).Some? && Field(obj, key).value.RBool?
  }

  /** The partial recovery applied to an object that fails the full schema:
      each list keeps its valid items, the settings are parsed or defaulted,
      and a scalar of the wrong JSON type becomes "", 0 or false. */
  function Recover(obj: Raw, sc: Schemas): (d: AppData)
    ensures d.initialized
    ensures d.ratesApiKey.None? && d.ratesProvider.None?
    ensures d.settings == SafeParseSettings(Field(obj, "settings"), sc.settings)
    ensures HasString(obj, "fixerApiKey") ==> d.fixerApiKey == Field(obj, "fixerApiKey").value.s
    ensures !HasString(obj, "fixerApiKey") ==> d.fixerApiKey == ""
    ensures HasNumber(obj, "fixerProvider") ==> d.fixerProvider == Field(obj, "fixerProvider").value.n
    ensures !HasNumber(obj, "fixerProvider") ==> d.fixerProvider == 0
    ensures HasString(obj, "telegramBotToken") ==> d.telegramBotToken == Field(obj, "telegramBotToken").value.s
    ensures !HasString(obj, "telegramBotToken") ==> d.telegramBotToken == ""
    ensures HasString(obj, "telegramChatId") ==> d.telegramChatId == Field(obj, "telegramChatId").value.s
    ensures !HasString(obj, "telegramChatId") ==> d.telegramChatId == ""
    ensures HasBoolean(obj, "telegramEnabled") ==> d.telegramEnabled == Field(obj, "telegramEnabled").value.b
    ensures !HasBoolean(obj, "telegramEnabled") ==> !d.telegramEnabled
  {
    AppData(
      SafeParsedArray(Field(obj, "subscriptions"), sc.subscription, []),
      SafeParsedArray(Field(obj, "expenses"), sc.expense, []),
      SafeParsedArray(Field(obj, "categories"), sc.category, []),
      SafeParsedArray(Field(obj, "currencies"), sc.currency, []),
      SafeParsedArray(Field(obj, "household"), sc.member, []),
      SafeParsedArray(Field(obj, "paymentMethods"), sc.paymentMethod, []),
      var t := Field(obj, "tags"); if t.Some? && t.value.RArr? then MigratedTags(t.value.items, sc.tag) else [],
      SafeParseSettings(Field(obj, "settings"), sc.settings),
      StringField(obj, "fixerApiKey"),
      match Field(obj, "fixerProvider") case Some(RNum(n)) => n case _ => 0,
      StringField(obj, "telegramBotToken"),
      StringField(obj, "telegramChatId"),
      match Field(obj, "telegramEnabled") case Some(RBool(b)) => b case _ => false,
      true, None, None)
  }

  /** validateAppData: the full schema's result, else a recovery for any object, else null. */
  function ValidateAppData(raw: Raw, sc: Schemas): (r: Option<AppData>)
    ensures sc.appData(raw).Some? ==> r == sc.appData(raw)
    ensures r.None? <==> sc.appData(raw).None? && !IsObject(raw)
  {
    match sc.appData(raw)
    case Some(d) => Some(d)
    case None => if Truthy(raw) && IsObject(raw) then Some(Recover(raw, sc)) else None
  }

  /** validateImportData: only an object with a `subscriptions` array is considered. */
  function ValidateImportData(raw: Raw, sc: Schemas): (r: Option<AppData>)
    ensures r.Some? ==> raw.RObj? && Field(raw, "subscriptions").Some? && Field(raw, "subscriptions").value.RArr?
    ensures raw.RObj? && Field(raw, "subscriptions").Some? && Field(raw, "subscriptions").value.RArr? ==> r.Some?
  {
    if !Truthy(raw) || !IsObject(raw) then None
    else
      var subs := Field(raw, "subscriptions");
      if subs.None? || !subs.value.RArr? then None
      else ValidateAppData(raw, sc)
  }

  /** Recovery keeps every valid subscription of an object whose full parse
      failed, and a `fixerProvider` stored as text falls back to 0. */
  lemma RecoveryKeepsValidSubscriptions(items: seq<Raw>, rest: map<string, Raw>, sc: Schemas)
    requires sc.appData(RObj(rest["subscriptions" := RArr(items)])).None?
    requires forall i :: 0 <= i < |items| ==> sc.subscription(items[i]).Some?
    requires "fixerProvider" in rest && rest["fixerProvider"].RStr?
    ensures var d := ValidateAppData(RObj(rest["subscriptions" := RArr(items)]), sc);
      d.Some? && |d.value.subscriptions| == |items|
      && (forall i :: 0 <= i < |items| ==> d.value.subscriptions[i] == sc.subscription(items[i]).value)
      && d.value.fixerProvider == 0 && d.value.initialized
  {
    var obj := RObj(rest["subscriptions" := RArr(items)]);
    assert Field(obj, "subscriptions") == Some(RArr(items));
    assert Field(obj, "fixerProvider") == Some(rest["fixerProvider"]);
    var d := Recover(obj, sc);
    assert ValidateAppData(obj, sc) == Some(d);
    ParsedItemsAllValid(items, sc.subscription);
    assert d.subscriptions == ParsedItems(items, sc.subscription);
  }
}
