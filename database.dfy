// The persistence layer over SQLite: the row encodings of subscriptions and
// expenses (booleans as 1/0 integers, tags as JSON text), the config table,
// the delete cascade, the tag batches over expenses, the SQL-script splitter,
// the whole-database load and save, and the debounced upload trigger.
//
// Tables are sequences of rows in table order; the SQL engine, its ORDER BY
// clauses and the JSON text format are not modelled: JSON (de)serialisation
// enters as a codec of functions.

module Database {
  import opened Common
  import opened Schema
  import opened Sync

  // ---------------------------------------------------------------------
  // JSON text and safeJsonParse
  // ---------------------------------------------------------------------

  /** `JSON.stringify` and `JSON.parse` (None when the text is not JSON)
      for the values stored as text. */
  datatype Codec<!T> = Codec(stringify: T -> string, parse: string -> Option<T>)

  /** safeJsonParse: the parsed value, or the fallback on invalid JSON. */
  function SafeJsonParse<T>(text: string, fallback: T, parse: string -> Option<T>): (r: T)
    ensures parse(text).None? ==> r == fallback
    ensures parse(text).Some? ==> r == parse(text).value
  {
    match parse(text)
    case Some(v) => v
    case None => fallback
  }

  // ---------------------------------------------------------------------
  // Row encodings
  // ---------------------------------------------------------------------

  /** A boolean column: `b ? 1 : 0`. */
  function BoolColumn(b: bool): (n: int)
    ensures n == 0 || n == 1
    ensures (n != 0) == b
  {
    if b then 1 else 0
  }

  datatype SubscriptionRow = SubscriptionRow(
    id: string, name: string, logo: string, price: real, currencyId: string,
    nextPayment: string, startDate: string, cycle: int, frequency: int, notes: string,
    paymentMethodId: string, payerUserId: string, categoryId: string,
    notify: int, notifyDaysBefore: int, lastNotifiedDate: string,
    inactive: int, autoRenew: int, url: string,
    cancellationDate: Option<string>, replacementSubscriptionId: Option<string>,
    createdAt: string, favorite: int, tags: string)

  datatype PaymentRecordRow = PaymentRecordRow(subscriptionId: string, record: PaymentRecord)

  datatype ExpenseRow = ExpenseRow(
    id: string, name: string, amount: real, currencyId: string, date: string,
    categoryId: string, paymentMethodId: string, payerUserId: string,
    tags: string, notes: string, createdAt: string, url: string,
    subscriptionId: Option<string>, paymentRecordId: Option<string>)

  datatype PaymentMethodRow = PaymentMethodRow(id: string, name: string, icon: string, enabled: int, sortOrder: int, i18nKey: string)

  datatype TagRow = TagRow(id: string, name: string, favorite: int, sortOrder: int, i18nKey: string)

  /** subValues: the row written for a subscription. */
  function SubValues(s: Subscription, json: Codec<seq<string>>): SubscriptionRow
  {
    SubscriptionRow(
      s.id, s.name, s.logo, s.price, s.currencyId, s.nextPayment, s.startDate, s.cycle, s.frequency, s.notes,
      s.paymentMethodId, s.payerUserId, s.categoryId, BoolColumn(s.notify), s.notifyDaysBefore,
      s.lastNotifiedDate, BoolColumn(s.inactive), BoolColumn(s.autoRenew), s.url,
      s.cancellationDate, s.replacementSubscriptionId, s.createdAt, BoolColumn(s.favorite),
      json.stringify(s.tags))
  }

  /** toSubscription: a row and its payment history read back; `!!` on the
      integer columns and safeJsonParse(tags, []) on the tags. */
  function ToSubscription(row: SubscriptionRow, history: seq<PaymentRecord>, json: Codec<seq<string>>): (s: Subscription)
    ensures s.notify <==> row.notify != 0
    ensures s.inactive <==> row.inactive != 0
    ensures s.autoRenew <==> row.autoRenew != 0
    ensures s.favorite <==> row.favorite != 0
    ensures s.tags == SafeJsonParse(row.tags, [], json.parse) && s.paymentHistory == history
  {
    Subscription(
      row.id, row.name, row.logo, row.price, row.currencyId, row.nextPayment, row.startDate, row.cycle,
      row.frequency, row.notes, row.paymentMethodId, row.payerUserId, row.categoryId,
      row.notify != 0, row.notifyDaysBefore, row.lastNotifiedDate, row.inactive != 0, row.autoRenew != 0,
      row.url, row.cancellationDate, row.replacementSubscriptionId, row.createdAt,
      SafeJsonParse(row.tags, [], json.parse), row.favorite != 0, history)
  }

  /** Writing a subscription and reading it back with its own history gives
      it back whole, flags and tags included, when the tags survive JSON. */
  lemma SubscriptionRowRoundTrip(s: Subscription, json: Codec<seq<string>>)
    requires json.parse(json.stringify(s.tags)) == Some(s.tags)
    ensures ToSubscription(SubValues(s, json), s.paymentHistory, json) == s
  {
  }

  /** expValues. The expense schema has no url, subscriptionId or
      paymentRecordId, so `e.url || ""` writes "" and the other two write null. */
  function ExpValues(e: Expense, json: Codec<seq<string>>): ExpenseRow
  {
    ExpenseRow(e.id, e.name, e.amount, e.currencyId, e.date, e.categoryId, e.paymentMethodId,
               e.payerUserId, json.stringify(e.tags), e.notes, e.createdAt, "", None, None)
  }

  /** toExpense. */
  function ToExpense(row: ExpenseRow, json: Codec<seq<string>>): (e: Expense)
    ensures e.tags == SafeJsonParse(row.tags, [], json.parse)
  {
    Expense(row.id, row.name, row.amount, row.currencyId, row.date, row.categoryId, row.paymentMethodId,
            row.payerUserId, SafeJsonParse(row.tags, [], json.parse), row.notes, row.createdAt)
  }

  lemma ExpenseRowRoundTrip(e: Expense, json: Codec<seq<string>>)
    requires json.parse(json.stringify(e.tags)) == Some(e.tags)
    ensures ToExpense(ExpValues(e, json), json) == e
  {
  }

  function MethodRow(p: PaymentMethod): PaymentMethodRow
  {
    PaymentMethodRow(p.id, p.name, p.icon, BoolColumn(p.enabled), p.sortOrder, p.i18nKey)
  }

  function MethodOf(row: PaymentMethodRow): (p: PaymentMethod)
    ensures p.enabled <==> row.enabled != 0
  {
    PaymentMethod(row.id, row.name, row.icon, row.enabled != 0, row.sortOrder, row.i18nKey)
  }

  function TagRowOf(t: Tag): TagRow
  {
    TagRow(t.id, t.name, BoolColumn(t.favorite), t.sortOrder, t.i18nKey)
  }

  function TagOf(row: TagRow): (t: Tag)
    ensures t.favorite <==> row.favorite != 0
  {
    Tag(row.id, row.name, row.favorite != 0, row.sortOrder, row.i18nKey)
  }

  // ---------------------------------------------------------------------
  // The config table
  // ---------------------------------------------------------------------

  /** What getConfigValue returns: null, the parsed JSON, or the raw text
      when it is not JSON. */
  datatype ConfigValue = Missing | Parsed(value: Raw) | Verbatim(text: string)

  /** setConfigValue's serialisation: a string verbatim, anything else as JSON. */
  function Serialized(value: Raw, json: Codec<Raw>): string
  {
    if value.RStr? then value.s else json.stringify(value)
  }

  /** getConfigValue over the table's key/value pairs. */
  function ReadConfig(config: map<string, string>, key: string, json: Codec<Raw>): (r: ConfigValue)
    ensures r.Missing? <==> key !in config
    ensures r.Verbatim? ==> r.text == config[key] && json.parse(config[key]).None?
  {
    if key !in config then Missing
    else match json.parse(config[key])
      case Some(v) => Parsed(v)
      case None => Verbatim(config[key])
  }

  /** A value that is not a string reads back as itself when it survives
      JSON; a string reads back verbatim unless it is itself JSON text, in
      which case it reads back parsed. */
  lemma ConfigRoundTrip(config: map<string, string>, key: string, value: Raw, json: Codec<Raw>)
    ensures var stored := config[key := Serialized(value, json)];
      && (!value.RStr? && json.parse(json.stringify(value)) == Some(value) ==> ReadConfig(stored, key, json) == Parsed(value))
      && (value.RStr? && json.parse(value.s).None? ==> ReadConfig(stored, key, json) == Verbatim(value.s))
      && (value.RStr? && json.parse(value.s).Some? ==> ReadConfig(stored, key, json) == Parsed(json.parse(value.s).value))
  {
  }

  // ---------------------------------------------------------------------
  // Statements of an SQL script
  // ---------------------------------------------------------------------

  /** The comment stripping of executeSqlFile: a regular expression
      replacement that deletes every `--` and the rest of its line, keeping
      the newline. */
  function StripComments(s: string): (r: string)
    ensures |r| <= |s|
    decreases |s|
  {
    if s == [] then []
    else if |s| >= 2 && s[0] == '-' && s[1] == '-' then StripComments(SkipLine(s))
    else [s[0]] + StripComments(s[1..])
  }

  /** The text from the first newline on. */
  function SkipLine(s: string): (r: string)
    ensures |r| <= |s| && (r == [] || r[0] == '\n')
    ensures s != [] && s[0] != '\n' ==> |r| < |s|
  {
    if s == [] || s[0] == '\n' then s else SkipLine(s[1..])
  }

  /** `s` has two adjacent dashes somewhere. */
  predicate HasDashes(s: string)
  {
    exists i :: 0 <= i < |s| - 1 && s[i] == '-' && s[i + 1] == '-'
  }

  /** No comment marker survives stripping. */
  lemma {:induction false} StripCommentsLeavesNoDashes(s: string)
    ensures !HasDashes(StripComments(s))
    ensures StripComments(s) == [] || StripComments(s)[0] != '-' || s[0] == '-'
    decreases |s|
  {
    if s == [] {
    } else if |s| >= 2 && s[0] == '-' && s[1] == '-' {
      StripCommentsLeavesNoDashes(SkipLine(s));
      StripCommentsStartsWithNewline(SkipLine(s));
    } else {
      StripCommentsLeavesNoDashes(s[1..]);
    }
  }

  /** Text that starts with a newline keeps it first. */
  lemma StripCommentsStartsWithNewline(s: string)
    requires s == [] || s[0] == '\n'
    ensures StripComments(s) == [] || StripComments(s)[0] == '\n'
  {
  }

  /** The statements executeSqlFile runs: the comment-free text split at
      every `;`, trimmed, empty pieces dropped. */
  function Statements(content: string): seq<string>
  {
    Filter(TrimAll(SplitOn(StripComments(content), ';')), (p: string) => |p| > 0)
  }

  /** Every statement run is non-empty, trimmed, and holds no `;` and no
      comment marker. */
  lemma StatementsAreClean(content: string)
    ensures forall st :: st in Statements(content) ==>
              |st| > 0 && ';' !in st && Trim(st) == st && !HasDashes(st)
  {
    forall st | st in Statements(content)
      ensures |st| > 0 && ';' !in st && Trim(st) == st && !HasDashes(st)
    {
      StatementIsClean(content, st);
    }
  }

  lemma StatementIsClean(content: string, st: string)
    requires st in Statements(content)
    ensures |st| > 0 && ';' !in st && Trim(st) == st && !HasDashes(st)
  {
    var text := StripComments(content);
    StripCommentsLeavesNoDashes(content);
    var k := TrimmedIndex(SplitOn(text, ';'), st);
    PieceIsClean(text, k);
  }

  /** Where a trimmed piece came from. */
  lemma TrimmedIndex(pieces: seq<string>, st: string) returns (k: nat)
    requires st in TrimAll(pieces)
    ensures k < |pieces| && Trim(pieces[k]) == st
  {
    k :| 0 <= k < |pieces| && TrimAll(pieces)[k] == st;
  }

  /** A trimmed piece of comment-free text split at `;`. */
  lemma PieceIsClean(text: string, k: nat)
    requires !HasDashes(text) && k < |SplitOn(text, ';')|
    ensures var st := Trim(SplitOn(text, ';')[k]);
      ';' !in st && Trim(st) == st && !HasDashes(st)
  {
    TrimIdempotent(SplitOn(text, ';')[k]);
    var lo, hi := SplitOnPieceIsSlice(text, ';', k);
    TrimmedSliceIsClean(text, lo, hi);
  }

  /** Trimming a slice of comment-free text without `;` leaves it so. */
  lemma TrimmedSliceIsClean(text: string, lo: nat, hi: nat)
    requires lo <= hi <= |text| && !HasDashes(text) && ';' !in text[lo..hi]
    ensures ';' !in Trim(text[lo..hi]) && !HasDashes(Trim(text[lo..hi]))
  {
    SliceHasNoDashes(text, lo, hi);
    TrimmedIsClean(text[lo..hi]);
  }

  /** Trimming adds neither a `;` nor a `--`. */
  lemma TrimmedIsClean(s: string)
    requires !HasDashes(s) && ';' !in s
    ensures ';' !in Trim(s) && !HasDashes(Trim(s))
  {
    var t := TrimTrimsInside(s);
    var n := |Trim(s)|;
    SliceHasNoDashes(s, t, t + n);
    SliceLacks(s, t, t + n, ';');
  }

  /** A slice of text without a character has none either. */
  lemma SliceLacks(s: string, lo: nat, hi: nat, c: char)
    requires lo <= hi <= |s| && c !in s
    ensures c !in s[lo..hi]
  {
    forall j | 0 <= j < hi - lo
      ensures s[lo..hi][j] != c
    {
      assert s[lo..hi][j] == s[lo + j];
    }
  }

  /** A slice of text without `--` has none either. */
  lemma SliceHasNoDashes(text: string, lo: nat, hi: nat)
    requires lo <= hi <= |text| && !HasDashes(text)
    ensures !HasDashes(text[lo..hi])
  {
    var st := text[lo..hi];
    forall i | 0 <= i < |st| - 1
      ensures !(st[i] == '-' && st[i + 1] == '-')
    {
      assert st[i] == text[lo + i] && st[i + 1] == text[lo + i + 1];
    }
  }

  /** The trimmed text is a slice of the text. */
  lemma TrimTrimsInside(s: string) returns (t: nat)
    ensures t + |Trim(s)| <= |s| && Trim(s) == s[t..t + |Trim(s)|]
  {
    var a := TrimStart(s);
    t := |s| - |a|;
    var b := TrimEnd(a);
    assert Trim(s) == b;
    assert b == a[..|b|];
  }

  /** Each piece of a split is a slice of the text. */
  lemma {:induction false} SplitOnPieceIsSlice(s: string, c: char, k: nat) returns (lo: nat, hi: nat)
    requires k < |SplitOn(s, c)|
    ensures lo <= hi <= |s| && SplitOn(s, c)[k] == s[lo..hi]
    decreases |s|
  {
    if s == [] {
      lo, hi := 0, 0;
    } else {
      var rest := SplitOn(s[1..], c);
      if s[0] == c && k == 0 {
        lo, hi := 0, 0;
      } else if s[0] == c || k > 0 {
        var k' := if s[0] == c then k - 1 else k;
        var l, h := SplitOnPieceIsSlice(s[1..], c, k');
        assert s[1..][l..h] == s[l + 1..h + 1];
        assert SplitOn(s, c)[k] == rest[k'];
        lo, hi := l + 1, h + 1;
      } else {
        SplitOnFirstIsPrefix(s[1..], c);
        var h := |rest[0]|;
        assert SplitOn(s, c)[0] == [s[0]] + rest[0];
        assert [s[0]] + s[1..][..h] == s[0..h + 1];
        lo, hi := 0, h + 1;
      }
    }
  }

  /** The first piece of a split is a prefix of the text. */
  lemma {:induction false} SplitOnFirstIsPrefix(s: string, c: char)
    ensures |SplitOn(s, c)[0]| <= |s| && SplitOn(s, c)[0] == s[..|SplitOn(s, c)[0]|]
    decreases |s|
  {
    if s != [] && s[0] != c {
      SplitOnFirstIsPrefix(s[1..], c);
      var p := SplitOn(s[1..], c)[0];
      assert [s[0]] + s[1..][..|p|] == s[..|p| + 1];
    }
  }

  /** executeSqlFile: runs the statements in order and counts them;
      `executed` is what was sent to the database. */
  method ExecuteSqlFile(content: string) returns (statementsRun: nat, executed: seq<string>)
    ensures executed == Statements(content)
    ensures statementsRun == |Statements(content)|
  {
    statementsRun, executed := RunStatements(Statements(content));
  }

  /** The loop of executeSqlFile: each statement executed once, in order. */
  method RunStatements(statements: seq<string>) returns (statementsRun: nat, executed: seq<string>)
    ensures executed == statements && statementsRun == |statements|
  {
    statementsRun := 0;
    executed := [];
    var i := 0;
    while i < |statements|
      invariant 0 <= i <= |statements|
      invariant executed == statements[..i] && statementsRun == i
    {
      executed := executed + [statements[i]];
      statementsRun := statementsRun + 1;
      i := i + 1;
    }
  }

  // ---------------------------------------------------------------------
  // The tables
  // ---------------------------------------------------------------------

  /** The tables of the database, each in its table order; `config` is the
      key/value table. */
  datatype Tables = Tables(
    config: map<string, string>,
    subscriptions: seq<SubscriptionRow>, paymentRecords: seq<PaymentRecordRow>,
    expenses: seq<ExpenseRow>, categories: seq<Category>, currencies: seq<Currency>,
    household: seq<HouseholdMember>, paymentMethods: seq<PaymentMethodRow>, tags: seq<TagRow>)

  /** The JSON behaviour the whole-database load and save rely on. */
  datatype Env = Env(
    tags: Codec<seq<string>>, json: Codec<Raw>,
    stringifySettings: Settings -> string, settingsSchema: Raw -> Option<Settings>)

  /** The delay of the debounced upload after a local change. */
  const UploadDelayMs: int := 5000

  // ---------------------------------------------------------------------
  // The subscription delete cascade
  // ---------------------------------------------------------------------

  /** `replacementSubscriptionId = null` where it named a deleted subscription. */
  function Unlink(row: SubscriptionRow, ids: seq<string>): SubscriptionRow
  {
    if row.replacementSubscriptionId.Some? && row.replacementSubscriptionId.value in ids
    then row.(replacementSubscriptionId := None)
    else row
  }

  /** The three statements of dbDeleteSubscriptionsBatch (and, with one id,
      of dbDeleteSubscription): records of the subscriptions, the
      subscriptions, then the links to them. */
  function WithoutSubscriptions(t: Tables, ids: seq<string>): Tables
  {
    var records := Filter(t.paymentRecords, (r: PaymentRecordRow) => r.subscriptionId !in ids);
    var kept := Filter(t.subscriptions, (row: SubscriptionRow) => row.id !in ids);
    t.(paymentRecords := records,
       subscriptions := seq(|kept|, i requires 0 <= i < |kept| => Unlink(kept[i], ids)))
  }

  /** After the cascade nothing names a deleted subscription, every other
      subscription and record is still there (unlinked where needed), and
      the other tables are untouched. */
  lemma DeleteCascade(t: Tables, ids: seq<string>)
    ensures var r := WithoutSubscriptions(t, ids);
      && (forall row :: row in r.subscriptions ==>
            row.id !in ids && (row.replacementSubscriptionId.Some? ==> row.replacementSubscriptionId.value !in ids))
      && (forall rec :: rec in r.paymentRecords <==> rec in t.paymentRecords && rec.subscriptionId !in ids)
      && (forall row :: row in t.subscriptions && row.id !in ids ==> Unlink(row, ids) in r.subscriptions)
      && r.config == t.config && r.expenses == t.expenses && r.categories == t.categories
      && r.paymentMethods == t.paymentMethods && r.tags == t.tags
  {
    var kept := Filter(t.subscriptions, (row: SubscriptionRow) => row.id !in ids);
    var r := WithoutSubscriptions(t, ids);
    forall row | row in t.subscriptions && row.id !in ids
      ensures Unlink(row, ids) in r.subscriptions
    {
      var i :| 0 <= i < |kept| && kept[i] == row;
      assert r.subscriptions[i] == Unlink(row, ids);
    }
  }

  // ---------------------------------------------------------------------
  // Renaming and removing a tag across expenses
  // ---------------------------------------------------------------------

  /** `sub` occurs in `s` (SQL `LIKE '%sub%'`, taken case-sensitively). */
  predicate Contains(s: string, sub: string)
  {
    StartsWith(s, sub) || (s != [] && Contains(s[1..], sub))
  }

  /** The pattern both batches select on: the tag name in JSON quotes. */
  function Quoted(name: string): string
  {
    ['"'] + name + ['"']
  }

  /** One row of dbUpdateExpenseTagsBatch: selected rows get the first
      occurrence of the old name replaced, when there is one. */
  function RenamedRow(row: ExpenseRow, oldName: string, newName: string, json: Codec<seq<string>>): ExpenseRow
  {
    if !Contains(row.tags, Quoted(oldName)) then row
    else
      var tags := SafeJsonParse(row.tags, [], json.parse);
      if oldName !in tags then row
      else row.(tags := json.stringify(ReplaceFirst(tags, oldName, newName)))
  }

  /** One row of dbRemoveExpenseTagBatch: selected rows are rewritten with
      every occurrence removed. */
  function StrippedRow(row: ExpenseRow, name: string, json: Codec<seq<string>>): ExpenseRow
  {
    if !Contains(row.tags, Quoted(name)) then row
    else row.(tags := json.stringify(RemoveAll(SafeJsonParse(row.tags, [], json.parse), name)))
  }

  /** Replacing one occurrence of `x` by something else drops its count by one. */
  lemma {:induction false} CountAfterUpdate<T>(s: seq<T>, k: nat, x: T, y: T)
    requires k < |s| && s[k] == x && y != x
    ensures Count(s[k := y], x) + 1 == Count(s, x)
  {
    if k > 0 {
      CountAfterUpdate(s[1..], k - 1, x, y);
      assert s[k := y][1..] == s[1..][k - 1 := y];
    } else {
      assert s[k := y][1..] == s[1..];
    }
  }

  /** A renamed row reads back with exactly one fewer occurrence of the old
      name, the new name where the first one was, and every other tag kept. */
  lemma RenameReplacesFirst(row: ExpenseRow, oldName: string, newName: string, json: Codec<seq<string>>)
    requires Contains(row.tags, Quoted(oldName)) && oldName != newName
    requires json.parse(row.tags).Some? && oldName in json.parse(row.tags).value
    requires var ts := json.parse(row.tags).value;
      json.parse(json.stringify(ReplaceFirst(ts, oldName, newName))) == Some(ReplaceFirst(ts, oldName, newName))
    ensures var ts := json.parse(row.tags).value;
      var read := ToExpense(RenamedRow(row, oldName, newName, json), json).tags;
      && |read| == |ts| && read[IndexOf(ts, oldName)] == newName
      && Count(read, oldName) + 1 == Count(ts, oldName)
      && (forall i :: 0 <= i < |ts| && i != IndexOf(ts, oldName) ==> read[i] == ts[i])
  {
    var ts := json.parse(row.tags).value;
    ReplaceFirstSpec(ts, oldName, newName);
    CountAfterUpdate(ts, IndexOf(ts, oldName), oldName, newName);
  }

  /** A stripped row reads back without the name and with every other tag;
      a selected row whose tags are not JSON is reset to the empty list. */
  lemma RemoveStripsEvery(row: ExpenseRow, name: string, json: Codec<seq<string>>)
    requires Contains(row.tags, Quoted(name))
    requires var ts := SafeJsonParse(row.tags, [], json.parse);
      json.parse(json.stringify(RemoveAll(ts, name))) == Some(RemoveAll(ts, name))
    ensures var ts := SafeJsonParse(row.tags, [], json.parse);
      var read := ToExpense(StrippedRow(row, name, json), json).tags;
      && name !in read && |read| + Count(ts, name) == |ts|
      && (forall t :: t != name ==> (t in read <==> t in ts))
      && (json.parse(row.tags).None? ==> read == [])
  {
  }

  /** Rows that do not mention the quoted name are left alone by both batches. */
  lemma UnselectedRowsKept(row: ExpenseRow, name: string, other: string, json: Codec<seq<string>>)
    requires !Contains(row.tags, Quoted(name))
    ensures RenamedRow(row, name, other, json) == row && StrippedRow(row, name, json) == row
  {
  }

  // ---------------------------------------------------------------------
  // Payment records grouped per subscription
  // ---------------------------------------------------------------------

  /** The history loadAllData gives a subscription: its records in read order. */
  function HistoryOf(records: seq<PaymentRecordRow>, id: string): seq<PaymentRecord>
  {
    if records == [] then []
    else
      var last := records[|records| - 1];
      HistoryOf(records[..|records| - 1], id) + (if last.subscriptionId == id then [last.record] else [])
  }

  /** `prMap.get(id) || []`. */
  function HistoryLookup(m: map<string, seq<PaymentRecord>>, id: string): seq<PaymentRecord>
  {
    if id in m then m[id] else []
  }

  /** A history holds exactly the records stored under that subscription. */
  lemma {:induction false} HistoryOfMembers(records: seq<PaymentRecordRow>, id: string)
    ensures forall rec :: rec in HistoryOf(records, id) <==> PaymentRecordRow(id, rec) in records
  {
    if records != [] {
      var front := records[..|records| - 1];
      HistoryOfMembers(front, id);
      assert records == front + [records[|records| - 1]];
    }
  }

  lemma {:induction false} HistoryOfAppend(a: seq<PaymentRecordRow>, b: seq<PaymentRecordRow>, id: string)
    ensures HistoryOf(a + b, id) == HistoryOf(a, id) + HistoryOf(b, id)
    decreases |b|
  {
    if b != [] {
      var front := b[..|b| - 1];
      HistoryOfAppend(a, front, id);
      assert (a + b)[..|a + b| - 1] == a + front;
      assert (a + b)[|a + b| - 1] == b[|b| - 1];
    } else {
      assert a + b == a;
    }
  }

  /** The Map-building loop of loadAllData. */
  method GroupRecords(records: seq<PaymentRecordRow>) returns (m: map<string, seq<PaymentRecord>>)
    ensures forall id :: HistoryLookup(m, id) == HistoryOf(records, id)
  {
    m := map[];
    var i := 0;
    while i < |records|
      invariant 0 <= i <= |records|
      invariant forall id :: HistoryLookup(m, id) == HistoryOf(records[..i], id)
    {
      var r := records[i];
      if r.subscriptionId !in m {
        m := m[r.subscriptionId := []];
      }
      m := m[r.subscriptionId := m[r.subscriptionId] + [r.record]];
      assert records[..i + 1][..i] == records[..i];
      i := i + 1;
    }
    assert records[..i] == records;
  }

  // ---------------------------------------------------------------------
  // loadAllData and saveAllData
  // ---------------------------------------------------------------------

  datatype LoadResult = NotInitialized | LoadThrows | Loaded(data: AppData)

  /** `cfg.get(key) || fallback`: a missing or empty value gives the fallback. */
  function ConfigOr(config: map<string, string>, key: string, fallback: string): string
  {
    if key in config && config[key] != "" then config[key] else fallback
  }

  /** `parseInt(text, 10)`, with NaN read as 0. */
  function FixerProviderOf(text: string): int
  {
    match ParseInt(text)
    case Some(n) => n
    case None => 0
  }

  /** The subscriptions loadAllData builds, each with its own history. */
  function LoadedSubscriptions(t: Tables, env: Env): seq<Subscription>
  {
    seq(|t.subscriptions|, i requires 0 <= i < |t.subscriptions| =>
      ToSubscription(t.subscriptions[i], HistoryOf(t.paymentRecords, t.subscriptions[i].id), env.tags))
  }

  /** The data loadAllData returns once the settings have parsed. */
  function LoadedData(t: Tables, env: Env, subs: seq<Subscription>, settings: Settings): AppData
  {
    AppData(
      subs,
      seq(|t.expenses|, i requires 0 <= i < |t.expenses| => ToExpense(t.expenses[i], env.tags)),
      t.categories, t.currencies, t.household,
      seq(|t.paymentMethods|, i requires 0 <= i < |t.paymentMethods| => MethodOf(t.paymentMethods[i])),
      seq(|t.tags|, i requires 0 <= i < |t.tags| => TagOf(t.tags[i])),
      settings,
      ConfigOr(t.config, "fixerApiKey", ""),
      FixerProviderOf(ConfigOr(t.config, "fixerProvider", "0")),
      ConfigOr(t.config, "telegramBotToken", ""),
      ConfigOr(t.config, "telegramChatId", ""),
      "telegramEnabled" in t.config && t.config["telegramEnabled"] == "1",
      true,
      Some(ConfigOr(t.config, "ratesApiKey", "")),
      Some(ConfigOr(t.config, "ratesProvider", "frankfurter")))
  }

  /** What loadAllData returns for the tables. */
  function Load(t: Tables, env: Env): LoadResult
  {
    if |t.config| == 0 || "initialized" !in t.config || t.config["initialized"] != "1" then NotInitialized
    else
      var settingsRaw := SafeJsonParse(ConfigOr(t.config, "settings", "{}"), RObj(map[]), env.json.parse);
      match env.settingsSchema(settingsRaw)
      case None => LoadThrows
      case Some(settings) => Loaded(LoadedData(t, env, LoadedSubscriptions(t, env), settings))
  }

  /** A database loads only when its config says it was initialised, and
      every load it allows yields `initialized` true. */
  lemma LoadNeedsInitialized(t: Tables, env: Env)
    ensures Load(t, env).NotInitialized? <==> "initialized" !in t.config || t.config["initialized"] != "1"
    ensures Load(t, env).Loaded? ==> Load(t, env).data.initialized
  {
  }

  /** A present optional string as stored (undefined stored as ""). */
  function OptText(s: Option<string>): string
  {
    if s.Some? then s.value else ""
  }

  /** The config entries saveAllData writes. */
  function SavedConfig(data: AppData, env: Env): map<string, string>
  {
    map[
      "settings" := env.stringifySettings(data.settings),
      "ratesApiKey" := OptText(data.ratesApiKey),
      "ratesProvider" := OptText(data.ratesProvider),
      "fixerApiKey" := data.fixerApiKey,
      "fixerProvider" := IntToString(data.fixerProvider),
      "telegramBotToken" := data.telegramBotToken,
      "telegramChatId" := data.telegramChatId,
      "telegramEnabled" := if data.telegramEnabled then "1" else "0",
      "initialized" := "1"]
  }

  /** Each entry of the saved config holds what was written under its key. */
  lemma SavedConfigEntries(data: AppData, env: Env)
    ensures var c := SavedConfig(data, env);
      && "initialized" in c && c["initialized"] == "1"
      && "settings" in c && c["settings"] == env.stringifySettings(data.settings)
      && "ratesApiKey" in c && c["ratesApiKey"] == OptText(data.ratesApiKey)
      && "ratesProvider" in c && c["ratesProvider"] == OptText(data.ratesProvider)
      && "fixerApiKey" in c && c["fixerApiKey"] == data.fixerApiKey
      && "fixerProvider" in c && c["fixerProvider"] == IntToString(data.fixerProvider)
      && "telegramBotToken" in c && c["telegramBotToken"] == data.telegramBotToken
      && "telegramChatId" in c && c["telegramChatId"] == data.telegramChatId
      && "telegramEnabled" in c && (c["telegramEnabled"] == "1" <==> data.telegramEnabled)
  {
    assert "ratesApiKey"[0] != "fixerApiKey"[0] && "ratesProvider"[0] != "fixerProvider"[0];
    assert "telegramChatId"[8] != "telegramEnabled"[8];
  }

  /** The payment-record rows of one subscription. */
  function RecordRows(id: string, history: seq<PaymentRecord>): seq<PaymentRecordRow>
  {
    seq(|history|, j requires 0 <= j < |history| => PaymentRecordRow(id, history[j]))
  }

  /** Every subscription's records, subscription by subscription. */
  function SavedRecords(subs: seq<Subscription>): seq<PaymentRecordRow>
  {
    if subs == [] then []
    else
      var last := subs[|subs| - 1];
      SavedRecords(subs[..|subs| - 1]) + RecordRows(last.id, last.paymentHistory)
  }

  function SubscriptionRows(subs: seq<Subscription>, json: Codec<seq<string>>): seq<SubscriptionRow>
  {
    seq(|subs|, i requires 0 <= i < |subs| => SubValues(subs[i], json))
  }

  /** The tables saveAllData leaves behind. */
  function Save(data: AppData, env: Env): Tables
  {
    Tables(
      SavedConfig(data, env),
      SubscriptionRows(data.subscriptions, env.tags),
      SavedRecords(data.subscriptions),
      seq(|data.expenses|, i requires 0 <= i < |data.expenses| => ExpValues(data.expenses[i], env.tags)),
      data.categories, data.currencies, data.household,
      seq(|data.paymentMethods|, i requires 0 <= i < |data.paymentMethods| => MethodRow(data.paymentMethods[i])),
      seq(|data.tags|, i requires 0 <= i < |data.tags| => TagRowOf(data.tags[i])))
  }

  /** No two subscriptions share an id. */
  predicate DistinctIds(subs: seq<Subscription>)
  {
    forall i, j :: 0 <= i < j < |subs| ==> subs[i].id != subs[j].id
  }

  lemma {:induction false} HistoryOfRecordRows(sid: string, history: seq<PaymentRecord>, id: string)
    ensures HistoryOf(RecordRows(sid, history), id) == if sid == id then history else []
    decreases |history|
  {
    if history != [] {
      var front := history[..|history| - 1];
      HistoryOfRecordRows(sid, front, id);
      assert RecordRows(sid, history)[..|history| - 1] == RecordRows(sid, front);
    }
  }

  lemma {:induction false} HistoryOfSavedAbsent(subs: seq<Subscription>, id: string)
    requires forall i :: 0 <= i < |subs| ==> subs[i].id != id
    ensures HistoryOf(SavedRecords(subs), id) == []
  {
    if subs != [] {
      var last := subs[|subs| - 1];
      HistoryOfSavedAbsent(subs[..|subs| - 1], id);
      HistoryOfAppend(SavedRecords(subs[..|subs| - 1]), RecordRows(last.id, last.paymentHistory), id);
      HistoryOfRecordRows(last.id, last.paymentHistory, id);
    }
  }

  /** Saved records group back into each subscription's own history. */
  lemma {:induction false} HistoryOfSaved(subs: seq<Subscription>, k: nat)
    requires k < |subs| && DistinctIds(subs)
    ensures HistoryOf(SavedRecords(subs), subs[k].id) == subs[k].paymentHistory
  {
    var front := subs[..|subs| - 1];
    var id := subs[k].id;
    HistoryOfSavedSplit(subs, id);
    if k == |subs| - 1 {
      FrontLacksLastId(subs);
      assert [] + subs[k].paymentHistory == subs[k].paymentHistory;
    } else {
      FrontDistinct(subs, k);
      HistoryOfSaved(front, k);
      assert subs[k].paymentHistory + [] == subs[k].paymentHistory;
    }
  }

  /** The records of the last subscription come after all the others. */
  lemma HistoryOfSavedSplit(subs: seq<Subscription>, id: string)
    requires subs != []
    ensures var last := subs[|subs| - 1];
      HistoryOf(SavedRecords(subs), id)
        == HistoryOf(SavedRecords(subs[..|subs| - 1]), id) + (if last.id == id then last.paymentHistory else [])
  {
    var last := subs[|subs| - 1];
    HistoryOfAppend(SavedRecords(subs[..|subs| - 1]), RecordRows(last.id, last.paymentHistory), id);
    HistoryOfRecordRows(last.id, last.paymentHistory, id);
  }

  /** No earlier subscription has records under the last one's id. */
  lemma FrontLacksLastId(subs: seq<Subscription>)
    requires subs != [] && DistinctIds(subs)
    ensures HistoryOf(SavedRecords(subs[..|subs| - 1]), subs[|subs| - 1].id) == []
  {
    var front := subs[..|subs| - 1];
    var id := subs[|subs| - 1].id;
    forall i | 0 <= i < |front|
      ensures front[i].id != id
    {
      assert front[i] == subs[i];
    }
    HistoryOfSavedAbsent(front, id);
  }

  lemma FrontDistinct(subs: seq<Subscription>, k: nat)
    requires k < |subs| - 1 && DistinctIds(subs)
    ensures DistinctIds(subs[..|subs| - 1]) && subs[..|subs| - 1][k] == subs[k]
    ensures subs[|subs| - 1].id != subs[k].id
  {
    var front := subs[..|subs| - 1];
    forall i, j | 0 <= i < j < |front|
      ensures front[i].id != front[j].id
    {
      assert front[i] == subs[i] && front[j] == subs[j];
    }
  }

  /** The preconditions under which a saved database loads: the settings
      survive JSON and the settings schema. */
  predicate SettingsSurvive(data: AppData, env: Env)
  {
    && env.stringifySettings(data.settings) != ""
    && env.json.parse(env.stringifySettings(data.settings)).Some?
    && env.settingsSchema(env.json.parse(env.stringifySettings(data.settings)).value) == Some(data.settings)
  }

  /** A saved database passes the initialised check and its settings parse. */
  lemma SavedLoads(data: AppData, env: Env)
    requires SettingsSurvive(data, env)
    ensures var t := Save(data, env);
      Load(t, env) == Loaded(LoadedData(t, env, LoadedSubscriptions(t, env), data.settings))
  {
    SavedConfigEntries(data, env);
  }

  /** saveAllData then loadAllData: the config fields come back as written
      (an empty rates provider reads back as "frankfurter"). */
  lemma SaveThenLoadConfig(data: AppData, env: Env)
    requires SettingsSurvive(data, env)
    ensures var r := Load(Save(data, env), env);
      && r.Loaded? && r.data.settings == data.settings
      && r.data.telegramEnabled == data.telegramEnabled
      && r.data.fixerProvider == data.fixerProvider
      && r.data.fixerApiKey == data.fixerApiKey
      && r.data.telegramBotToken == data.telegramBotToken
      && r.data.telegramChatId == data.telegramChatId
      && r.data.initialized
      && r.data.ratesApiKey == Some(OptText(data.ratesApiKey))
      && r.data.ratesProvider == Some(if OptText(data.ratesProvider) == "" then "frankfurter" else OptText(data.ratesProvider))
  {
    var t := Save(data, env);
    SavedLoads(data, env);
    assert t.config == SavedConfig(data, env);
    LoadedConfigFields(data, env, t, LoadedSubscriptions(t, env), data.settings);
  }

  /** The config entries saveAllData writes read back into the same fields. */
  lemma LoadedConfigFields(data: AppData, env: Env, t: Tables, subs: seq<Subscription>, settings: Settings)
    requires t.config == SavedConfig(data, env)
    ensures var d := LoadedData(t, env, subs, settings);
      && d.settings == settings && d.subscriptions == subs
      && d.telegramEnabled == data.telegramEnabled
      && d.fixerProvider == data.fixerProvider
      && d.fixerApiKey == data.fixerApiKey
      && d.telegramBotToken == data.telegramBotToken
      && d.telegramChatId == data.telegramChatId
      && d.initialized
      && d.ratesApiKey == Some(OptText(data.ratesApiKey))
      && d.ratesProvider == Some(if OptText(data.ratesProvider) == "" then "frankfurter" else OptText(data.ratesProvider))
  {
    var c := t.config;
    SavedConfigEntries(data, env);
    ParseIntOfIntToString(data.fixerProvider);
    assert IntToString(data.fixerProvider) != "";
    assert ConfigOr(c, "fixerProvider", "0") == IntToString(data.fixerProvider);
  }

  /** saveAllData then loadAllData: the catalog tables come back whole,
      the 1/0 flags of payment methods and tags included. */
  lemma SaveThenLoadCatalogs(data: AppData, env: Env)
    requires SettingsSurvive(data, env)
    ensures var r := Load(Save(data, env), env);
      && r.Loaded? && r.data.categories == data.categories && r.data.currencies == data.currencies
      && r.data.household == data.household
      && r.data.paymentMethods == data.paymentMethods && r.data.tags == data.tags
  {
    SavedLoads(data, env);
    SavedMethodsLoad(data, env);
    SavedTagsLoad(data, env);
  }

  lemma SavedMethodsLoad(data: AppData, env: Env)
    ensures var t := Save(data, env);
      seq(|t.paymentMethods|, i requires 0 <= i < |t.paymentMethods| => MethodOf(t.paymentMethods[i])) == data.paymentMethods
  {
  }

  lemma SavedTagsLoad(data: AppData, env: Env)
    ensures var t := Save(data, env);
      seq(|t.tags|, i requires 0 <= i < |t.tags| => TagOf(t.tags[i])) == data.tags
  {
  }

  /** saveAllData then loadAllData gives back every subscription with its
      own payment history, and every expense, when ids are distinct and the
      tag lists survive JSON. */
  lemma SaveThenLoadRecords(data: AppData, env: Env)
    requires SettingsSurvive(data, env)
    requires DistinctIds(data.subscriptions)
    requires forall s :: s in data.subscriptions ==> env.tags.parse(env.tags.stringify(s.tags)) == Some(s.tags)
    requires forall e :: e in data.expenses ==> env.tags.parse(env.tags.stringify(e.tags)) == Some(e.tags)
    ensures var r := Load(Save(data, env), env);
      r.Loaded? && r.data.subscriptions == data.subscriptions && r.data.expenses == data.expenses
  {
    SavedLoads(data, env);
    SavedSubscriptionsLoad(data, env);
    SavedExpensesLoad(data, env);
  }

  lemma SavedSubscriptionsLoad(data: AppData, env: Env)
    requires DistinctIds(data.subscriptions)
    requires forall s :: s in data.subscriptions ==> env.tags.parse(env.tags.stringify(s.tags)) == Some(s.tags)
    ensures LoadedSubscriptions(Save(data, env), env) == data.subscriptions
  {
    var loaded := LoadedSubscriptions(Save(data, env), env);
    forall k | 0 <= k < |data.subscriptions|
      ensures loaded[k] == data.subscriptions[k]
    {
      HistoryOfSaved(data.subscriptions, k);
      SubscriptionRowRoundTrip(data.subscriptions[k], env.tags);
    }
  }

  lemma SavedExpensesLoad(data: AppData, env: Env)
    requires forall e :: e in data.expenses ==> env.tags.parse(env.tags.stringify(e.tags)) == Some(e.tags)
    ensures var t := Save(data, env);
      seq(|t.expenses|, i requires 0 <= i < |t.expenses| => ToExpense(t.expenses[i], env.tags)) == data.expenses
  {
    var t := Save(data, env);
    var loaded := seq(|t.expenses|, i requires 0 <= i < |t.expenses| => ToExpense(t.expenses[i], env.tags));
    forall k | 0 <= k < |data.expenses|
      ensures loaded[k] == data.expenses[k]
    {
      ExpenseRowRoundTrip(data.expenses[k], env.tags);
    }
  }

  // ---------------------------------------------------------------------
  // The database module's state
  // ---------------------------------------------------------------------

  class Store {
    var db: Tables
    /** When the debounced upload fires, if one is scheduled (`_syncTimeout`). */
    var pendingUpload: Option<int>

    constructor (db: Tables)
      ensures this.db == db && pendingUpload == None
    {
      this.db := db;
      pendingUpload := None;
    }

    /** triggerSync: stamps the local change, and when sync is on replaces
        any pending upload by one five seconds from now. */
    method TriggerSync(sync: SyncManager, now: int)
      requires sync.Valid()
      modifies sync`config, sync`status, this`pendingUpload
      ensures sync.Valid()
      ensures sync.config == old(sync.config).(localUpdatedAt := now)
      ensures sync.status == old(sync.status).(localUpdatedAt := now)
      ensures pendingUpload == if old(sync.status.enabled) then Some(now + UploadDelayMs) else old(pendingUpload)
    {
      sync.SetLocalUpdatedAt(now);
      if sync.status.enabled {
        pendingUpload := Some(now + UploadDelayMs);
      }
    }

    /** setConfigValue: upserts the serialised value. */
    method SetConfigValue(key: string, value: Raw, json: Codec<Raw>)
      modifies this`db
      ensures db == old(db).(config := old(db.config)[key := Serialized(value, json)])
    {
      db := db.(config := db.config[key := Serialized(value, json)]);
    }

    /** dbDeleteSubscription. */
    method DeleteSubscription(id: string, sync: SyncManager, now: int)
      requires sync.Valid()
      modifies this, sync`config, sync`status
      ensures db == WithoutSubscriptions(old(db), [id])
      ensures sync.Valid() && sync.config == old(sync.config).(localUpdatedAt := now)
      ensures pendingUpload == if old(sync.status.enabled) then Some(now + UploadDelayMs) else old(pendingUpload)
    {
      db := WithoutSubscriptions(db, [id]);
      TriggerSync(sync, now);
    }

    /** dbDeleteSubscriptionsBatch: an empty batch touches nothing, not even
        the sync timestamp. */
    method DeleteSubscriptionsBatch(ids: seq<string>, sync: SyncManager, now: int)
      requires sync.Valid()
      modifies this, sync`config, sync`status
      ensures ids == [] ==> db == old(db) && pendingUpload == old(pendingUpload) && sync.config == old(sync.config)
      ensures ids != [] ==> db == WithoutSubscriptions(old(db), ids) && sync.config == old(sync.config).(localUpdatedAt := now)
      ensures ids != [] ==> pendingUpload == if old(sync.status.enabled) then Some(now + UploadDelayMs) else old(pendingUpload)
      ensures sync.Valid()
    {
      if |ids| == 0 {
        return;
      }
      db := WithoutSubscriptions(db, ids);
      TriggerSync(sync, now);
    }

    /** dbUpdateExpenseTagsBatch: every selected row gets the first
        occurrence of the old name replaced. */
    method UpdateExpenseTagsBatch(oldName: string, newName: string, json: Codec<seq<string>>)
      modifies this`db
      ensures db == old(db).(expenses := seq(|old(db.expenses)|, i requires 0 <= i < |old(db.expenses)| =>
                RenamedRow(old(db.expenses)[i], oldName, newName, json)))
    {
      ghost var before := db.expenses;
      var i := 0;
      while i < |db.expenses|
        invariant 0 <= i <= |db.expenses| == |before|
        invariant db == old(db).(expenses := db.expenses)
        invariant forall j :: 0 <= j < i ==> db.expenses[j] == RenamedRow(before[j], oldName, newName, json)
        invariant forall j :: i <= j < |before| ==> db.expenses[j] == before[j]
      {
        var row := db.expenses[i];
        if Contains(row.tags, Quoted(oldName)) {
          var tags := SafeJsonParse(row.tags, [], json.parse);
          var idx := IndexOf(tags, oldName);
          if idx != -1 {
            tags := tags[idx := newName];
            db := db.(expenses := db.expenses[i := row.(tags := json.stringify(tags))]);
          }
        }
        i := i + 1;
      }
    }

    /** dbRemoveExpenseTagBatch: every selected row is rewritten without the name. */
    method RemoveExpenseTagBatch(name: string, json: Codec<seq<string>>)
      modifies this`db
      ensures db == old(db).(expenses := seq(|old(db.expenses)|, i requires 0 <= i < |old(db.expenses)| =>
                StrippedRow(old(db.expenses)[i], name, json)))
    {
      ghost var before := db.expenses;
      var i := 0;
      while i < |db.expenses|
        invariant 0 <= i <= |db.expenses| == |before|
        invariant db == old(db).(expenses := db.expenses)
        invariant forall j :: 0 <= j < i ==> db.expenses[j] == StrippedRow(before[j], name, json)
        invariant forall j :: i <= j < |before| ==> db.expenses[j] == before[j]
      {
        var row := db.expenses[i];
        if Contains(row.tags, Quoted(name)) {
          var tags := RemoveAll(SafeJsonParse(row.tags, [], json.parse), name);
          db := db.(expenses := db.expenses[i := row.(tags := json.stringify(tags))]);
        }
        i := i + 1;
      }
    }

    /** loadAllData. */
    method LoadAllData(env: Env) returns (r: LoadResult)
      ensures r == Load(db, env)
    {
      var t := db;
      if |t.config| == 0 || "initialized" !in t.config || t.config["initialized"] != "1" {
        return NotInitialized;
      }
      var histories := GroupRecords(t.paymentRecords);
      var settingsRaw := SafeJsonParse(ConfigOr(t.config, "settings", "{}"), RObj(map[]), env.json.parse);
      var settings := env.settingsSchema(settingsRaw);
      if settings.None? {
        return LoadThrows;
      }
      var subs := seq(|t.subscriptions|, i requires 0 <= i < |t.subscriptions| =>
        ToSubscription(t.subscriptions[i], HistoryLookup(histories, t.subscriptions[i].id), env.tags));
      assert subs == LoadedSubscriptions(t, env);
      r := Loaded(LoadedData(t, env, subs, settings.value));
    }

    /** saveAllData: every table cleared and refilled from the data; the
        subscriptions loop writes each subscription then its records. */
    method SaveAllData(data: AppData, env: Env)
      modifies this`db
      ensures db == Save(data, env)
    {
      var subs := data.subscriptions;
      var rows: seq<SubscriptionRow> := [];
      var records: seq<PaymentRecordRow> := [];
      var i := 0;
      while i < |subs|
        invariant 0 <= i <= |subs|
        invariant rows == SubscriptionRows(subs[..i], env.tags)
        invariant records == SavedRecords(subs[..i])
      {
        var s := subs[i];
        rows := rows + [SubValues(s, env.tags)];
        var j := 0;
        while j < |s.paymentHistory|
          invariant 0 <= j <= |s.paymentHistory|
          invariant records == SavedRecords(subs[..i]) + RecordRows(s.id, s.paymentHistory[..j])
        {
          records := records + [PaymentRecordRow(s.id, s.paymentHistory[j])];
          assert RecordRows(s.id, s.paymentHistory[..j + 1]) == RecordRows(s.id, s.paymentHistory[..j]) + [PaymentRecordRow(s.id, s.paymentHistory[j])];
          j := j + 1;
        }
        assert s.paymentHistory[..j] == s.paymentHistory;
        assert subs[..i + 1][..i] == subs[..i];
        i := i + 1;
      }
      assert subs[..i] == subs;
      db := Tables(
        SavedConfig(data, env), rows, records,
        seq(|data.expenses|, i requires 0 <= i < |data.expenses| => ExpValues(data.expenses[i], env.tags)),
        data.categories, data.currencies, data.household,
        seq(|data.paymentMethods|, i requires 0 <= i < |data.paymentMethods| => MethodRow(data.paymentMethods[i])),
        seq(|data.tags|, i requires 0 <= i < |data.tags| => TagRowOf(data.tags[i])));
    }
  }
}
