/** The storage service (services/storage.ts): the ledger and the settings
    record kept as text under two keys of the browser's local key-value store.
    The store is a map; the JSON encoder and parser are abstract codecs whose
    parser may fail (`None`), standing for a thrown parse error. */
module Storage {
  import opened Types

  type Store = map<string, string>

  const ExpenseKey: string := "spendwise_expenses"
  const SettingsKey: string := "spendwise_settings"

  const DefaultSettings: UserSettings := UserSettings("22:00", true, "$", DefaultCategories, Light)

  /** A parsed settings object: any subset of the fields may be present. */
  datatype PartialSettings = PartialSettings(
    reminderTime: Option<string>,
    enableReminders: Option<bool>,
    currency: Option<string>,
    categories: Option<seq<string>>,
    theme: Option<Theme>)

  /** `{}`. */
  const NoFields: PartialSettings := PartialSettings(None, None, None, None, None)

  /** A complete record seen as a parsed object. */
  function AllFields(s: UserSettings): PartialSettings {
    PartialSettings(Some(s.reminderTime), Some(s.enableReminders), Some(s.currency), Some(s.categories), Some(s.theme))
  }

  function Pick<T>(o: Option<T>, d: T): T {
    match o
    case Some(v) => v
    case None => d
  }

  /** `{ ...base, ...p }`: every field present in `p` wins, every absent one
      keeps the base value; a present category list replaces the base list
      wholesale. */
  function Merge(base: UserSettings, p: PartialSettings): (r: UserSettings)
    ensures p.reminderTime.Some? ==> r.reminderTime == p.reminderTime.value
    ensures p.reminderTime.None? ==> r.reminderTime == base.reminderTime
    ensures p.enableReminders.Some? ==> r.enableReminders == p.enableReminders.value
    ensures p.enableReminders.None? ==> r.enableReminders == base.enableReminders
    ensures p.currency.Some? ==> r.currency == p.currency.value
    ensures p.currency.None? ==> r.currency == base.currency
    ensures p.categories.Some? ==> r.categories == p.categories.value
    ensures p.categories.None? ==> r.categories == base.categories
    ensures p.theme.Some? ==> r.theme == p.theme.value
    ensures p.theme.None? ==> r.theme == base.theme
  {
    UserSettings(
      Pick(p.reminderTime, base.reminderTime),
      Pick(p.enableReminders, base.enableReminders),
      Pick(p.currency, base.currency),
      Pick(p.categories, base.categories),
      Pick(p.theme, base.theme))
  }

  /** `{ ...p, ...q }` of two parsed objects. */
  function Overlay(p: PartialSettings, q: PartialSettings): PartialSettings {
    PartialSettings(
      if q.reminderTime.Some? then q.reminderTime else p.reminderTime,
      if q.enableReminders.Some? then q.enableReminders else p.enableReminders,
      if q.currency.Some? then q.currency else p.currency,
      if q.categories.Some? then q.categories else p.categories,
      if q.theme.Some? then q.theme else p.theme)
  }

  /** Laws of the shallow merge: the empty object leaves the base, a complete
      record replaces it, merging in two steps is merging the overlay, merging
      the same object again changes nothing, and re-merging a merged record
      with the defaults gives the same record. */
  lemma MergeLaws(base: UserSettings, s: UserSettings, p: PartialSettings, q: PartialSettings)
    ensures Merge(base, NoFields) == base
    ensures Merge(base, AllFields(s)) == s
    ensures Merge(Merge(base, p), q) == Merge(base, Overlay(p, q))
    ensures Merge(Merge(base, p), p) == Merge(base, p)
    ensures Merge(base, AllFields(Merge(base, p))) == Merge(base, p)
  {
  }

  /** The JSON encoder and parser for the ledger. */
  datatype ExpenseCodec = ExpenseCodec(encode: seq<Expense> -> string, decode: string -> Option<seq<Expense>>)

  /** The JSON encoder and parser for settings. */
  datatype SettingsCodec = SettingsCodec(encode: UserSettings -> string, decode: string -> Option<PartialSettings>)

  /** The assumption a save/load round trip rests on, for the one ledger
      saved: its encoding is a non-empty text that parses back to it. */
  ghost predicate ExpenseCodecRoundTripsOn(c: ExpenseCodec, xs: seq<Expense>) {
    c.encode(xs) != "" && c.decode(c.encode(xs)) == Some(xs)
  }

  /** The same for one settings record: it parses back as a complete object. */
  ghost predicate SettingsCodecRoundTripsOn(c: SettingsCodec, s: UserSettings) {
    c.encode(s) != "" && c.decode(c.encode(s)) == Some(AllFields(s))
  }

  /** Each round-trip assumption can be met for any value: a codec that
      always writes "x" and reads back that value does. */
  lemma RoundTripsOnCanHold(xs: seq<Expense>, s: UserSettings)
    ensures ExpenseCodecRoundTripsOn(ExpenseCodec(_ => "x", _ => Some(xs)), xs)
    ensures SettingsCodecRoundTripsOn(SettingsCodec(_ => "x", _ => Some(AllFields(s))), s)
  {
  }

  /** The stored text under `key`, when there is one and it is not empty
      (an empty text is falsy and reads like an absent key). */
  function Stored(store: Store, key: string): Option<string> {
    if key in store && store[key] != "" then Some(store[key]) else None
  }

  /** `getExpenses`: the parsed ledger, or the empty ledger when nothing is
      stored or the text does not parse. */
  function GetExpenses(store: Store, c: ExpenseCodec): (r: seq<Expense>)
    ensures Stored(store, ExpenseKey).None? ==> r == []
    ensures Stored(store, ExpenseKey).Some? && c.decode(store[ExpenseKey]).None? ==> r == []
    ensures Stored(store, ExpenseKey).Some? && c.decode(store[ExpenseKey]).Some? ==>
      r == c.decode(store[ExpenseKey]).value
  {
    match Stored(store, ExpenseKey)
    case None => []
    case Some(text) =>
      match c.decode(text)
      case Some(xs) => xs
      case None => []
  }

  /** `getSettings`: the stored object merged over the defaults; the
      defaults themselves when nothing is stored or the text does not parse. */
  function GetSettings(store: Store, c: SettingsCodec): (r: UserSettings)
    ensures Stored(store, SettingsKey).None? ==> r == DefaultSettings
    ensures Stored(store, SettingsKey).Some? && c.decode(store[SettingsKey]).None? ==> r == DefaultSettings
    ensures Stored(store, SettingsKey).Some? && c.decode(store[SettingsKey]).Some? ==>
      r == Merge(DefaultSettings, c.decode(store[SettingsKey]).value)
  {
    match Stored(store, SettingsKey)
    case None => Merge(DefaultSettings, NoFields)
    case Some(text) =>
      match c.decode(text)
      case Some(p) => Merge(DefaultSettings, p)
      case None => DefaultSettings
  }

  /** A best-effort write: `writeOk` says whether the store accepted it (a
      full store throws). A failed write is swallowed and leaves the store as
      it was; there is no error channel to the caller. */
  function Write(store: Store, key: string, text: string, writeOk: bool): (r: Store)
    ensures !writeOk ==> r == store
    ensures writeOk ==> key in r && r[key] == text
    ensures forall k :: k != key ==> (k in r <==> k in store)
    ensures forall k :: k != key && k in store ==> r[k] == store[k]
  {
    if writeOk then store[key := text] else store
  }

  /** `saveExpenses`. */
  function SaveExpenses(store: Store, xs: seq<Expense>, c: ExpenseCodec, writeOk: bool): (r: Store)
    ensures !writeOk ==> r == store
    ensures writeOk ==> ExpenseKey in r && r[ExpenseKey] == c.encode(xs)
    ensures forall k :: k != ExpenseKey ==> (k in r <==> k in store)
    ensures forall k :: k != ExpenseKey && k in store ==> r[k] == store[k]
  {
    Write(store, ExpenseKey, c.encode(xs), writeOk)
  }

  /** `saveSettings`. */
  function SaveSettings(store: Store, s: UserSettings, c: SettingsCodec, writeOk: bool): (r: Store)
    ensures !writeOk ==> r == store
    ensures writeOk ==> SettingsKey in r && r[SettingsKey] == c.encode(s)
    ensures forall k :: k != SettingsKey ==> (k in r <==> k in store)
    ensures forall k :: k != SettingsKey && k in store ==> r[k] == store[k]
  {
    Write(store, SettingsKey, c.encode(s), writeOk)
  }

  /** A successful save is read back unchanged. */
  lemma SaveThenGetExpenses(store: Store, xs: seq<Expense>, c: ExpenseCodec)
    requires ExpenseCodecRoundTripsOn(c, xs)
    ensures GetExpenses(SaveExpenses(store, xs, c, true), c) == xs
  {
  }

  /** A successful save of a complete record is read back unchanged, since
      every default is overridden. */
  lemma SaveThenGetSettings(store: Store, s: UserSettings, c: SettingsCodec)
    requires SettingsCodecRoundTripsOn(c, s)
    ensures GetSettings(SaveSettings(store, s, c, true), c) == s
  {
    MergeLaws(DefaultSettings, s, NoFields, NoFields);
  }

  /** The two keys differ, so saving one aggregate never changes what is
      read for the other, whether or not the write succeeds. */
  lemma SavesAreIndependent(store: Store, xs: seq<Expense>, s: UserSettings, ec: ExpenseCodec, sc: SettingsCodec, writeOk: bool)
    ensures GetSettings(SaveExpenses(store, xs, ec, writeOk), sc) == GetSettings(store, sc)
    ensures GetExpenses(SaveSettings(store, s, sc, writeOk), ec) == GetExpenses(store, ec)
  {
    assert ExpenseKey != SettingsKey;
    assert Stored(SaveExpenses(store, xs, ec, writeOk), SettingsKey) == Stored(store, SettingsKey);
    assert Stored(SaveSettings(store, s, sc, writeOk), ExpenseKey) == Stored(store, ExpenseKey);
  }
}
