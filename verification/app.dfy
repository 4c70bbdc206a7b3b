/** The app shell (App.tsx) around the ledger: loading both aggregates at
    start-up, saving them back once loading is over, and the add form's
    category fallbacks and reset. */
module App {
  import opened Types
  import opened Seqs
  import Ledger
  import Storage
  import SharedView

  /** The category preselected in the add form after loading: the first
      configured category, or "Food" when the list is empty or its first
      entry is the empty text. */
  function InitialCategory(s: UserSettings): (r: string)
    ensures r != ""
    ensures r == DefaultCategories[0] || (|s.categories| > 0 && r == s.categories[0])
    ensures |s.categories| > 0 && s.categories[0] != "" ==> r == s.categories[0]
  {
    if |s.categories| > 0 && s.categories[0] != "" then s.categories[0] else DefaultCategories[0]
  }

  /** The add form after it closes: empty texts, not shared, the first
      configured category or "Other", and the given day. */
  function ClosedForm(s: UserSettings, today: Date): (d: Ledger.Draft)
    ensures d.category != ""
    ensures !Ledger.Accepted(d)
    ensures d.date == Some(today) && !d.isShared && d.sharedNote == ""
    ensures d.amountText == "" && d.description == ""
    ensures d.category == "Other" || (|s.categories| > 0 && d.category == s.categories[0])
    ensures |s.categories| > 0 && s.categories[0] != "" ==> d.category == s.categories[0]
  {
    var category := if |s.categories| > 0 && s.categories[0] != "" then s.categories[0] else "Other";
    Ledger.Draft("", "", category, Some(today), false, "")
  }

  /** Submitting a freshly reset form adds nothing. */
  lemma SubmitClosedFormIsNoOp(l: seq<Expense>, s: UserSettings, today: Date, freshId: string, now: int, parseAmount: string -> real)
    ensures Ledger.AddExpense(l, ClosedForm(s, today), freshId, now, parseAmount) == l
  {
  }

  /** The start-up load: the settings (merged over the defaults) and the
      ledger read from the store; neither read can fail. */
  function Boot(store: Storage.Store, ec: Storage.ExpenseCodec, sc: Storage.SettingsCodec): (st: AppData)
    ensures st.settings == Storage.GetSettings(store, sc)
    ensures st.expenses == Storage.GetExpenses(store, ec)
    ensures store == map[] ==> st == AppData(Storage.DefaultSettings, [])
  {
    AppData(Storage.GetSettings(store, sc), Storage.GetExpenses(store, ec))
  }

  /** The save effects: while loading nothing is written; afterwards the
      ledger and the settings are each written, each write succeeding or
      failing on its own. */
  function Flush(loading: bool, st: AppData, store: Storage.Store, ec: Storage.ExpenseCodec, sc: Storage.SettingsCodec,
                 expensesOk: bool, settingsOk: bool): (r: Storage.Store)
    ensures loading ==> r == store
    ensures !loading && expensesOk ==> Storage.ExpenseKey in r && r[Storage.ExpenseKey] == ec.encode(st.expenses)
    ensures !loading && settingsOk ==> Storage.SettingsKey in r && r[Storage.SettingsKey] == sc.encode(st.settings)
    ensures !loading && !expensesOk ==> (Storage.ExpenseKey in r <==> Storage.ExpenseKey in store)
    ensures !loading && !expensesOk && Storage.ExpenseKey in store ==> r[Storage.ExpenseKey] == store[Storage.ExpenseKey]
    ensures !loading && !settingsOk ==> (Storage.SettingsKey in r <==> Storage.SettingsKey in store)
    ensures !loading && !settingsOk && Storage.SettingsKey in store ==> r[Storage.SettingsKey] == store[Storage.SettingsKey]
    ensures forall k :: k != Storage.ExpenseKey && k != Storage.SettingsKey ==> (k in r <==> k in store)
    ensures forall k :: k != Storage.ExpenseKey && k != Storage.SettingsKey && k in store ==> r[k] == store[k]
  {
    if loading then store
    else Storage.SaveSettings(Storage.SaveExpenses(store, st.expenses, ec, expensesOk), st.settings, sc, settingsOk)
  }

  /** A flush after loading whose two writes succeed is read back exactly by
      the next start-up; a flush whose ledger write fails still saves the
      settings, and the other way round. */
  lemma BootAfterFlush(st: AppData, store: Storage.Store, ec: Storage.ExpenseCodec, sc: Storage.SettingsCodec,
                       expensesOk: bool, settingsOk: bool)
    requires Storage.ExpenseCodecRoundTripsOn(ec, st.expenses)
    requires Storage.SettingsCodecRoundTripsOn(sc, st.settings)
    ensures var b := Boot(Flush(false, st, store, ec, sc, expensesOk, settingsOk), ec, sc);
      && (expensesOk ==> b.expenses == st.expenses)
      && (!expensesOk ==> b.expenses == Storage.GetExpenses(store, ec))
      && (settingsOk ==> b.settings == st.settings)
      && (!settingsOk ==> b.settings == Storage.GetSettings(store, sc))
  {
    var mid := Storage.SaveExpenses(store, st.expenses, ec, expensesOk);
    Storage.SavesAreIndependent(mid, st.expenses, st.settings, ec, sc, settingsOk);
    Storage.SavesAreIndependent(store, st.expenses, st.settings, ec, sc, expensesOk);
    if expensesOk {
      Storage.SaveThenGetExpenses(store, st.expenses, ec);
    }
    if settingsOk {
      Storage.SaveThenGetSettings(mid, st.settings, sc);
    }
  }

  /** A shared expense of 42.50 added to a ledger with unique ids shows up as
      pending and raises the pending total by 42.50; settling it moves it to
      the settled list and brings the total back. */
  lemma AddSettleScenario(l: seq<Expense>, freshId: string, now: int, today: Date, parseAmount: string -> real)
    requires UniqueIds(l)
    requires IdFresh(l, freshId)
    requires parseAmount("42.50") == 42.50
    ensures var added := Ledger.AddExpense(l, Ledger.Draft("42.50", "Lunch", "Food", Some(today), true, ""), freshId, now, parseAmount);
      && |added| == |l| + 1
      && added[0] in SharedView.Pending(added)
      && SharedView.TotalPending(added) == SharedView.TotalPending(l) + 42.50
      && added[0].(isSettled := true) in SharedView.Settled(Ledger.Settle(added, freshId))
      && SharedView.TotalPending(Ledger.Settle(added, freshId)) == SharedView.TotalPending(l)
  {
    var d := Ledger.Draft("42.50", "Lunch", "Food", Some(today), true, "");
    var added := Ledger.AddExpense(l, d, freshId, now, parseAmount);
    Ledger.AddKeepsIdsUnique(l, d, freshId, now, parseAmount);
    SharedView.SharedPartition(added);
    SharedView.PendingIsLedgerFilter(l);
    SharedView.PendingIsLedgerFilter(added);
    assert added == [added[0]] + l;
    assert Filter(added, SharedView.IsPendingShared) == [added[0]] + Filter(l, SharedView.IsPendingShared);
    SharedView.SettleMovesToSettled(added, 0);
  }
}
