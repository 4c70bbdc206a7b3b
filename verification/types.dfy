/** The records of the expense tracker (types.ts). */
module Types {
  import opened Seqs

  datatype Option<T> = None | Some(value: T)

  /** The calendar date an expense was made on, as picked in the add form.
      The time of day and the time zone of the stored timestamp are not modelled. */
  datatype Date = Date(year: int, month: int, day: int)

  /** `a` is the same day as `b` or later. */
  predicate NotOlder(a: Date, b: Date) {
    || a.year > b.year
    || (a.year == b.year && a.month > b.month)
    || (a.year == b.year && a.month == b.month && a.day >= b.day)
  }

  /** The only two themes; a `theme` field can hold nothing else. */
  datatype Theme = Light | Dark

  /** One recorded expense. `sharedNote` is the only optional field. */
  datatype Expense = Expense(
    id: string,
    amount: real,
    category: string,
    description: string,
    date: Date,
    isShared: bool,
    sharedNote: Option<string>,
    isSettled: bool,
    createdAt: int)

  datatype UserSettings = UserSettings(
    reminderTime: string,
    enableReminders: bool,
    currency: string,
    categories: seq<string>,
    theme: Theme)

  /** The state the app holds: the settings record and the ledger. */
  datatype AppData = AppData(settings: UserSettings, expenses: seq<Expense>)

  const DefaultCategories: seq<string> :=
    ["Food", "Transport", "Shopping", "Bills", "Entertainment", "Health", "Other"]

  /** Seven labels, no duplicates, "Food" first; in particular the list is
      non-empty, so falling back to its first element is always defined. */
  lemma DefaultCategoriesShape()
    ensures |DefaultCategories| == 7
    ensures Distinct(DefaultCategories)
    ensures DefaultCategories[0] == "Food"
  {
  }

  /** The expense falls in the given calendar year and month (1 to 12). */
  predicate InMonth(e: Expense, year: int, month: int) {
    e.date.year == year && e.date.month == month
  }

  function MonthFilter(year: int, month: int): Expense -> bool {
    (e: Expense) => InMonth(e, year, month)
  }

  function Amount(e: Expense): real {
    e.amount
  }

  /** No two records of a ledger share an id. */
  predicate UniqueIds(l: seq<Expense>) {
    forall i, j :: 0 <= i < j < |l| ==> l[i].id != l[j].id
  }

  predicate IdFresh(l: seq<Expense>, id: string) {
    forall i :: 0 <= i < |l| ==> l[i].id != id
  }
}
