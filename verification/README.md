# SpendWise expense tracker: a Dafny model of its state logic

SpendWise records expenses, tags them by category and can flag them as
shared so that they can be settled later. Its state logic is spread over the
React components and the storage service. This project models that logic as
pure functions over immutable values:

- **Ledger** (`ledger.dfy`, App.tsx). Adding an expense from the form draft
  puts the new record first. Settle and unsettle work by id. A category
  rename is applied across the whole ledger.
- **Reminder** (`reminder.dfy`, App.tsx). The reminder check formats the
  clock as zero-padded "HH:MM". A parser is its proved inverse.
- **Settings screen** (`category_settings.dfy`, `csv_export.dfy`,
  components/Settings.tsx). Categories can be added, deleted and renamed;
  a rename also rewrites the ledger. The theme toggle is here too. The
  monthly CSV export covers row selection, the seven columns and quote
  escaping, with an unescaping inverse.
- **Storage** (`storage.dfy`, services/storage.ts). The store is a
  `map<string, string>` under two keys. Settings are shallow-merged over the
  defaults. Absent or unparsable data falls back to the defaults or to `[]`.
  A failed write is swallowed.
- **Shared view** (`shared_view.dfy`, components/SharedExpenses.tsx). The
  shared records are sorted newest first by a stable insertion sort. They
  split into pending and settled lists. The view also computes the pending
  total and the plural suffix of its caption.
- **Dashboard** (`dashboard.dfy`, components/Dashboard.tsx). It computes
  this month's records and their total, the pie-chart slices and the five
  most recent records.
- **App shell** (`app.dfy`, App.tsx). Start-up loads both aggregates.
  Nothing is saved while loading; afterwards each aggregate is flushed. The
  add form has two category fallbacks.
- `types.dfy` holds the records and the default category list. `seqs.dfy`
  holds generic map, filter, sum and de-duplication functions with their
  laws.

The model follows the code in these respects:

- Settling and unsettling do not look at `isShared`, so a non-shared record
  can be settled too.
- Adding checks only that the amount text and the description are non-empty.
  A negative amount is accepted. The date input is not a required field. When
  it is cleared, the ISO conversion throws after validation has passed. The
  handler then stops before updating the ledger, so nothing is added.
- There is only the local store; there is no remote store.
- There are no edit or delete operations on expenses. The dashboard declares
  callbacks for them, but the app never passes them in. Its pencil and trash
  buttons (components/Dashboard.tsx:115-119) still render. A click calls the
  missing callback and throws in the handler, so the ledger stays unchanged.
- Renaming a category does not check whether the new name already exists. So
  the category list can gain a duplicate (`SaveEditCanDuplicate`).

Abstractions:

- `crypto.randomUUID()` becomes a `freshId` parameter and `Date.now()` a
  `now` parameter.
- `parseFloat` becomes a `parseAmount` parameter.
- Dates are calendar `(year, month, day)` triples. The add form's date
  input is an optional triple, absent when the input was cleared. The clock is an
  `(hours, minutes, seconds)` reading.
- Amounts are exact `real`s.
- JSON encoding and parsing are codec values; the parser may fail. A round
  trip is assumed explicitly, and only for the one value being saved
  (`ExpenseCodecRoundTripsOn`, `SettingsCodecRoundTripsOn`).
- Notification permission is a boolean parameter. Whether a store write
  succeeds is another boolean parameter.

## Model

| member | source | states |
|---|---|---|
| `Types.DefaultCategoriesShape` | types.ts:29 | The default list has seven entries, no duplicates and starts with "Food", so falling back to its first element is always defined |
| `Ledger.AddExpense` | App.tsx:101-117 | An empty amount text or description, or a cleared date input (the ISO conversion throws before the update), leaves the ledger unchanged. Otherwise the result is one longer, the old ledger is its exact tail, and the new head carries the fresh id, the form values, `isSettled` false and a note exactly when shared |
| `Ledger.AddKeepsIdsUnique` | App.tsx:106-117 | When the generated id is not in use, adding keeps ids unique |
| `Ledger.Settle` | App.tsx:121-123 | Length is kept and only `isSettled` can change; it becomes true on every record with the id whether shared or not, and stays as it was elsewhere |
| `Ledger.Unsettle` | App.tsx:125-127 | Length is kept and only `isSettled` can change; it becomes false on the records with the id and stays as it was elsewhere |
| `Ledger.SettleIdempotent` | App.tsx:121-123 | Settling twice equals settling once |
| `Ledger.UnsettleIdempotent` | App.tsx:125-127 | Unsettling twice equals unsettling once |
| `Ledger.UnsettleAfterSettle` | App.tsx:121-127 | Unsettle after settle equals a plain unsettle; when no record with the id was settled before, it restores the ledger exactly |
| `Ledger.SetSettledKeepsIds` | App.tsx:121-127 | Settle and unsettle keep every record's id in place, so id-uniqueness is preserved |
| `Ledger.RenameCategory` | App.tsx:129-131 | Length is kept and only `category` can change; records labelled with the old name get the new one and the others keep theirs |
| `Ledger.RenameCategoryLaws` | App.tsx:129-131 | After a rename to a different name no record keeps the old name. Repeating the rename changes nothing, and renaming a name to itself is the identity |
| `Reminder.ClockTextRoundTrip` | App.tsx:83 | The zero-padded "HH:MM" text and the two-digit parser are mutually inverse for hours and minutes below 100 |
| `Reminder.ReminderFiresIff` | App.tsx:79-87 | `Reminder.ReminderFires`, the check inside the interval, is characterised here. The reminder fires exactly when reminders are on, the configured time parses to the current hour and minute, seconds are below 10, some shared expense is unsettled and permission is granted. A time such as "9:00" never fires |
| `CategorySettings.AddCategory` | components/Settings.tsx:57-62 | A non-empty name not yet listed is appended at the end; otherwise the state is unchanged. The ledger and the other settings fields are never touched |
| `CategorySettings.AddCategoryKeepsDistinct` | components/Settings.tsx:57-62 | Adding keeps the category list duplicate-free |
| `CategorySettings.DeleteCategory` | components/Settings.tsx:64-68 | Every occurrence of the name is removed and the other names keep their counts. The ledger is untouched, so expenses keep the orphaned name |
| `CategorySettings.DeleteCategoryKeepsOrder` | components/Settings.tsx:64-68 | Deleting from a prefix of the list gives a prefix of the result, so the remaining names keep their relative order |
| `CategorySettings.DeleteCategoryKeepsDistinct` | components/Settings.tsx:64-68 | Deleting keeps the category list duplicate-free |
| `CategorySettings.SaveEdit` | components/Settings.tsx:75-83 | It is a no-op unless an edit is open and the new name is non-empty and different. Otherwise the edited name is replaced in place, with length and positions kept, and the ledger gets the same (old, new) rename |
| `CategorySettings.SaveEditKeepsDistinct` | components/Settings.tsx:76-77 | A rename keeps the list duplicate-free when the new name was absent |
| `CategorySettings.SaveEditCanDuplicate` | components/Settings.tsx:76-77 | Renaming "Food" to the existing "Transport" yields ["Transport", "Transport"]: the new name is not checked |
| `CategorySettings.ToggleTheme` | components/Settings.tsx:103 | The theme flips and nothing else in the settings or the ledger changes |
| `CategorySettings.ToggleThemeTwice` | components/Settings.tsx:103 | Toggling twice is the identity |
| `CsvExport.UnquoteQuote` | components/Settings.tsx:39-42 | Unquoting a quoted field recovers the text exactly |
| `CsvExport.QuoteInjective` | components/Settings.tsx:39 | Different texts quote to different fields |
| `CsvExport.Row` | components/Settings.tsx:36-44 | Each data row has as many cells as the seven-column header |
| `CsvExport.RowReadsBack` | components/Settings.tsx:36-44 | The date cell is the formatted date, the category cell is the category, and the description cell unquotes to the description. The amount cell is the formatted amount. A non-empty note unquotes to itself; an absent or empty note gives an empty cell. Each flag cell is "Yes" when its flag is set and "No" otherwise |
| `CsvExport.ExportRows` | components/Settings.tsx:22-45 | Nothing is exported exactly when no expense falls in the selected month or the selection does not parse. Otherwise the first row is the header, and row i is the seven-cell row of the i-th expense of the month in ledger order |
| `CsvExport.ExportSelectsMonth` | components/Settings.tsx:23-27 | An expense is exported exactly when it falls in the selected year and month |
| `CsvExport.CsvStartsWithHeader` | components/Settings.tsx:34-45 | The CSV text opens with the comma-joined header and a newline |
| `Storage.Merge` | services/storage.ts:36-38 | Each field present in the stored object wins and each absent field takes the default. A stored category list replaces the default list wholesale |
| `Storage.MergeLaws` | services/storage.ts:38 | Merging `{}` gives the base and merging a complete record gives that record. Two merges equal one merge of the overlay, merging the same object again changes nothing, and re-merging a merged record over the defaults gives it back |
| `Storage.GetExpenses` | services/storage.ts:15-23 | An absent or empty text, or one that does not parse, gives `[]`. Otherwise the result is the parsed ledger |
| `Storage.GetSettings` | services/storage.ts:33-42 | With nothing stored, or with an unparsable text, the result is exactly the defaults. Otherwise it is the stored object merged over them |
| `Storage.SaveExpenses` | services/storage.ts:25-31 | A failed write leaves the store unchanged. A successful one sets the ledger key, and every other key keeps its value either way |
| `Storage.SaveSettings` | services/storage.ts:44-50 | A failed write leaves the store unchanged. A successful one sets the settings key, and every other key keeps its value either way |
| `Storage.SaveThenGetExpenses` | services/storage.ts:15-31 | When the codec round-trips the ledger being saved, a successful save is read back unchanged |
| `Storage.SaveThenGetSettings` | services/storage.ts:33-50 | When the codec round-trips the record being saved, a successful save is read back unchanged, because every default is overridden |
| `Storage.SavesAreIndependent` | services/storage.ts:3-4 | The two keys differ, so saving one aggregate never changes what is read for the other |
| `SharedView.SortNewestFirst` | components/SharedExpenses.tsx:16 | The result is a permutation of the input, sorted by date with the newest first. It is stable: the records of any one day keep their input order |
| `SharedView.SharedList` | components/SharedExpenses.tsx:15-18 | The shared list holds exactly the shared records, as a newest-first permutation of the filter. Records of the same day keep their ledger order |
| `SharedView.SharedPartition` | components/SharedExpenses.tsx:20-21 | `SharedView.Pending` and `SharedView.Settled` are characterised here. Pending and settled hold exactly the unsettled and settled shared records. Both are newest first and disjoint, and records of the same day keep their ledger order in each. Together they make up the shared list, amounts included |
| `SharedView.PendingIsLedgerFilter` | components/SharedExpenses.tsx:20-24 | `SharedView.TotalPending` is characterised here. The pending list is a permutation of the ledger's pending shared records, and the pending total is the sum of the amounts of the ledger's pending shared records |
| `SharedView.SettlePendingSum` | components/SharedExpenses.tsx:20-24 | Settling an id lowers the pending sum by exactly the pending shared amounts carrying that id |
| `SharedView.SettleMovesToSettled` | components/SharedExpenses.tsx:20-24 | With unique ids, settling a pending shared record moves it to the settled list, leaves nothing with its id pending and lowers the pending total by its amount |
| `SharedView.PluralSuffix` | components/SharedExpenses.tsx:44 | The suffix is "s" exactly when the count is not 1 |
| `Dashboard.MonthlyExpenses` | components/Dashboard.tsx:20-25 | The result holds exactly the records dated in the current year and month, each as many times as in the ledger and none other. It keeps ledger order: a prefix of the ledger yields a prefix of the result |
| `Dashboard.TotalMonthlyCounts` | components/Dashboard.tsx:27 | `Dashboard.TotalMonthly` is characterised here. The monthly total is the sum of the ledger's amounts dated this month, and it is non-negative when all amounts are |
| `Dashboard.ChartCategories` | components/Dashboard.tsx:30 | The chart categories are duplicate-free. They hold exactly the settings categories plus every category used in the ledger, orphaned ones included, ordered by first occurrence |
| `Dashboard.ChartCategoriesStartWithSettings` | components/Dashboard.tsx:30 | A duplicate-free settings list stays unchanged at the head of the chart categories |
| `Dashboard.ChartDataSpec` | components/Dashboard.tsx:29-35 | `Dashboard.ChartData` is characterised here, together with `Dashboard.ChartSumsToTotal`. Every slice is positive and equals its category's monthly total. The slice names are exactly the chart categories with a positive total, in chart-category order, so they are distinct |
| `Dashboard.ChartSumsToTotal` | components/Dashboard.tsx:27-34 | With non-negative amounts the slice values add up to the monthly total |
| `Dashboard.Recent` | components/Dashboard.tsx:97 | The recent list is the first min(5, n) records in ledger order |
| `App.InitialCategory` | App.tsx:40 | The preselected category is non-empty: the first configured category when that is non-empty, otherwise "Food" |
| `App.ClosedForm` | App.tsx:133-141 | Both texts of the reset form are empty, so add rejects it. The date is today, sharing is off and the note is empty. The category is the first configured one when that is non-empty, otherwise "Other" |
| `App.SubmitClosedFormIsNoOp` | App.tsx:133-141 | Submitting a freshly reset form leaves the ledger unchanged |
| `App.Boot` | App.tsx:31-45 | Start-up reads the settings and the ledger from the store; an empty store gives the defaults and `[]` |
| `App.Flush` | App.tsx:50-58 | Nothing is written while loading. After loading, a successful write stores the encoded ledger or settings under its key, and a failed one leaves that key as it was. Keys other than the two aggregates are never touched: none appears or disappears, and each keeps its value |
| `App.BootAfterFlush` | App.tsx:50-58 | After loading, when the codecs round-trip the current ledger and settings, each aggregate whose write succeeded is read back unchanged by the next start-up. The one whose write failed reads as it did before |
| `App.AddSettleScenario` | App.tsx:101-127 | Adding a shared 42.50 expense makes it pending and raises the pending total by 42.50. Settling it moves it to settled and restores the total |

## Left out

- React rendering, routing, hooks and layout. Each handler is modelled as a pure transition.
- The reminder's ten-second `setInterval` and the Notification API (App.tsx:69-98). The fired notification is reduced to the `ReminderFires` predicate, with permission as a parameter.
- The test-notification and service-worker code (components/Settings.tsx:213-250).
- Internals of `JSON.stringify`, `JSON.parse` and `localStorage`.
  - Parsing is an abstract codec that either fails or yields typed values.
  - Parsed objects of the wrong shape are not modelled: a non-array ledger, `null` or mistyped fields, and extra fields carried along by the spread.
- Storage quota: whether a write succeeds is a parameter.
- `crypto.randomUUID`, `Date.now` and `new Date`: ids and creation times are parameters. Dates are calendar triples, so time zones and `toISOString` normalisation are not modelled.
- Floating point: amounts are exact reals.
  - `parseFloat` is a parameter.
  - `toFixed(2)` and `toLocaleDateString` in the export are the `showAmount`/`showDate` parameters.
- The export month picker's "YYYY-MM" text and `parseInt`. The selection arrives already read as a year and month, or as `None`.
- The Blob, object-URL and download steps of the export, and the `alert`. Deletion's `confirm` is taken as accepted.
- The currency select, the reminder toggle and the reminder time input (components/Settings.tsx:115, 190, 206). Each replaces one settings field with the input value.
- The export does not escape the category cell (components/Settings.tsx:38). A category containing a comma therefore shifts the columns of the CSV text. `Row` states the cells, not a parse of the joined text.
- `App.Flush`: the save effects are modelled as one flush of the whole state. Their firing on change and any racing of successive flushes are not modelled.
- The pie-chart colours, the icons and the Tailwind configuration.
