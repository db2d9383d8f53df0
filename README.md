# Budget store model

A Dafny model of the budget state manager of a personal budgeting app. The manager is the
`BudgetProvider` in `contexts/BudgetContext.tsx`. It holds one snapshot:

- the monthly income and the total savings, each a number or `null`;
- the expense list;
- the survival-mode flag;
- the currency symbol.

Beside the snapshot it holds a `loading` flag and a process-wide id counter. On start-up it
loads the snapshot from on-device storage. Whenever the snapshot or the `loading` flag changes
and the store is not loading, it writes the whole snapshot back under the fixed key
`@budget_data`. That includes the moment loading ends, so every start-up ends with a save.

Modules:

- `Wrappers` (wrappers.dfy): `Option`, standing for `number | null`.
- `UniqueId` (unique_id.dfy): the expense id text `<now>-<counter>-<fragment>`. The counter can
  be read back from the id, so ids minted with different counter values differ, whatever the
  clock reading and the random fragment.
- `Budget` (budget.dfy): `Expense`, `Snapshot`, the defaults, and one pure transformer per
  mutator. `SameExcept` says which field a transformer may change. There are lemmas on
  deletion order, exact removal and id distinctness.
- `Persistence` (persistence.dfy): the parsed stored record. Each field is `Missing` or
  `Given`, and the whole record can be `Corrupt`. The module has the merge over defaults
  (`??` for the two numbers, `||` for the other fields), the load, and the round trip.
- `Store` (store.dfy): class `BudgetStore`. Its fields are `data`, `loading`, `idCounter`,
  a `storage` map standing for the platform key-value store, and a ghost list of the ids
  issued so far. Each method sets `data` to the pure transformer of the old snapshot. Saving
  is an explicit step (`PersistChanges`), and loading is one atomic step. `Start` is start-up
  as the provider runs it: the load, then the save. `StartKeepingUnreadRecord` is start-up with
  the correction described under Findings.
- `Summary` (summary.dfy): the totals the overview screen computes from a snapshot
  (`app/(tabs)/index.tsx`, lines 29-36): the total, the total per category, and the remainder.
- `Scenario` (scenario.dfy): a client that starts a store over empty storage (using the
  corrected start-up), adds rent and a streaming subscription, and checks the figures the
  overview would show.

Facts about the code that the model keeps:

- Income and savings start as, and reset to, `null`.
- Saving a snapshot and loading it back returns it unchanged exactly when its currency symbol
  is non-empty. The loader replaces a falsy currency with `'$'`, so `''` does not survive the
  round trip. `Persistence.RoundTrip` proves both directions.
- A mutation made while the store is still loading is not blocked or queued. It applies to the
  current snapshot, and a later successful load replaces it. A store-wide uniqueness invariant
  over expense ids is not claimed either. Ids loaded from a previous run were minted by a
  counter that restarted at zero, so only the clock and the random fragment keep them apart
  from new ids. The model proves distinctness for ids minted in one process (`OwnedIds`).

## Model

| member | source | states |
|---|---|---|
| UniqueId.Decimal | contexts/BudgetContext.tsx:45 | the counter's text in an id is a non-empty run of decimal digits with no dash |
| UniqueId.DecimalInjective | contexts/BudgetContext.tsx:45 | different counter values are rendered as different texts |
| UniqueId.GeneratedId | contexts/BudgetContext.tsx:45 | the id begins with the clock reading up to its first dash and ends with the random fragment |
| UniqueId.CounterOfGeneratedId | contexts/BudgetContext.tsx:43-46 | the second dash-separated field of every generated id is the counter value, whatever the clock reading and random fragment |
| UniqueId.GeneratedIdsDiffer | contexts/BudgetContext.tsx:43-46 | two ids minted with different counter values differ, even in the same millisecond with the same fragment |
| UniqueId.IssuedIdsDistinct | contexts/BudgetContext.tsx:42-46 | ids minted by successive counter increments are pairwise distinct |
| Store.BudgetStore.GenerateUniqueId | contexts/BudgetContext.tsx:42-46 | increments the counter before use, embeds it in the id, and the id is not among any id minted earlier in the process |
| Store.BudgetStore.constructor | contexts/BudgetContext.tsx:57-64 | a new store holds the defaults `{null, null, [], false, '$'}`, is loading, and has minted no id |
| Store.BudgetStore.LoadData | contexts/BudgetContext.tsx:76-94 | a present record is merged over the defaults; an absent or corrupt record or a failed read keeps the snapshot; `loading` is false afterwards in every case |
| Store.BudgetStore.SaveData | contexts/BudgetContext.tsx:96-102 | a completed save writes the whole snapshot under `@budget_data` and nothing else; a fresh load then gives the snapshot back when its currency is non-empty; a failed save changes nothing |
| Store.BudgetStore.PersistChanges | contexts/BudgetContext.tsx:70-74 | storage is written only when the store is not loading |
| Store.StartUpStorage | contexts/BudgetContext.tsx:70-94 | after start-up as written, a failed write leaves storage alone; a completed read followed by a completed write leaves what a fresh start loads unchanged; a failed read followed by a completed write leaves storage loading as the defaults |
| Store.ReadFailureErasesBudget | contexts/BudgetContext.tsx:70-94 | a stored budget with income 2000 survives a start-up whose read succeeds, and is replaced by the defaults after one whose read fails |
| Store.GuardedStartUpStorage | contexts/BudgetContext.tsx:70-94 | with the save skipped after a failed read, start-up never changes what a fresh start loads, whatever the outcome of the read and the write |
| Store.BudgetStore.Start | contexts/BudgetContext.tsx:66-94 | the snapshot is the loaded one; the store is ready; the save effect then writes that snapshot; from the defaults this is `StartUpStorage` |
| Store.BudgetStore.StartKeepingUnreadRecord | contexts/BudgetContext.tsx:66-94 | as `Start`, but storage is written only after a completed read; from the defaults this is `GuardedStartUpStorage` |
| Store.BudgetStore.SetMonthlyIncome | contexts/BudgetContext.tsx:104-106 | the snapshot becomes the old one with only the income replaced |
| Store.BudgetStore.SetTotalSavings | contexts/BudgetContext.tsx:108-110 | the snapshot becomes the old one with only the savings replaced |
| Store.BudgetStore.AddExpense | contexts/BudgetContext.tsx:112-119 | appends one expense with the caller's name, amount and category, a freshly minted id and the given date; keeps ids distinct and owned by this process |
| Store.BudgetStore.DeleteExpense | contexts/BudgetContext.tsx:121-126 | the expense list becomes the old one filtered by id; distinct ids stay distinct |
| Store.BudgetStore.ToggleSurvivalMode | contexts/BudgetContext.tsx:128-130 | the snapshot becomes the old one with survival mode negated |
| Store.BudgetStore.SetCurrency | contexts/BudgetContext.tsx:132-134 | the snapshot becomes the old one with only the currency replaced |
| Store.BudgetStore.ResetData | contexts/BudgetContext.tsx:136-146 | whatever the prior state, the snapshot becomes the defaults; a completed write stores them under the key, so a fresh start loads the defaults |
| Budget.WithMonthlyIncome | contexts/BudgetContext.tsx:104-106 | the income is the given value and every other field, expenses included, is unchanged |
| Budget.WithTotalSavings | contexts/BudgetContext.tsx:108-110 | the savings are the given value and every other field is unchanged |
| Budget.WithCurrency | contexts/BudgetContext.tsx:132-134 | the currency is the given symbol and every other field is unchanged |
| Budget.ToggledSurvival | contexts/BudgetContext.tsx:128-130 | only the survival flag changes, and it changes value |
| Budget.ToggleTwice | contexts/BudgetContext.tsx:128-130 | toggling twice restores the original snapshot |
| Budget.AppendExpense | contexts/BudgetContext.tsx:118 | the list grows by exactly one element, at the end; the old elements keep their places; no other field changes |
| Budget.AppendKeepsIdsDistinct | contexts/BudgetContext.tsx:112-119 | appending an expense whose id is not yet present keeps ids pairwise distinct |
| Budget.Without | contexts/BudgetContext.tsx:124 | an expense survives exactly when it was present and has a different id; an unknown id leaves the list unchanged |
| Budget.RemoveExpense | contexts/BudgetContext.tsx:121-126 | only the expense list changes, and it becomes the filtered list |
| Budget.WithoutConcat | contexts/BudgetContext.tsx:124 | filtering distributes over concatenation, so survivors keep their relative order |
| Budget.WithoutKeepsIdsDistinct | contexts/BudgetContext.tsx:121-126 | deleting from a list with distinct ids leaves distinct ids |
| Budget.RemovesExactlyOne | contexts/BudgetContext.tsx:121-126 | with distinct ids, deleting the id at position k gives the list without that one element, all others in order |
| Budget.DeleteTwice | contexts/BudgetContext.tsx:121-126 | deleting the same id twice is the same as deleting it once |
| Persistence.Serialize | contexts/BudgetContext.tsx:98 | a saved record has every field present, each holding the snapshot's value, so the loader defaults nothing |
| Persistence.MergeOverDefaults | contexts/BudgetContext.tsx:79-87 | each present field is kept and each missing field takes its default (`null`, `null`, `[]`, `false`); a missing or empty currency becomes `'$'` and any other is kept, so the loaded currency is never empty |
| Persistence.Loaded | contexts/BudgetContext.tsx:76-94 | an absent or unparsable record leaves the snapshot as it was; a parsed record yields exactly its merge over the defaults |
| Persistence.Reload | contexts/BudgetContext.tsx:76-94 | a fresh start loads the defaults when nothing parsable is stored under the key, and otherwise the merge of the stored record |
| Persistence.RoundTrip | contexts/BudgetContext.tsx:81-98 | loading a saved snapshot returns it unchanged if and only if its currency is non-empty |
| Persistence.EmptyRecordLoadsDefaults | contexts/BudgetContext.tsx:81-87 | a record lacking every field loads as the defaults |
| Persistence.OlderRecordWithoutSavings | contexts/BudgetContext.tsx:83 | a record without `totalSavings` loads with `null` savings and every other field as stored |
| Persistence.LoadSaveLoad | contexts/BudgetContext.tsx:76-102 | saving a loaded snapshot and loading it again changes nothing |
| Persistence.ReloadAfterSave | contexts/BudgetContext.tsx:96-102 | after a completed write of a snapshot with a non-empty currency, a fresh start loads that snapshot |
| Summary.TotalSplitsByCategory | contexts/BudgetContext.tsx:5-11 | every expense is essential or non-essential, so the two category totals the overview shows add up to the total of all expenses |
| Summary.AppendRaisesTotals | contexts/BudgetContext.tsx:112-119 | an added expense raises the total and its category's total by its amount, and leaves the other category's total unchanged |
| Scenario.RentAndStreaming | contexts/BudgetContext.tsx:104-119 | from empty storage, income 2000 plus rent 1200 (essential) and streaming 15 (non-essential) gives two expenses with distinct ids, totals 1200 and 15, and 785 remaining |

## Findings

| source | as written | input that shows it | evidently intended | confidence | as-written member | corrected member |
|---|---|---|---|---|---|---|
| contexts/BudgetContext.tsx:70-92 | the save effect depends on `loading`, so it also runs when `finally` sets `loading` to false, even after a read that threw | a budget with income 2000 is stored, and the read at start-up fails: the effect writes the defaults over it | a budget that could not be read is left in storage; start-up saves only after a completed read | medium, not executed | Store.ReadFailureErasesBudget | Store.GuardedStartUpStorage |

## Left out

- Platform storage and JSON: storage is a map from key to an already-parsed record, and
  `Corrupt` stands for any text that does not parse. A field of the wrong JSON type is not
  modelled.
- Failed reads and writes: these are the `readOk` and `writeOk` flags. The log line that
  `loadData` or `saveData` writes on a failure is not modelled.
- Store.BudgetStore.ResetData: its write is not inside a `try`, and its caller in
  `app/(tabs)/settings.tsx` (line 50) does not handle the result. A failed write is therefore an
  unhandled promise rejection. The model only leaves storage unchanged and does not represent
  the rejection.
- The clock and `Math.random`: they are the `now` and `suffix` inputs of
  `GenerateUniqueId`. `now` is a natural number, so a clock before 1970 is not modelled. The
  creation timestamp is the caller-supplied `date`.
- Numbers: amounts, income and savings are integers (for example cents). Floating-point
  rounding, `NaN` and infinities are not modelled.
- React scheduling: the mount-time effect, the batching of `setData`, and the race in which a
  later load overwrites a change made while loading. Loading and saving are explicit, atomic
  steps.
- `useBudget` and its "outside a provider" error: this is context wiring, not budget logic.
- Store.BudgetStore.GenerateUniqueId: the counter is an unbounded natural number. In the
  source it is a JavaScript number, and after 2^53 increments `idCounter++` no longer changes
  it. From then on, ids minted in the same millisecond with the same fragment could repeat. The
  uniqueness proofs do not cover that point.
- Store.BudgetStore.GenerateUniqueId: the counter is a field of the store, not a module-level
  variable. This assumes one store per process, as the app has.
- Screens, navigation, theming and app bootstrap (the files under `app/` and `styles/`). The
  only exception is the overview totals in `app/(tabs)/index.tsx:29-36`, which `Summary`
  states over integers.
