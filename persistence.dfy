/**
 * The persisted record. The store writes the whole snapshot as one JSON
 * record under one fixed key and, on start-up, merges whatever record it
 * finds over the defaults. JSON text itself is not modelled: a record is
 * what parsing yields, field by field, or `Corrupt` when parsing fails.
 */
module Persistence {
  import opened Wrappers
  import opened Budget

  const StorageKey: string := "@budget_data"

  /** One field of a parsed record: `Missing` stands for a field that is
      absent (written by an older shape of the record) and, for the three
      fields read with `||`, also for a JSON `null`. */
  datatype Entry<T> = Missing | Given(value: T)

  datatype StoredRecord =
    | Corrupt
    | Record(
        monthlyIncome: Entry<Option<int>>,
        totalSavings: Entry<Option<int>>,
        expenses: Entry<seq<Expense>>,
        survivalMode: Entry<bool>,
        currency: Entry<string>)

  /** What parsing gives back for a snapshot the store wrote: every field is
      present (none is left to a default) and holds the snapshot's value. */
  function Serialize(s: Snapshot): (r: StoredRecord)
    ensures r.Record?
    ensures r.monthlyIncome.Given? && r.monthlyIncome.value == s.monthlyIncome
    ensures r.totalSavings.Given? && r.totalSavings.value == s.totalSavings
    ensures r.expenses.Given? && r.expenses.value == s.expenses
    ensures r.survivalMode.Given? && r.survivalMode.value == s.survivalMode
    ensures r.currency.Given? && r.currency.value == s.currency
  {
    Record(Given(s.monthlyIncome), Given(s.totalSavings), Given(s.expenses),
           Given(s.survivalMode), Given(s.currency))
  }

  /** The defensive merge of a parsed record over the defaults: `??` for the
      two numbers, `||` for the list, the flag and the currency symbol. */
  function MergeOverDefaults(rec: StoredRecord): (s: Snapshot)
    requires rec.Record?
    ensures rec.monthlyIncome.Missing? ==> s.monthlyIncome == Initial.monthlyIncome
    ensures rec.monthlyIncome.Given? ==> s.monthlyIncome == rec.monthlyIncome.value
    ensures rec.totalSavings.Missing? ==> s.totalSavings == Initial.totalSavings
    ensures rec.totalSavings.Given? ==> s.totalSavings == rec.totalSavings.value
    ensures rec.expenses.Missing? ==> s.expenses == Initial.expenses
    ensures rec.expenses.Given? ==> s.expenses == rec.expenses.value
    ensures rec.survivalMode.Missing? ==> s.survivalMode == Initial.survivalMode
    ensures rec.survivalMode.Given? ==> s.survivalMode == rec.survivalMode.value
    ensures rec.currency.Missing? || rec.currency.value == "" ==> s.currency == DefaultCurrency
    ensures rec.currency.Given? && rec.currency.value != "" ==> s.currency == rec.currency.value
    ensures s.currency != ""
  {
    Snapshot(
      if rec.monthlyIncome.Given? then rec.monthlyIncome.value else None,
      if rec.totalSavings.Given? then rec.totalSavings.value else None,
      if rec.expenses.Given? then rec.expenses.value else [],
      rec.survivalMode.Given? && rec.survivalMode.value,
      if rec.currency.Given? && rec.currency.value != "" then rec.currency.value else DefaultCurrency)
  }

  function Lookup(storage: map<string, StoredRecord>): Option<StoredRecord> {
    if StorageKey in storage then Some(storage[StorageKey]) else None
  }

  /** The snapshot after a load that read `stored`: an absent or unparsable
      record leaves `current` as it was. */
  function Loaded(stored: Option<StoredRecord>, current: Snapshot): (r: Snapshot)
    ensures stored == None || stored == Some(Corrupt) ==> r == current
    ensures stored.Some? && stored.value.Record? ==> r == MergeOverDefaults(stored.value)
  {
    match stored
    case None => current
    case Some(Corrupt) => current
    case Some(rec) => MergeOverDefaults(rec)
  }

  /** The snapshot a fresh start of the application loads from `storage`:
      the defaults unless a parsable record is stored under the key. */
  function Reload(storage: map<string, StoredRecord>): (r: Snapshot)
    ensures StorageKey !in storage || storage[StorageKey] == Corrupt ==> r == Initial
    ensures StorageKey in storage && storage[StorageKey].Record? ==> r == MergeOverDefaults(storage[StorageKey])
    ensures r.currency != ""
  {
    Loaded(Lookup(storage), Initial)
  }

  /** Reading back a saved snapshot gives it back exactly when its currency
      symbol is not empty (`''` is falsy, so the merge replaces it with `'$'`). */
  lemma RoundTrip(s: Snapshot)
    ensures MergeOverDefaults(Serialize(s)) == s <==> s.currency != ""
  {
  }

  /** A record missing every field, such as an empty object, loads as the defaults. */
  lemma EmptyRecordLoadsDefaults()
    ensures MergeOverDefaults(Record(Missing, Missing, Missing, Missing, Missing)) == Initial
  {
  }

  /** A record of the older shape without `totalSavings` loads with no savings
      and every other field as stored. */
  lemma OlderRecordWithoutSavings(income: Option<int>, expenses: seq<Expense>, survival: bool, currency: string)
    requires currency != ""
    ensures MergeOverDefaults(Record(Given(income), Missing, Given(expenses), Given(survival), Given(currency)))
         == Snapshot(income, None, expenses, survival, currency)
  {
  }

  /** Saving what was loaded and loading it again changes nothing. */
  lemma LoadSaveLoad(rec: StoredRecord)
    requires rec.Record?
    ensures MergeOverDefaults(Serialize(MergeOverDefaults(rec))) == MergeOverDefaults(rec)
  {
  }

  /** After a completed write of `s`, a fresh start loads `s` back, provided
      its currency symbol is not empty. */
  lemma ReloadAfterSave(storage: map<string, StoredRecord>, s: Snapshot)
    requires s.currency != ""
    ensures Reload(storage[StorageKey := Serialize(s)]) == s
  {
  }
}
