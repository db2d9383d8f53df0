/**
 * The budget store: the live snapshot, the `loading` flag, the id counter
 * and the key-value storage it persists to. Each mutator replaces `data`
 * with the pure transformer of the previous snapshot; saving is an explicit
 * step (`PersistChanges`) taken after a mutation, and a load is one atomic
 * step. Platform reads and writes that may fail take a flag saying whether
 * they completed.
 */
module Store {
  import opened Wrappers
  import opened Budget
  import opened UniqueId
  import opened Persistence

  /** Every expense in `s` carries an id issued in this process, and no two share one. */
  ghost predicate OwnedIds(s: Snapshot, issued: seq<string>) {
    DistinctIds(s.expenses) && forall e :: e in s.expenses ==> e.id in issued
  }

  /** What start-up leaves in storage, as the provider does it: the load,
      then the save that the change of `loading` to false triggers. After a
      failed read that save writes the defaults over the stored record. */
  function StartUpStorage(storage: map<string, StoredRecord>, readOk: bool, writeOk: bool): (r: map<string, StoredRecord>)
    ensures !writeOk ==> r == storage
    ensures writeOk && readOk ==> Reload(r) == Reload(storage)
    ensures writeOk && !readOk ==> Reload(r) == Initial
  {
    if writeOk then storage[StorageKey := Serialize(if readOk then Reload(storage) else Initial)]
    else storage
  }

  /** A stored budget with an income of 2000 survives a start-up whose read
      succeeds, and is replaced by the defaults after one whose read fails. */
  lemma ReadFailureErasesBudget()
    ensures var saved := map[StorageKey := Serialize(WithMonthlyIncome(Initial, Some(2000)))];
      && Reload(saved).monthlyIncome == Some(2000)
      && Reload(StartUpStorage(saved, true, true)) == Reload(saved)
      && Reload(StartUpStorage(saved, false, true)) == Initial
  {
  }

  /** Start-up that saves only after a completed read: whatever the outcome
      of the read and the write, a fresh start afterwards loads what it
      would have loaded before. */
  function GuardedStartUpStorage(storage: map<string, StoredRecord>, readOk: bool, writeOk: bool): (r: map<string, StoredRecord>)
    ensures Reload(r) == Reload(storage)
    ensures !readOk || !writeOk ==> r == storage
  {
    if readOk && writeOk then storage[StorageKey := Serialize(Reload(storage))] else storage
  }

  class BudgetStore {
    var data: Snapshot
    var loading: bool
    var idCounter: nat
    var storage: map<string, StoredRecord>
    /** The ids minted so far, oldest first. */
    ghost var issued: seq<string>

    ghost predicate Valid()
      reads this
    {
      |issued| == idCounter && IssuedInOrder(issued)
    }

    /** A store over `persisted`, before its load has run. */
    constructor (persisted: map<string, StoredRecord>)
      ensures Valid()
      ensures data == Initial && loading && idCounter == 0 && issued == []
      ensures storage == persisted
    {
      data := Initial;
      loading := true;
      idCounter := 0;
      storage := persisted;
      issued := [];
    }

    /** Increments the counter and embeds it in the id, so the id differs from
        every id minted before it, whatever `now` and `suffix` are. */
    method GenerateUniqueId(now: nat, suffix: string) returns (id: string)
      requires Valid()
      modifies this`idCounter, this`issued
      ensures Valid()
      ensures idCounter == old(idCounter) + 1
      ensures id == GeneratedId(now, idCounter, suffix)
      ensures id !in old(issued) && issued == old(issued) + [id]
    {
      idCounter := idCounter + 1;
      id := GeneratedId(now, idCounter, suffix);
      CounterOfGeneratedId(now, idCounter, suffix);
      ghost var earlier := issued;
      issued := issued + [id];
      assert IssuedInOrder(issued);
      IssuedIdsDistinct(issued);
      assert forall i :: 0 <= i < |earlier| ==> earlier[i] == issued[i] != issued[|earlier|];
    }

    /** Reads the record under the storage key and merges it over the defaults;
        an absent or unparsable record, or a failed read, keeps the current
        snapshot. The store is ready afterwards in every case. */
    method LoadData(readOk: bool)
      requires Valid()
      modifies this`data, this`loading
      ensures !loading
      ensures data == if readOk then Loaded(Lookup(storage), old(data)) else old(data)
      ensures Valid()
    {
      if readOk {
        var stored := Lookup(storage);
        if stored.Some? && stored.value.Record? {
          data := MergeOverDefaults(stored.value);
        }
      }
      loading := false;
    }

    /** Writes the whole snapshot under the storage key; a failed write leaves storage as it was. */
    method SaveData(writeOk: bool)
      requires Valid()
      modifies this`storage
      ensures storage == if writeOk then old(storage)[StorageKey := Serialize(data)] else old(storage)
      ensures writeOk && data.currency != "" ==> Reload(storage) == data
      ensures Valid()
    {
      if writeOk {
        storage := storage[StorageKey := Serialize(data)];
        if data.currency != "" {
          ReloadAfterSave(old(storage), data);
        }
      }
    }

    /** The save that follows every change: skipped while the store is still loading. */
    method PersistChanges(writeOk: bool)
      requires Valid()
      modifies this`storage
      ensures loading ==> storage == old(storage)
      ensures !loading ==> storage == if writeOk then old(storage)[StorageKey := Serialize(data)] else old(storage)
      ensures Valid()
    {
      if !loading {
        SaveData(writeOk);
      }
    }

    /** Start-up as the provider runs it: load, then the save-on-change
        effect, which fires because `loading` has turned false. */
    method Start(readOk: bool, writeOk: bool)
      requires Valid() && loading
      modifies this`data, this`loading, this`storage
      ensures Valid() && !loading
      ensures data == if readOk then Loaded(Lookup(old(storage)), old(data)) else old(data)
      ensures storage == if writeOk then old(storage)[StorageKey := Serialize(data)] else old(storage)
      ensures old(data) == Initial ==> storage == StartUpStorage(old(storage), readOk, writeOk)
    {
      LoadData(readOk);
      PersistChanges(writeOk);
    }

    /** Start-up that skips the save when the read failed, so an unreadable
        record is not overwritten by the defaults. */
    method StartKeepingUnreadRecord(readOk: bool, writeOk: bool)
      requires Valid() && loading
      modifies this`data, this`loading, this`storage
      ensures Valid() && !loading
      ensures data == if readOk then Loaded(Lookup(old(storage)), old(data)) else old(data)
      ensures storage == if readOk && writeOk then old(storage)[StorageKey := Serialize(data)] else old(storage)
      ensures old(data) == Initial ==> storage == GuardedStartUpStorage(old(storage), readOk, writeOk)
    {
      LoadData(readOk);
      if readOk {
        PersistChanges(writeOk);
      }
    }

    method SetMonthlyIncome(amount: Option<int>)
      requires Valid()
      modifies this`data
      ensures data == WithMonthlyIncome(old(data), amount)
      ensures Valid()
    {
      data := WithMonthlyIncome(data, amount);
    }

    method SetTotalSavings(amount: Option<int>)
      requires Valid()
      modifies this`data
      ensures data == WithTotalSavings(old(data), amount)
      ensures Valid()
    {
      data := WithTotalSavings(data, amount);
    }

    /** Appends an expense with a freshly minted id and the given creation time. */
    method AddExpense(name: string, amount: int, category: Category, now: nat, suffix: string, date: string)
      requires Valid()
      modifies this`data, this`idCounter, this`issued
      ensures Valid()
      ensures idCounter == old(idCounter) + 1
      ensures var id := GeneratedId(now, idCounter, suffix);
        && id !in old(issued) && issued == old(issued) + [id]
        && data == AppendExpense(old(data), Expense(id, name, amount, category, date))
      ensures OwnedIds(old(data), old(issued)) ==> OwnedIds(data, issued)
    {
      var id := GenerateUniqueId(now, suffix);
      var before := data;
      data := AppendExpense(data, Expense(id, name, amount, category, date));
      if OwnedIds(before, old(issued)) {
        AppendKeepsIdsDistinct(before, Expense(id, name, amount, category, date));
        forall e | e in data.expenses
          ensures e.id in issued
        {
          if e !in before.expenses {
            assert data.expenses == before.expenses + [Expense(id, name, amount, category, date)];
          }
        }
      }
    }

    /** Drops every expense carrying `id`; an unknown id changes nothing. */
    method DeleteExpense(id: string)
      requires Valid()
      modifies this`data
      ensures data == RemoveExpense(old(data), id)
      ensures OwnedIds(old(data), issued) ==> OwnedIds(data, issued)
      ensures Valid()
    {
      var before := data;
      data := RemoveExpense(data, id);
      if OwnedIds(before, issued) {
        WithoutKeepsIdsDistinct(before.expenses, id);
      }
    }

    method ToggleSurvivalMode()
      requires Valid()
      modifies this`data
      ensures data == ToggledSurvival(old(data))
      ensures Valid()
    {
      data := ToggledSurvival(data);
    }

    method SetCurrency(currency: string)
      requires Valid()
      modifies this`data
      ensures data == WithCurrency(old(data), currency)
      ensures Valid()
    {
      data := WithCurrency(data, currency);
    }

    /** Returns to the defaults and writes them at once, whether or not the
        store has finished loading; once that write completes, a fresh start
        loads the defaults. */
    method ResetData(writeOk: bool)
      requires Valid()
      modifies this`data, this`storage
      ensures data == Initial
      ensures storage == if writeOk then old(storage)[StorageKey := Serialize(Initial)] else old(storage)
      ensures writeOk ==> Reload(storage) == Initial
      ensures Valid()
    {
      data := Initial;
      if writeOk {
        storage := storage[StorageKey := Serialize(Initial)];
        ReloadAfterSave(old(storage), Initial);
      }
    }
  }
}
