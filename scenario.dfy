/** The rent-and-streaming example: a client of the store that relies on its contracts alone. */
module Scenario {
  import opened Wrappers
  import opened Budget
  import opened Summary
  import opened Persistence
  import opened Store

  /** From empty storage: set an income of 2000, add 1200 of rent and 15 of
      streaming, saving after each change. The two ids differ even if both
      were minted in the same millisecond with the same random fragment. */
  method RentAndStreaming(now1: nat, now2: nat, suffix1: string, suffix2: string, date1: string, date2: string)
    returns (s: Snapshot)
    ensures |s.expenses| == 2 && DistinctIds(s.expenses)
    ensures s.expenses[0].name == "Rent" && s.expenses[1].name == "Netflix"
    ensures CategoryTotal(s.expenses, Essential) == 1200
    ensures CategoryTotal(s.expenses, NonEssential) == 15
    ensures Remaining(s) == 785
  {
    var store := StartWithEmptyStorage();
    store.SetMonthlyIncome(Some(2000));
    store.PersistChanges(true);
    ghost var withIncome := store.data;
    assert withIncome.expenses == [] && OwnedIds(withIncome, store.issued);
    store.AddExpense("Rent", 1200, Essential, now1, suffix1, date1);
    store.PersistChanges(true);
    ghost var withRent := store.data;
    assert |withRent.expenses| == 1 && OwnedIds(withRent, store.issued);
    store.AddExpense("Netflix", 15, NonEssential, now2, suffix2, date2);
    store.PersistChanges(true);
    s := store.data;
    assert OwnedIds(s, store.issued);
    assert s.expenses == [withRent.expenses[0], s.expenses[1]];
    FiguresOfTwo(s, withRent.expenses[0], s.expenses[1]);
  }

  /** A store started over empty storage holds the defaults and is ready. */
  method StartWithEmptyStorage() returns (store: BudgetStore)
    ensures fresh(store) && store.Valid() && !store.loading
    ensures store.data == Initial && OwnedIds(store.data, store.issued)
  {
    store := new BudgetStore(map[]);
    assert Lookup(map[]) == None;
    store.StartKeepingUnreadRecord(true, true);
  }

  /** The overview figures for an income of 2000 and the two expenses above. */
  lemma FiguresOfTwo(s: Snapshot, rent: Expense, streaming: Expense)
    requires s.monthlyIncome == Some(2000) && s.expenses == [rent, streaming]
    requires rent.amount == 1200 && rent.category == Essential
    requires streaming.amount == 15 && streaming.category == NonEssential
    ensures CategoryTotal(s.expenses, Essential) == 1200
    ensures CategoryTotal(s.expenses, NonEssential) == 15
    ensures Remaining(s) == 785
  {
    var xs := s.expenses;
    assert xs[..1] == [rent] && [rent][..0] == [];
    assert OfCategory([rent], Essential) == [rent];
    assert OfCategory([rent], NonEssential) == [];
    assert OfCategory(xs, Essential) == [rent] + [];
    assert OfCategory(xs, NonEssential) == [] + [streaming];
    assert [rent] + [] == [rent] && [] + [streaming] == [streaming];
    assert [streaming][..0] == [];
    assert Total([rent]) == 1200 && Total([streaming]) == 15;
    assert Total(xs) == Total([rent]) + 15;
  }
}
