/**
 * The budget snapshot and its mutators. Every mutator of the store is a
 * spread of the previous snapshot with one field recomputed; here each is a
 * pure function of the previous snapshot, and its contract says which field
 * it recomputes and that every other field is carried over.
 */
module Budget {
  import opened Wrappers

  datatype Category = Essential | NonEssential

  /** Amounts are whole units of the display currency (cents, say). */
  datatype Expense = Expense(id: string, name: string, amount: int, category: Category, date: string)

  /** `null` income or savings is `None`. */
  datatype Snapshot = Snapshot(
    monthlyIncome: Option<int>,
    totalSavings: Option<int>,
    expenses: seq<Expense>,
    survivalMode: bool,
    currency: string)

  const DefaultCurrency: string := "$"

  /** The state the provider starts from, and the state a reset returns to. */
  const Initial: Snapshot := Snapshot(None, None, [], false, DefaultCurrency)

  datatype Field = MonthlyIncome | TotalSavings | Expenses | SurvivalMode | Currency

  /** `s` and `t` agree on every field except possibly `f`. */
  predicate SameExcept(s: Snapshot, t: Snapshot, f: Field) {
    && (f == MonthlyIncome || s.monthlyIncome == t.monthlyIncome)
    && (f == TotalSavings || s.totalSavings == t.totalSavings)
    && (f == Expenses || s.expenses == t.expenses)
    && (f == SurvivalMode || s.survivalMode == t.survivalMode)
    && (f == Currency || s.currency == t.currency)
  }

  predicate HasId(xs: seq<Expense>, id: string) {
    exists i :: 0 <= i < |xs| && xs[i].id == id
  }

  predicate DistinctIds(xs: seq<Expense>) {
    forall i, j :: 0 <= i < j < |xs| ==> xs[i].id != xs[j].id
  }

  function WithMonthlyIncome(s: Snapshot, amount: Option<int>): (r: Snapshot)
    ensures r.monthlyIncome == amount && SameExcept(s, r, MonthlyIncome)
  {
    s.(monthlyIncome := amount)
  }

  function WithTotalSavings(s: Snapshot, amount: Option<int>): (r: Snapshot)
    ensures r.totalSavings == amount && SameExcept(s, r, TotalSavings)
  {
    s.(totalSavings := amount)
  }

  function WithCurrency(s: Snapshot, currency: string): (r: Snapshot)
    ensures r.currency == currency && SameExcept(s, r, Currency)
  {
    s.(currency := currency)
  }

  function ToggledSurvival(s: Snapshot): (r: Snapshot)
    ensures r.survivalMode != s.survivalMode && SameExcept(s, r, SurvivalMode)
  {
    s.(survivalMode := !s.survivalMode)
  }

  /** The new expense goes after every existing one. */
  function AppendExpense(s: Snapshot, e: Expense): (r: Snapshot)
    ensures |r.expenses| == |s.expenses| + 1
    ensures r.expenses[..|s.expenses|] == s.expenses && r.expenses[|s.expenses|] == e
    ensures SameExcept(s, r, Expenses)
  {
    s.(expenses := s.expenses + [e])
  }

  /** The expenses whose id is not `id`, in their original order. */
  function Without(xs: seq<Expense>, id: string): (r: seq<Expense>)
    ensures forall e :: e in r <==> e in xs && e.id != id
    ensures |r| <= |xs|
    ensures !HasId(xs, id) ==> r == xs
  {
    if xs == [] then []
    else
      assert !HasId(xs, id) ==> !HasId(xs[1..], id) by {
        if HasId(xs[1..], id) {
          var i :| 0 <= i < |xs[1..]| && xs[1..][i].id == id;
          assert xs[i + 1].id == id;
        }
      }
      (if xs[0].id == id then [] else [xs[0]]) + Without(xs[1..], id)
  }

  function RemoveExpense(s: Snapshot, id: string): (r: Snapshot)
    ensures r.expenses == Without(s.expenses, id) && SameExcept(s, r, Expenses)
  {
    s.(expenses := Without(s.expenses, id))
  }

  /** Toggling survival mode twice restores the snapshot. */
  lemma ToggleTwice(s: Snapshot)
    ensures ToggledSurvival(ToggledSurvival(s)) == s
  {
  }

  /** Appending an expense with a fresh id keeps ids pairwise distinct. */
  lemma AppendKeepsIdsDistinct(s: Snapshot, e: Expense)
    requires DistinctIds(s.expenses) && !HasId(s.expenses, e.id)
    ensures DistinctIds(AppendExpense(s, e).expenses)
  {
  }

  /** Filtering distributes over concatenation: survivors keep their relative order. */
  lemma {:induction false} WithoutConcat(a: seq<Expense>, b: seq<Expense>, id: string)
    ensures Without(a + b, id) == Without(a, id) + Without(b, id)
  {
    if a == [] {
      assert a + b == b;
    } else {
      assert (a + b)[0] == a[0] && (a + b)[1..] == a[1..] + b;
      WithoutConcat(a[1..], b, id);
    }
  }

  /** Removing from a list with distinct ids leaves distinct ids. */
  lemma {:induction false} WithoutKeepsIdsDistinct(xs: seq<Expense>, id: string)
    requires DistinctIds(xs)
    ensures DistinctIds(Without(xs, id))
  {
    if xs != [] {
      var rest := Without(xs[1..], id);
      WithoutKeepsIdsDistinct(xs[1..], id);
      if xs[0].id != id {
        var r := Without(xs, id);
        assert r == [xs[0]] + rest;
        forall j | 0 <= j < |rest|
          ensures rest[j].id != xs[0].id
        {
          assert rest[j] in xs[1..];
          var k :| 0 <= k < |xs[1..]| && xs[1..][k] == rest[j];
          assert xs[k + 1] == rest[j];
        }
      }
    }
  }

  /** With distinct ids, deleting the id of the expense at `k` removes exactly that expense. */
  lemma RemovesExactlyOne(xs: seq<Expense>, k: nat, id: string)
    requires DistinctIds(xs) && k < |xs| && xs[k].id == id
    ensures Without(xs, id) == xs[..k] + xs[k + 1..]
  {
    var before, hit, after := xs[..k], [xs[k]], xs[k + 1..];
    assert xs == before + (hit + after);
    OthersKeepTheirIds(xs, k);
    WithoutConcat(hit, after, id);
    assert Without(hit, id) == [] by {
      assert hit[1..] == [];
    }
    assert Without(hit + after, id) == after;
    WithoutConcat(before, hit + after, id);
  }

  /** In a list with distinct ids, no expense other than the one at `k` has its id. */
  lemma OthersKeepTheirIds(xs: seq<Expense>, k: nat)
    requires DistinctIds(xs) && k < |xs|
    ensures !HasId(xs[..k], xs[k].id) && !HasId(xs[k + 1..], xs[k].id)
  {
  }

  /** Deleting an id twice is the same as deleting it once. */
  lemma DeleteTwice(s: Snapshot, id: string)
    ensures RemoveExpense(RemoveExpense(s, id), id) == RemoveExpense(s, id)
  {
  }
}
