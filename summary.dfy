/**
 * The figures the overview screen derives from a snapshot: the total of all
 * expenses, the total per category and what remains of the income. Each
 * total is a left fold from zero, as `reduce` computes it.
 */
module Summary {
  import opened Wrappers
  import opened Budget

  function Total(xs: seq<Expense>): int {
    if xs == [] then 0 else Total(xs[..|xs| - 1]) + xs[|xs| - 1].amount
  }

  /** The expenses of one category, in list order. */
  function OfCategory(xs: seq<Expense>, c: Category): (r: seq<Expense>)
    ensures forall e :: e in r <==> e in xs && e.category == c
  {
    if xs == [] then []
    else OfCategory(xs[..|xs| - 1], c) + (if xs[|xs| - 1].category == c then [xs[|xs| - 1]] else [])
  }

  function CategoryTotal(xs: seq<Expense>, c: Category): int {
    Total(OfCategory(xs, c))
  }

  /** Income less all expenses. The overview screen renders `monthlyIncome.toString()`
      before it computes this, which throws on a `null` income, so it only gets here with
      an income set; the zero for an unset income is what `null` gives in subtraction. */
  function Remaining(s: Snapshot): int {
    (if s.monthlyIncome.Some? then s.monthlyIncome.value else 0) - Total(s.expenses)
  }

  /** Every expense is essential or not, so the two category totals make up the total. */
  lemma {:induction false} TotalSplitsByCategory(xs: seq<Expense>)
    ensures Total(xs) == CategoryTotal(xs, Essential) + CategoryTotal(xs, NonEssential)
  {
    if xs != [] {
      var init, last := xs[..|xs| - 1], xs[|xs| - 1];
      TotalSplitsByCategory(init);
      var es, ns := OfCategory(init, Essential), OfCategory(init, NonEssential);
      if last.category == Essential {
        assert OfCategory(xs, Essential) == es + [last];
        assert (es + [last])[..|es|] == es;
        assert OfCategory(xs, NonEssential) == ns + [];
        assert ns + [] == ns;
      } else {
        assert OfCategory(xs, NonEssential) == ns + [last];
        assert (ns + [last])[..|ns|] == ns;
        assert OfCategory(xs, Essential) == es + [];
        assert es + [] == es;
      }
    }
  }

  /** Adding an expense raises the total and its own category's total by its
      amount, and leaves the other category's total as it was. */
  lemma AppendRaisesTotals(s: Snapshot, e: Expense, c: Category)
    ensures Total(AppendExpense(s, e).expenses) == Total(s.expenses) + e.amount
    ensures CategoryTotal(AppendExpense(s, e).expenses, c)
         == CategoryTotal(s.expenses, c) + (if e.category == c then e.amount else 0)
  {
    var xs := AppendExpense(s, e).expenses;
    assert xs[..|xs| - 1] == s.expenses;
    var before := OfCategory(s.expenses, c);
    if e.category == c {
      assert OfCategory(xs, c) == before + [e];
      assert (before + [e])[..|before|] == before;
    } else {
      assert OfCategory(xs, c) == before + [];
      assert before + [] == before;
    }
  }
}
