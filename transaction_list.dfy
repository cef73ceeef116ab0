/** The table of src/components/TransactionList.tsx: the type filter, the
    sort by date or amount, and the message for an empty result. */
module TransactionList {
  import opened Types
  import Ledger
  import Sorting

  /** The filter select: 'all', 'income' or 'expense'. */
  datatype TypeFilter = All | IncomeOnly | ExpenseOnly

  /** The sort select: 'date' or 'amount'. */
  datatype SortBy = ByDate | ByAmount

  /** `filter === 'all' || t.type === filter`. */
  predicate Passes(f: TypeFilter, t: Transaction) {
    match f
    case All => true
    case IncomeOnly => t.kind == Income
    case ExpenseOnly => t.kind == Expense
  }

  function Filtered(ts: seq<Transaction>, f: TypeFilter): seq<Transaction> {
    match f
    case All => ts
    case IncomeOnly => Ledger.OfType(ts, Income)
    case ExpenseOnly => Ledger.OfType(ts, Expense)
  }

  /** The comparator's key: later date first, or larger amount first. */
  function SortKey(order: SortBy, stamp: string -> int): Transaction -> int {
    match order
    case ByDate => Ledger.ByDate(stamp)
    case ByAmount => Ledger.Amount
  }

  /** `filteredTransactions`: the rows shown, in the order shown. */
  function Visible(ts: seq<Transaction>, f: TypeFilter, order: SortBy, stamp: string -> int): (r: seq<Transaction>)
    ensures multiset(r) == multiset(Filtered(ts, f))
    ensures Sorting.SortedDesc(r, SortKey(order, stamp))
  {
    var key := SortKey(order, stamp);
    Sorting.SortDescPermutation(Filtered(ts, f), key);
    Sorting.SortDescSorted(Filtered(ts, f), key);
    Sorting.SortDesc(Filtered(ts, f), key)
  }

  /** Each transaction appears in the table exactly as often as in the list
      when it passes the filter, and not at all otherwise. */
  lemma VisibleCounts(ts: seq<Transaction>, f: TypeFilter, order: SortBy, stamp: string -> int, t: Transaction)
    ensures multiset(Visible(ts, f, order, stamp))[t] == if Passes(f, t) then multiset(ts)[t] else 0
  {
    match f
    case All =>
    case IncomeOnly => Ledger.OfTypeMultiset(ts, Income);
    case ExpenseOnly => Ledger.OfTypeMultiset(ts, Expense);
  }

  /** With 'all' every transaction is shown; otherwise exactly those of the chosen type. */
  lemma VisibleMembers(ts: seq<Transaction>, f: TypeFilter, order: SortBy, stamp: string -> int)
    ensures f == All ==> multiset(Visible(ts, f, order, stamp)) == multiset(ts)
    ensures forall t :: t in Visible(ts, f, order, stamp) <==> t in ts && Passes(f, t)
  {
    forall t ensures t in Visible(ts, f, order, stamp) <==> t in ts && Passes(f, t) {
      VisibleCounts(ts, f, order, stamp, t);
      assert t in Visible(ts, f, order, stamp) <==> t in multiset(Visible(ts, f, order, stamp));
    }
  }

  /** Sorted by amount the amounts never rise; sorted by date the dates never
      get later. */
  lemma VisibleOrder(ts: seq<Transaction>, f: TypeFilter, stamp: string -> int)
    ensures var r := Visible(ts, f, ByAmount, stamp);
            forall i, j :: 0 <= i < j < |r| ==> r[i].amount >= r[j].amount
    ensures var r := Visible(ts, f, ByDate, stamp);
            forall i, j :: 0 <= i < j < |r| ==> stamp(r[i].date) >= stamp(r[j].date)
  {
    var a := Visible(ts, f, ByAmount, stamp);
    assert Sorting.SortedDesc(a, Ledger.Amount);
    var d := Visible(ts, f, ByDate, stamp);
    assert Sorting.SortedDesc(d, Ledger.ByDate(stamp));
  }

  const EmptyIntro := "No transactions found. "
  const FilterHint := "Try changing the filter or "
  const EmptyOutro := "Add your first transaction to get started!"

  /** The text shown instead of the table when nothing is left; the hint
      about the filter only when a filter is on. */
  function EmptyMessage(visible: seq<Transaction>, f: TypeFilter): (m: Option<string>)
    ensures m.Some? <==> visible == []
    ensures m.Some? && f == All ==> m.value == EmptyIntro + EmptyOutro
    ensures m.Some? && f != All ==> m.value == EmptyIntro + FilterHint + EmptyOutro
  {
    if visible != [] then None
    else Some(EmptyIntro + (if f != All then FilterHint else "") + EmptyOutro)
  }
}
