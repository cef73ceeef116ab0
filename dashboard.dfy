/** The overview of src/components/Dashboard.tsx: the four stat cards and
    the five most recent transactions. */
module Dashboard {
  import opened Types
  import Ledger
  import Sorting

  const Green := "text-green-600"
  const Orange := "text-orange-500"
  const Red := "text-red-600"

  /** The Net Profit card colour. */
  function NetColor(net: int): (c: string)
    ensures c == Green <==> net >= 0
    ensures c == Red <==> net < 0
  {
    if net >= 0 then Green else Red
  }

  /** The Profit Margin card colour. */
  function MarginColor(margin: real): (c: string)
    ensures c == Green <==> margin >= 20.0
    ensures c == Orange <==> 10.0 <= margin < 20.0
    ensures c == Red <==> margin < 10.0
  {
    if margin >= 20.0 then Green else if margin >= 10.0 then Orange else Red
  }

  lemma MarginAtLeast(income: int, net: int, p: int)
    requires income > 0
    ensures Ledger.ProfitMargin(income, net) >= p as real <==> 100 * net >= p * income
  {
    var m := Ledger.ProfitMargin(income, net);
    var inc := income as real;
    assert m * inc == 100.0 * (net as real);
    if m >= p as real {
      assert m * inc >= (p as real) * inc;
    } else {
      assert m * inc < (p as real) * inc;
    }
  }

  /** The margin colour read off the totals: no income is red, and
      otherwise the thresholds are a fifth and a tenth of the income. */
  lemma MarginColorOfTotals(s: seq<Transaction>)
    ensures var income := Ledger.TotalIncome(s);
            var net := Ledger.NetProfit(s);
            MarginColor(Ledger.ProfitMargin(income, net))
            == if income <= 0 then Red
               else if 5 * net >= income then Green
               else if 10 * net >= income then Orange
               else Red
  {
    var income := Ledger.TotalIncome(s);
    var net := Ledger.NetProfit(s);
    if income > 0 {
      MarginAtLeast(income, net, 20);
      MarginAtLeast(income, net, 10);
    }
  }

  /** The five newest transactions: the prefix of the sorted list. */
  function Recent(sorted: seq<Transaction>): (r: seq<Transaction>)
    ensures |r| == if |sorted| < 5 then |sorted| else 5
    ensures r == sorted[..|r|]
  {
    if |sorted| < 5 then sorted else sorted[..5]
  }

  /** What `recentTransactions` holds: at most five, newest first, taken
      from the list, and none of the left-out ones is newer than any shown. */
  lemma RecentOfSorted(s: seq<Transaction>, stamp: string -> int)
    ensures var sorted := Sorting.SortDesc(s, Ledger.ByDate(stamp));
            var r := Recent(sorted);
            var rest := sorted[|r|..];
            |r| == (if |s| < 5 then |s| else 5)
            && (forall i, j :: 0 <= i < j < |r| ==> stamp(r[i].date) >= stamp(r[j].date))
            && multiset(r) + multiset(rest) == multiset(s)
            && (forall i, j :: 0 <= i < |r| && 0 <= j < |rest| ==> stamp(r[i].date) >= stamp(rest[j].date))
  {
    var key := Ledger.ByDate(stamp);
    var sorted := Sorting.SortDesc(s, key);
    Sorting.SortDescSorted(s, key);
    Sorting.SortDescPermutation(s, key);
    var r := Recent(sorted);
    Sorting.SortedSplit(sorted, key, |r|);
    assert forall t :: key(t) == stamp(t.date);
  }

  /** The cards and the recent list. */
  datatype View = View(
    totalIncome: int,
    totalExpenses: int,
    netProfit: int,
    profitMargin: real,
    netColor: string,
    marginColor: string,
    recent: seq<Transaction>)

  /** The component body. The totals are taken first; then `.sort` reorders
      the caller's array itself before the first five are sliced off. */
  method Render(transactions: array<Transaction>, stamp: string -> int) returns (v: View)
    modifies transactions
    ensures transactions[..] == Sorting.SortDesc(old(transactions[..]), Ledger.ByDate(stamp))
    ensures v.totalIncome == Ledger.TotalIncome(old(transactions[..]))
    ensures v.totalExpenses == Ledger.TotalExpenses(old(transactions[..]))
    ensures v.netProfit == v.totalIncome - v.totalExpenses
    ensures v.profitMargin == Ledger.ProfitMargin(v.totalIncome, v.netProfit)
    ensures v.netColor == NetColor(v.netProfit) && v.marginColor == MarginColor(v.profitMargin)
    ensures v.recent == Recent(transactions[..])
  {
    var s := transactions[..];
    var income := Ledger.TotalIncome(s);
    var expenses := Ledger.TotalExpenses(s);
    var net := income - expenses;
    var margin := Ledger.ProfitMargin(income, net);
    Sorting.SortInPlace(transactions, Ledger.ByDate(stamp));
    v := View(income, expenses, net, margin, NetColor(net), MarginColor(margin), Recent(transactions[..]));
  }

  /** The sort the component performs leaves every total of the caller's
      list as it was. */
  lemma SortKeepsTotals(s: seq<Transaction>, stamp: string -> int, kind: string)
    ensures Ledger.TotalOf(Sorting.SortDesc(s, Ledger.ByDate(stamp)), kind) == Ledger.TotalOf(s, kind)
  {
    Sorting.SortDescPermutation(s, Ledger.ByDate(stamp));
    Ledger.TotalOfPermutation(Sorting.SortDesc(s, Ledger.ByDate(stamp)), s, kind);
  }
}
