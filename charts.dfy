/** The analytics page of src/components/Charts.tsx: the per-category
    expense slices, the daily running balance, the per-month income and
    expenses, and the four summary cards. */
module Charts {
  import opened Types
  import opened Dict
  import Ledger
  import Sorting
  import JsText

  // ----- Categories -------------------------------------------------------

  /** `(categoryData[c] || 0) + amount`. */
  function AddAmount(amount: int): int -> int {
    v => v + amount
  }

  function Id(v: int): int { v }

  /** `categoryData` after the `forEach` over the expense transactions `xs`. */
  function CategoryTotals(xs: seq<Transaction>): seq<Entry<int>> {
    if xs == [] then []
    else
      var t := xs[|xs| - 1];
      Upsert(CategoryTotals(xs[..|xs| - 1]), t.category, 0, AddAmount(t.amount))
  }

  /** The part of a transaction's amount that goes to category `c`. */
  function Spend(c: string): Transaction -> int {
    (t: Transaction) => if t.category == c then t.amount else 0
  }

  /** A category has an entry exactly when some transaction has it, and the
      entry holds the sum of their amounts. */
  lemma {:induction false} CategoryTotalsLookup(xs: seq<Transaction>, c: string)
    ensures Has(CategoryTotals(xs), c) <==> exists t :: t in xs && t.category == c
    ensures Lookup(CategoryTotals(xs), c, 0) == Ledger.SumOf(xs, Spend(c))
    decreases |xs|
  {
    if xs != [] {
      var p := xs[..|xs| - 1];
      var t := xs[|xs| - 1];
      assert xs == p + [t];
      CategoryTotalsLookup(p, c);
      UpsertLookup(CategoryTotals(p), t.category, 0, AddAmount(t.amount), c, 0);
      assert forall u :: u in xs <==> u in p || u == t;
      assert Lookup(CategoryTotals(p), t.category, 0) == Lookup(CategoryTotals(p), c, 0) || t.category != c;
    }
  }

  lemma {:induction false} CategoryTotalsDistinct(xs: seq<Transaction>)
    ensures DistinctKeys(CategoryTotals(xs))
    decreases |xs|
  {
    if xs != [] {
      var t := xs[|xs| - 1];
      CategoryTotalsDistinct(xs[..|xs| - 1]);
      UpsertDistinct(CategoryTotals(xs[..|xs| - 1]), t.category, 0, AddAmount(t.amount));
    }
  }

  /** The entries add up to the sum of all the amounts folded in. */
  lemma {:induction false} CategoryTotalsSum(xs: seq<Transaction>)
    ensures SumOver(CategoryTotals(xs), Id) == Ledger.SumOf(xs, Ledger.Amount)
    decreases |xs|
  {
    if xs != [] {
      var p := xs[..|xs| - 1];
      var t := xs[|xs| - 1];
      CategoryTotalsSum(p);
      UpsertSum(CategoryTotals(p), t.category, 0, AddAmount(t.amount), Id);
    }
  }

  /** One slice of the pie: ``name`` is the displayed category, `percentage`
      its share of all expenses, `None` when that share is not a number
      (the expenses add up to zero). */
  datatype CategorySlice = CategorySlice(name: string, value: int, percentage: Option<real>)

  /** `(value / total) * 100`. */
  function Percentage(value: int, total: int): (p: Option<real>)
    ensures p.Some? <==> total != 0
    ensures p.Some? ==> p.value * (total as real) == 100.0 * (value as real)
  {
    if total == 0 then None else Some((value as real / total as real) * 100.0)
  }

  /** The `Object.entries(categoryData).map(...)` step, against a fixed total. */
  function SlicesWith(data: seq<Entry<int>>, total: int): (r: seq<CategorySlice>)
    ensures |r| == |data|
  {
    if data == [] then []
    else
      var e := data[|data| - 1];
      SlicesWith(data[..|data| - 1], total) + [CategorySlice(DisplayName(e.key), e.value, Percentage(e.value, total))]
  }

  /** The slices, each share taken of the sum of all values. */
  function Slices(data: seq<Entry<int>>): seq<CategorySlice> {
    SlicesWith(data, SumOver(data, Id))
  }

  /** Slice by slice: the category's display name, its sum and its share. */
  lemma {:induction false} SlicesAt(data: seq<Entry<int>>, total: int, i: nat)
    requires i < |data|
    ensures SlicesWith(data, total)[i]
            == CategorySlice(DisplayName(data[i].key), data[i].value, Percentage(data[i].value, total))
    decreases |data|
  {
    if i < |data| - 1 {
      SlicesAt(data[..|data| - 1], total, i);
    }
  }

  function Share(sl: CategorySlice): real {
    match sl.percentage
    case Some(p) => p
    case None => 0.0
  }

  /** The sum of the shares, the undefined ones left out. */
  function SumOfShares(r: seq<CategorySlice>): real {
    if r == [] then 0.0 else SumOfShares(r[..|r| - 1]) + Share(r[|r| - 1])
  }

  lemma AddScaled(x: real, p: real, t: real, a: real, b: real)
    requires x * t == a && p * t == b
    ensures (x + p) * t == a + b
  {
  }

  /** The shares of the entries, summed without building the slices. */
  function PercentSum(data: seq<Entry<int>>, total: int): real {
    if data == [] then 0.0
    else
      var p := Percentage(data[|data| - 1].value, total);
      PercentSum(data[..|data| - 1], total) + (if p.Some? then p.value else 0.0)
  }

  lemma {:induction false} SharesOfSlices(data: seq<Entry<int>>, total: int)
    ensures SumOfShares(SlicesWith(data, total)) == PercentSum(data, total)
    decreases |data|
  {
    if data != [] {
      var r := SlicesWith(data, total);
      SharesOfSlices(data[..|data| - 1], total);
      assert r[..|r| - 1] == SlicesWith(data[..|data| - 1], total);
      assert r[|r| - 1].percentage == Percentage(data[|data| - 1].value, total);
    }
  }

  lemma {:induction false} PercentSumProportional(data: seq<Entry<int>>, total: int)
    requires total != 0
    ensures PercentSum(data, total) * (total as real) == 100.0 * (SumOver(data, Id) as real)
    decreases |data|
  {
    if data != [] {
      var d := data[..|data| - 1];
      var e := data[|data| - 1];
      PercentSumProportional(d, total);
      var p := Percentage(e.value, total).value;
      AddScaled(PercentSum(d, total), p, total as real, 100.0 * (SumOver(d, Id) as real), 100.0 * (e.value as real));
    }
  }

  /** The shares add up to 100 times the values' sum over the total. */
  lemma SharesProportional(data: seq<Entry<int>>, total: int)
    requires total != 0
    ensures SumOfShares(SlicesWith(data, total)) * (total as real) == 100.0 * (SumOver(data, Id) as real)
  {
    SharesOfSlices(data, total);
    PercentSumProportional(data, total);
    Substitute(SumOfShares(SlicesWith(data, total)), PercentSum(data, total),
               total as real, 100.0 * (SumOver(data, Id) as real));
  }

  lemma Substitute(x: real, y: real, t: real, v: real)
    requires x == y && y * t == v
    ensures x * t == v
  {
  }

  /** Whenever the shares are defined they add up to 100. */
  lemma SharesSumTo100(data: seq<Entry<int>>)
    requires SumOver(data, Id) != 0
    ensures SumOfShares(Slices(data)) == 100.0
  {
    SharesProportional(data, SumOver(data, Id));
    Cancel(SumOfShares(SlicesWith(data, SumOver(data, Id))), SumOver(data, Id) as real, SumOver(data, Id) as real);
  }

  lemma Cancel(x: real, t: real, u: real)
    requires t != 0.0 && u == t && x * t == 100.0 * u
    ensures x == 100.0
  {
    assert 100.0 * u == 100.0 * t;
    assert (x - 100.0) * t == 0.0;
  }

  /** `processCategoryData()`: the expenses are picked out and folded into
      `categoryData` one by one, then turned into slices. */
  method ProcessCategoryData(transactions: seq<Transaction>) returns (slices: seq<CategorySlice>)
    ensures slices == Slices(CategoryTotals(Ledger.OfType(transactions, Expense)))
  {
    var expenses := Ledger.OfType(transactions, Expense);
    var categoryData: seq<Entry<int>> := [];
    var i := 0;
    while i < |expenses|
      invariant 0 <= i <= |expenses|
      invariant categoryData == CategoryTotals(expenses[..i])
    {
      var t := expenses[i];
      assert expenses[..i + 1] == expenses[..i] + [t];
      categoryData := Upsert(categoryData, t.category, 0, AddAmount(t.amount));
      i := i + 1;
    }
    assert expenses[..i] == expenses;
    slices := Slices(categoryData);
  }

  /** The part of a transaction's amount that is an expense in category `c`. */
  function ExpenseSpend(c: string): Transaction -> int {
    (t: Transaction) => if t.kind == Expense && t.category == c then t.amount else 0
  }

  /** What the pie shows: one slice per expense category, in the order the
      categories first occur, holding that category's expenses; the slices
      add up to the Total Expenses card, and the shares to 100. */
  lemma CategoryDataMeaning(s: seq<Transaction>, c: string)
    ensures var data := CategoryTotals(Ledger.OfType(s, Expense));
            DistinctKeys(data)
            && (Has(data, c) <==> exists t :: t in s && t.kind == Expense && t.category == c)
            && Lookup(data, c, 0) == Ledger.SumOf(s, ExpenseSpend(c))
            && SumOver(data, Id) == Ledger.TotalExpenses(s)
            && (Ledger.TotalExpenses(s) != 0 ==> SumOfShares(Slices(data)) == 100.0)
  {
    var xs := Ledger.OfType(s, Expense);
    CategoryTotalsDistinct(xs);
    CategoryTotalsLookup(xs, c);
    Ledger.OfTypeMembers(s, Expense);
    Ledger.SumOfOfType(s, Expense, Spend(c), ExpenseSpend(c));
    CategoryTotalsSum(xs);
    if Ledger.TotalExpenses(s) != 0 {
      SharesSumTo100(CategoryTotals(xs));
    }
  }

  // ----- Display names ----------------------------------------------------

  /** No `c` before position `i`. */
  predicate NoneBefore(s: string, c: char, i: int) {
    forall j :: 0 <= j < i && j < |s| ==> s[j] != c
  }

  /** `s.replace(from, to)` with a one-character string pattern: only the
      first occurrence is replaced. */
  function ReplaceFirst(s: string, from: char, to: char): (r: string)
    ensures |r| == |s|
    ensures forall i :: 0 <= i < |s| ==>
              r[i] == if s[i] == from && NoneBefore(s, from, i) then to else s[i]
  {
    if s == [] then []
    else if s[0] == from then [to] + s[1..]
    else
      var rest := ReplaceFirst(s[1..], from, to);
      assert forall i :: 1 <= i < |s| ==> (NoneBefore(s, from, i) <==> NoneBefore(s[1..], from, i - 1)) by {
        forall i | 1 <= i < |s| ensures NoneBefore(s, from, i) <==> NoneBefore(s[1..], from, i - 1) {
          if NoneBefore(s[1..], from, i - 1) {
            forall j | 0 <= j < i && j < |s| ensures s[j] != from {
              if j > 0 { assert s[j] == s[1..][j - 1]; }
            }
          }
        }
      }
      [s[0]] + rest
  }

  /** `.replace(/\b\w/g, l => l.toUpperCase())`: a word character that does
      not follow another one is upper-cased. `afterWord` says whether the
      character before `s` is a word character. */
  function CapitalizeWords(s: string, afterWord: bool): (r: string)
    ensures |r| == |s|
    ensures forall i :: 0 <= i < |s| ==>
              r[i] == if JsText.IsWordChar(s[i]) && !(if i == 0 then afterWord else JsText.IsWordChar(s[i - 1]))
                      then JsText.ToUpper(s[i]) else s[i]
  {
    if s == [] then []
    else
      var c := if JsText.IsWordChar(s[0]) && !afterWord then JsText.ToUpper(s[0]) else s[0];
      var rest := CapitalizeWords(s[1..], JsText.IsWordChar(s[0]));
      var r := [c] + rest;
      forall i | 0 <= i < |s|
        ensures r[i] == if JsText.IsWordChar(s[i]) && !(if i == 0 then afterWord else JsText.IsWordChar(s[i - 1]))
                        then JsText.ToUpper(s[i]) else s[i]
      {
        if i > 0 {
          assert r[i] == rest[i - 1] && s[i] == s[1..][i - 1];
          if i > 1 {
            assert s[i - 1] == s[1..][i - 2];
          }
        }
      }
      r
  }

  /** `name.replace('-', ' ').replace(/\b\w/g, l => l.toUpperCase())`. */
  function DisplayName(key: string): (name: string)
    ensures |name| == |key|
  {
    CapitalizeWords(ReplaceFirst(key, '-', ' '), false)
  }

  /** A built-in expense category shows with a capital initial. */
  lemma DisplayNameSalary()
    ensures DisplayName("salary") == "Salary"
  {
    SalaryHasNoHyphen();
    SalaryCapitalized();
  }

  lemma SalaryHasNoHyphen()
    ensures ReplaceFirst("salary", '-', ' ') == "salary"
  {
    var s := "salary";
    var r := ReplaceFirst(s, '-', ' ');
    forall i | 0 <= i < |s| ensures r[i] == s[i] {
      assert s[i] != '-';
    }
  }

  lemma SalaryCapitalized()
    ensures CapitalizeWords("salary", false) == "Salary"
  {
    var s := "salary";
    var d := CapitalizeWords(s, false);
    assert JsText.ToUpper('s') == 'S';
    assert d[0] == JsText.ToUpper(s[0]);
    forall i | 1 <= i < |s| ensures d[i] == s[i] {
      assert JsText.IsWordChar(s[i - 1]);
    }
  }

  /** Only the first hyphen becomes a space, though every word is capitalised. */
  lemma DisplayNameSecondHyphenKept()
    ensures DisplayName("a-b-c") == "A B-C"
  {
    FirstHyphenReplaced();
    SpacedWordsCapitalized();
  }

  lemma FirstHyphenReplaced()
    ensures ReplaceFirst("a-b-c", '-', ' ') == "a b-c"
  {
    var s := "a-b-c";
    assert NoneBefore(s, '-', 1);
    assert !NoneBefore(s, '-', 3) by { assert s[1] == '-'; }
  }

  lemma SpacedWordsCapitalized()
    ensures CapitalizeWords("a b-c", false) == "A B-C"
  {
    var s := "a b-c";
    var d := CapitalizeWords(s, false);
    assert JsText.ToUpper('a') == 'A' && JsText.ToUpper('b') == 'B' && JsText.ToUpper('c') == 'C';
    assert d[0] == JsText.ToUpper(s[0]);
    assert d[1] == s[1];
    assert d[2] == JsText.ToUpper(s[2]);
    assert d[3] == s[3];
    assert d[4] == JsText.ToUpper(s[4]);
  }

  // ----- Daily trend ------------------------------------------------------

  /** One point of the balance line: `date` is the displayed day. */
  datatype DailyPoint = DailyPoint(date: string, amount: int, cumulative: int)

  const NoPoint := DailyPoint("", 0, 0)

  function Put(p: DailyPoint): DailyPoint -> DailyPoint {
    _ => p
  }

  /** The comparator `a - b` on the parsed dates: earliest first. */
  function Earliest(stamp: string -> int): Transaction -> int {
    (t: Transaction) => -stamp(t.date)
  }

  /** `dailyData` after the `forEach` over `s`: each transaction overwrites
      its date's entry with its signed amount and the running balance so
      far. `dayLabel` stands for `toLocaleDateString`. */
  function Daily(s: seq<Transaction>, dayLabel: string -> string): seq<Entry<DailyPoint>> {
    if s == [] then []
    else
      var t := s[|s| - 1];
      Upsert(Daily(s[..|s| - 1], dayLabel), t.date, NoPoint,
             Put(DailyPoint(dayLabel(t.date), Ledger.Signed(t), Ledger.SumOf(s, Ledger.Signed))))
  }

  /** The position of the last transaction on date `d`, or -1. */
  function LastOnDate(s: seq<Transaction>, d: string): (k: int)
    ensures -1 <= k < |s|
    ensures k >= 0 ==> s[k].date == d && forall j :: k < j < |s| ==> s[j].date != d
    ensures k < 0 ==> forall j :: 0 <= j < |s| ==> s[j].date != d
  {
    if s == [] then -1
    else if s[|s| - 1].date == d then |s| - 1
    else LastOnDate(s[..|s| - 1], d)
  }

  /** A date has a point exactly when some transaction has that date, and
      the point shows the last such transaction's signed amount and the
      running balance just after it. */
  lemma {:induction false} DailyLookup(s: seq<Transaction>, dayLabel: string -> string, d: string)
    ensures Has(Daily(s, dayLabel), d) <==> LastOnDate(s, d) >= 0
    ensures var k := LastOnDate(s, d);
            k >= 0 ==> Lookup(Daily(s, dayLabel), d, NoPoint)
                       == DailyPoint(dayLabel(d), Ledger.Signed(s[k]), Ledger.SumOf(s[..k + 1], Ledger.Signed))
    decreases |s|
  {
    if s != [] {
      if s[|s| - 1].date == d {
        DailyLookupAtLast(s, dayLabel, d);
      } else {
        DailyLookup(s[..|s| - 1], dayLabel, d);
        DailyLookupElsewhere(s, dayLabel, d);
      }
    }
  }

  lemma DailyLookupAtLast(s: seq<Transaction>, dayLabel: string -> string, d: string)
    requires s != [] && s[|s| - 1].date == d
    ensures Has(Daily(s, dayLabel), d) && LastOnDate(s, d) == |s| - 1
    ensures Lookup(Daily(s, dayLabel), d, NoPoint)
            == DailyPoint(dayLabel(d), Ledger.Signed(s[|s| - 1]), Ledger.SumOf(s[..|s|], Ledger.Signed))
  {
    DailyLastStep(s, dayLabel);
    assert s[..|s|] == s;
  }

  lemma DailyLookupElsewhere(s: seq<Transaction>, dayLabel: string -> string, d: string)
    requires s != [] && s[|s| - 1].date != d
    requires var p := s[..|s| - 1];
             (Has(Daily(p, dayLabel), d) <==> LastOnDate(p, d) >= 0)
             && var k := LastOnDate(p, d);
                k >= 0 ==> Lookup(Daily(p, dayLabel), d, NoPoint)
                           == DailyPoint(dayLabel(d), Ledger.Signed(p[k]), Ledger.SumOf(p[..k + 1], Ledger.Signed))
    ensures Has(Daily(s, dayLabel), d) <==> LastOnDate(s, d) >= 0
    ensures var k := LastOnDate(s, d);
            k >= 0 ==> Lookup(Daily(s, dayLabel), d, NoPoint)
                       == DailyPoint(dayLabel(d), Ledger.Signed(s[k]), Ledger.SumOf(s[..k + 1], Ledger.Signed))
  {
    var p := s[..|s| - 1];
    DailyOtherStep(s, dayLabel, d);
    var k := LastOnDate(p, d);
    assert LastOnDate(s, d) == k;
    if k >= 0 {
      assert s[k] == p[k];
      assert s[..k + 1] == p[..k + 1];
    }
  }

  /** The last transaction's date reads the point that transaction wrote. */
  lemma DailyLastStep(s: seq<Transaction>, dayLabel: string -> string)
    requires s != []
    ensures var t := s[|s| - 1];
            Has(Daily(s, dayLabel), t.date)
            && Lookup(Daily(s, dayLabel), t.date, NoPoint)
               == DailyPoint(dayLabel(t.date), Ledger.Signed(t), Ledger.SumOf(s, Ledger.Signed))
  {
    var t := s[|s| - 1];
    var pt := DailyPoint(dayLabel(t.date), Ledger.Signed(t), Ledger.SumOf(s, Ledger.Signed));
    UpsertLookup(Daily(s[..|s| - 1], dayLabel), t.date, NoPoint, Put(pt), t.date, NoPoint);
  }

  /** Any other date reads as it did before the last transaction. */
  lemma DailyOtherStep(s: seq<Transaction>, dayLabel: string -> string, d: string)
    requires s != [] && s[|s| - 1].date != d
    ensures Has(Daily(s, dayLabel), d) <==> Has(Daily(s[..|s| - 1], dayLabel), d)
    ensures Lookup(Daily(s, dayLabel), d, NoPoint) == Lookup(Daily(s[..|s| - 1], dayLabel), d, NoPoint)
  {
    var t := s[|s| - 1];
    var pt := DailyPoint(dayLabel(t.date), Ledger.Signed(t), Ledger.SumOf(s, Ledger.Signed));
    UpsertLookup(Daily(s[..|s| - 1], dayLabel), t.date, NoPoint, Put(pt), d, NoPoint);
  }

  lemma {:induction false} DailyDistinct(s: seq<Transaction>, dayLabel: string -> string)
    ensures DistinctKeys(Daily(s, dayLabel))
    decreases |s|
  {
    if s != [] {
      var t := s[|s| - 1];
      DailyDistinct(s[..|s| - 1], dayLabel);
      UpsertDistinct(Daily(s[..|s| - 1], dayLabel), t.date, NoPoint,
                     Put(DailyPoint(dayLabel(t.date), Ledger.Signed(t), Ledger.SumOf(s, Ledger.Signed))));
    }
  }

  /** The `forEach` of `processDailyTrend()` over the sorted list, with its
      running balance. */
  method DailyTrendOf(sorted: seq<Transaction>, dayLabel: string -> string) returns (points: seq<DailyPoint>)
    ensures points == Values(Daily(sorted, dayLabel))
  {
    var dailyData: seq<Entry<DailyPoint>> := [];
    var cumulative := 0;
    var i := 0;
    while i < |sorted|
      invariant 0 <= i <= |sorted|
      invariant cumulative == Ledger.SumOf(sorted[..i], Ledger.Signed)
      invariant dailyData == Daily(sorted[..i], dayLabel)
    {
      var t := sorted[i];
      assert sorted[..i + 1] == sorted[..i] + [t];
      var amount := if t.kind == Income then t.amount else -t.amount;
      cumulative := cumulative + amount;
      Ledger.SumOfSnoc(sorted[..i], t, Ledger.Signed);
      dailyData := Upsert(dailyData, t.date, NoPoint, Put(DailyPoint(dayLabel(t.date), amount, cumulative)));
      i := i + 1;
    }
    assert sorted[..i] == sorted;
    points := Values(dailyData);
  }

  /** `processDailyTrend()`: the caller's array is sorted in place, earliest
      first, then walked. */
  method ProcessDailyTrend(transactions: array<Transaction>, stamp: string -> int, dayLabel: string -> string)
    returns (points: seq<DailyPoint>)
    modifies transactions
    ensures transactions[..] == Sorting.SortDesc(old(transactions[..]), Earliest(stamp))
    ensures points == Values(Daily(transactions[..], dayLabel))
  {
    Sorting.SortInPlace(transactions, Earliest(stamp));
    points := DailyTrendOf(transactions[..], dayLabel);
  }

  /** The sort puts the dates in order, earliest first. */
  lemma EarliestFirst(s: seq<Transaction>, stamp: string -> int)
    ensures var r := Sorting.SortDesc(s, Earliest(stamp));
            forall i, j :: 0 <= i < j < |r| ==> stamp(r[i].date) <= stamp(r[j].date)
  {
    var r := Sorting.SortDesc(s, Earliest(stamp));
    Sorting.SortDescSorted(s, Earliest(stamp));
    forall i, j | 0 <= i < j < |r| ensures stamp(r[i].date) <= stamp(r[j].date) {
      assert Earliest(stamp)(r[i]) >= Earliest(stamp)(r[j]);
    }
  }

  /** The Net Profit card: `reduce` of the signed amounts. */
  function NetProfitCard(s: seq<Transaction>): int {
    Ledger.SumOf(s, Ledger.Signed)
  }

  /** The point of the last transaction's date holds the whole balance. */
  lemma DailyEndsAtBalance(r: seq<Transaction>, dayLabel: string -> string)
    requires r != []
    ensures Lookup(Daily(r, dayLabel), r[|r| - 1].date, NoPoint).cumulative == Ledger.SumOf(r, Ledger.Signed)
  {
    DailyLookup(r, dayLabel, r[|r| - 1].date);
    assert r[..|r|] == r;
  }

  /** After the sort, the point of the latest date holds the whole balance,
      which is the Net Profit card of the unsorted list. */
  lemma DailyTrendEndsAtNetCard(s: seq<Transaction>, stamp: string -> int, dayLabel: string -> string)
    requires s != []
    ensures var sorted := Sorting.SortDesc(s, Earliest(stamp));
            Lookup(Daily(sorted, dayLabel), sorted[|s| - 1].date, NoPoint).cumulative == NetProfitCard(s)
  {
    var sorted := Sorting.SortDesc(s, Earliest(stamp));
    DailyEndsAtBalance(sorted, dayLabel);
    Sorting.SortDescPermutation(s, Earliest(stamp));
    Ledger.SumOfPermutation(sorted, s, Ledger.Signed);
  }

  /** When the transactions of the last date come after all others, that
      date's point is the last one of the line. */
  lemma {:induction false} DailyLastKey(s: seq<Transaction>, dayLabel: string -> string)
    requires s != []
    requires forall i, j :: 0 <= i <= j < |s| && s[i].date == s[|s| - 1].date ==> s[j].date == s[|s| - 1].date
    ensures |Daily(s, dayLabel)| > 0
    ensures Daily(s, dayLabel)[|Daily(s, dayLabel)| - 1].key == s[|s| - 1].date
    decreases |s|
  {
    var p := s[..|s| - 1];
    var t := s[|s| - 1];
    var d := t.date;
    var pt := DailyPoint(dayLabel(d), Ledger.Signed(t), Ledger.SumOf(s, Ledger.Signed));
    var es := Daily(p, dayLabel);
    DailyLookup(p, dayLabel, d);
    if p != [] && p[|p| - 1].date == d {
      DailyLastKey(p, dayLabel);
      assert Has(es, d);
      assert Daily(s, dayLabel) == es[IndexOf(es, d) := Entry(d, pt)];
      DailyDistinct(p, dayLabel);
      assert IndexOf(es, d) == |es| - 1;
    } else {
      assert forall j :: 0 <= j < |p| ==> p[j].date != d;
      assert !Has(es, d);
    }
  }

  /** The sort keeps the length and brings in nothing new. */
  lemma SortedFromInput(s: seq<Transaction>, key: Transaction -> int)
    ensures var r := Sorting.SortDesc(s, key);
            |r| == |s| && forall t :: t in r ==> t in s
  {
    var r := Sorting.SortDesc(s, key);
    Sorting.SortDescPermutation(s, key);
    assert |r| == |multiset(r)| == |multiset(s)| == |s|;
    forall t | t in r ensures t in s {
      assert t in multiset(r);
    }
  }

  /** After the ascending sort, when distinct dates have distinct times, the
      transactions on the last date form a suffix. */
  lemma LastDateTrails(s: seq<Transaction>, stamp: string -> int)
    requires s != []
    requires forall t, u :: t in s && u in s && stamp(t.date) == stamp(u.date) ==> t.date == u.date
    ensures var r := Sorting.SortDesc(s, Earliest(stamp));
            |r| == |s| &&
            forall i, j :: 0 <= i <= j < |r| && r[i].date == r[|r| - 1].date ==> r[j].date == r[|r| - 1].date
  {
    var sorted := Sorting.SortDesc(s, Earliest(stamp));
    SortedFromInput(s, Earliest(stamp));
    EarliestFirst(s, stamp);
    var n := |sorted|;
    forall i, j | 0 <= i <= j < n && sorted[i].date == sorted[n - 1].date
      ensures sorted[j].date == sorted[n - 1].date
    {
      assert stamp(sorted[i].date) <= stamp(sorted[j].date) <= stamp(sorted[n - 1].date);
      assert sorted[j] in s && sorted[n - 1] in s;
    }
  }

  /** With distinct dates parsing to distinct times, the last point of the
      line shows the Net Profit card. */
  lemma DailyTrendLastPoint(s: seq<Transaction>, stamp: string -> int, dayLabel: string -> string)
    requires s != []
    requires forall t, u :: t in s && u in s && stamp(t.date) == stamp(u.date) ==> t.date == u.date
    ensures var points := Values(Daily(Sorting.SortDesc(s, Earliest(stamp)), dayLabel));
            |points| > 0 && points[|points| - 1].cumulative == NetProfitCard(s)
  {
    var sorted := Sorting.SortDesc(s, Earliest(stamp));
    LastDateTrails(s, stamp);
    LastPointAtLastDate(sorted, dayLabel);
    DailyTrendEndsAtNetCard(s, stamp, dayLabel);
  }

  /** When the last date's transactions end the list, the last point is
      that date's point. */
  lemma LastPointAtLastDate(r: seq<Transaction>, dayLabel: string -> string)
    requires r != []
    requires forall i, j :: 0 <= i <= j < |r| && r[i].date == r[|r| - 1].date ==> r[j].date == r[|r| - 1].date
    ensures var es := Daily(r, dayLabel);
            |Values(es)| > 0 && Values(es)[|Values(es)| - 1] == Lookup(es, r[|r| - 1].date, NoPoint)
  {
    var es := Daily(r, dayLabel);
    DailyLastKey(r, dayLabel);
    DailyDistinct(r, dayLabel);
    assert IndexOf(es, r[|r| - 1].date) == |es| - 1;
  }

  // ----- Months -----------------------------------------------------------

  /** One `monthlyData` entry: `month` is the displayed month name. */
  datatype MonthTotals = MonthTotals(income: int, expenses: int, month: string)

  const NoMonth := MonthTotals(0, 0, "")

  /** `t.type === 'income'` adds to the income, anything else to the expenses. */
  function AddTo(t: Transaction): MonthTotals -> MonthTotals {
    (m: MonthTotals) => if t.kind == Income then MonthTotals(m.income + t.amount, m.expenses, m.month)
                        else MonthTotals(m.income, m.expenses + t.amount, m.month)
  }

  /** `monthlyData` after the `forEach` over `s`. `monthKey` and `monthName`
      stand for the year-month key and the `toLocaleDateString` name of a date. */
  function Months(s: seq<Transaction>, monthKey: string -> string, monthName: string -> string)
    : seq<Entry<MonthTotals>>
  {
    if s == [] then []
    else
      var t := s[|s| - 1];
      Upsert(Months(s[..|s| - 1], monthKey, monthName), monthKey(t.date),
             MonthTotals(0, 0, monthName(t.date)), AddTo(t))
  }

  /** The position of the first transaction of month `k`, or -1. */
  function FirstInMonth(s: seq<Transaction>, monthKey: string -> string, k: string): (f: int)
    ensures -1 <= f < |s|
    ensures f >= 0 ==> monthKey(s[f].date) == k && forall j :: 0 <= j < f ==> monthKey(s[j].date) != k
    ensures f < 0 ==> forall j :: 0 <= j < |s| ==> monthKey(s[j].date) != k
  {
    if s == [] then -1
    else
      var f := FirstInMonth(s[..|s| - 1], monthKey, k);
      if f >= 0 then f else if monthKey(s[|s| - 1].date) == k then |s| - 1 else -1
  }

  /** Income in month `k`. */
  function MonthIncome(monthKey: string -> string, k: string): Transaction -> int {
    (t: Transaction) => if monthKey(t.date) == k && t.kind == Income then t.amount else 0
  }

  /** Everything else in month `k`. */
  function MonthOutgo(monthKey: string -> string, k: string): Transaction -> int {
    (t: Transaction) => if monthKey(t.date) == k && t.kind != Income then t.amount else 0
  }

  /** A month has an entry exactly when some transaction falls in it; the
      entry's income is that month's income, its expenses everything else
      in that month, and its name the name of the month's first transaction. */
  lemma {:induction false} MonthsLookup(s: seq<Transaction>, monthKey: string -> string, monthName: string -> string, k: string)
    ensures Has(Months(s, monthKey, monthName), k) <==> FirstInMonth(s, monthKey, k) >= 0
    ensures var m := Lookup(Months(s, monthKey, monthName), k, NoMonth);
            m.income == Ledger.SumOf(s, MonthIncome(monthKey, k))
            && m.expenses == Ledger.SumOf(s, MonthOutgo(monthKey, k))
            && (FirstInMonth(s, monthKey, k) >= 0 ==> m.month == monthName(s[FirstInMonth(s, monthKey, k)].date))
    decreases |s|
  {
    if s != [] {
      var p := s[..|s| - 1];
      var t := s[|s| - 1];
      MonthsLookup(p, monthKey, monthName, k);
      var es := Months(p, monthKey, monthName);
      var init := MonthTotals(0, 0, monthName(t.date));
      UpsertLookup(es, monthKey(t.date), init, AddTo(t), k, NoMonth);
      if monthKey(t.date) == k {
        assert Lookup(es, k, init) == if Has(es, k) then Lookup(es, k, NoMonth) else init;
      }
      assert FirstInMonth(p, monthKey, k) >= 0 ==> p[FirstInMonth(p, monthKey, k)] == s[FirstInMonth(p, monthKey, k)];
    }
  }

  lemma {:induction false} MonthsDistinct(s: seq<Transaction>, monthKey: string -> string, monthName: string -> string)
    ensures DistinctKeys(Months(s, monthKey, monthName))
    decreases |s|
  {
    if s != [] {
      var t := s[|s| - 1];
      MonthsDistinct(s[..|s| - 1], monthKey, monthName);
      UpsertDistinct(Months(s[..|s| - 1], monthKey, monthName), monthKey(t.date),
                     MonthTotals(0, 0, monthName(t.date)), AddTo(t));
    }
  }

  function IncomeOf(m: MonthTotals): int { m.income }
  function ExpensesOf(m: MonthTotals): int { m.expenses }

  /** Over all months the incomes add up to the Total Revenue card, and the
      expenses to every amount that is not income. */
  lemma {:induction false} MonthsSums(s: seq<Transaction>, monthKey: string -> string, monthName: string -> string)
    ensures SumOver(Months(s, monthKey, monthName), IncomeOf) == Ledger.TotalIncome(s)
    ensures SumOver(Months(s, monthKey, monthName), ExpensesOf)
            == Ledger.SumOf(s, Ledger.Amount) - Ledger.TotalIncome(s)
    decreases |s|
  {
    if s != [] {
      var p := s[..|s| - 1];
      var t := s[|s| - 1];
      assert s == p + [t];
      MonthsSums(p, monthKey, monthName);
      var es := Months(p, monthKey, monthName);
      var init := MonthTotals(0, 0, monthName(t.date));
      UpsertSum(es, monthKey(t.date), init, AddTo(t), IncomeOf);
      UpsertSum(es, monthKey(t.date), init, AddTo(t), ExpensesOf);
      Ledger.TotalOfSnoc(p, t, Income);
      Ledger.SumOfSnoc(p, t, Ledger.Amount);
    }
  }

  /** With only the two types the monthly expenses add up to the Total
      Expenses card. */
  lemma MonthlyExpensesAreTotalExpenses(s: seq<Transaction>, monthKey: string -> string, monthName: string -> string)
    requires Ledger.TwoTyped(s)
    ensures SumOver(Months(s, monthKey, monthName), ExpensesOf) == Ledger.TotalExpenses(s)
  {
    MonthsSums(s, monthKey, monthName);
    Ledger.TypesPartition(s);
  }

  /** A transaction of a third type counts as a monthly expense but not in
      the Total Expenses card. */
  lemma MonthlyExpensesCountThirdType(t: Transaction, monthKey: string -> string, monthName: string -> string)
    requires t.kind != Income && t.kind != Expense && t.amount != 0
    ensures SumOver(Months([t], monthKey, monthName), ExpensesOf) != Ledger.TotalExpenses([t])
  {
    MonthsSums([t], monthKey, monthName);
    assert [t][..0] == [];
  }

  /** A row of the monthly chart. */
  datatype MonthlyRow = MonthlyRow(month: string, income: int, expenses: int, profit: int, profitMargin: real)

  /** The `.map(item => ...)` step. */
  function ToRow(m: MonthTotals): (r: MonthlyRow)
    ensures r.month == m.month && r.income == m.income && r.expenses == m.expenses
    ensures r.profit == r.income - r.expenses
    ensures r.income <= 0 ==> r.profitMargin == 0.0
    ensures r.income > 0 ==> r.profitMargin * (r.income as real) == 100.0 * (r.profit as real)
  {
    MonthlyRow(m.month, m.income, m.expenses, m.income - m.expenses, Ledger.ProfitMargin(m.income, m.income - m.expenses))
  }

  function Rows(ms: seq<MonthTotals>): (rs: seq<MonthlyRow>)
    ensures |rs| == |ms|
    ensures forall i :: 0 <= i < |ms| ==> rs[i] == ToRow(ms[i])
  {
    if ms == [] then [] else Rows(ms[..|ms| - 1]) + [ToRow(ms[|ms| - 1])]
  }

  /** `processMonthlyData()` without its final sort by month name. */
  method ProcessMonthlyData(transactions: seq<Transaction>, monthKey: string -> string, monthName: string -> string)
    returns (rows: seq<MonthlyRow>)
    ensures rows == Rows(Values(Months(transactions, monthKey, monthName)))
  {
    var monthlyData: seq<Entry<MonthTotals>> := [];
    var i := 0;
    while i < |transactions|
      invariant 0 <= i <= |transactions|
      invariant monthlyData == Months(transactions[..i], monthKey, monthName)
    {
      var t := transactions[i];
      assert transactions[..i + 1] == transactions[..i] + [t];
      monthlyData := Upsert(monthlyData, monthKey(t.date), MonthTotals(0, 0, monthName(t.date)), AddTo(t));
      i := i + 1;
    }
    assert transactions[..i] == transactions;
    rows := Rows(Values(monthlyData));
  }

  // ----- Summary cards ----------------------------------------------------

  datatype SummaryCards = SummaryCards(totalRevenue: int, totalExpenses: int, netProfit: int, avgTransaction: real)

  /** `totalAmount / transactions.length`, or 0 for an empty list. */
  function Average(total: int, n: nat): (avg: real)
    ensures n == 0 ==> avg == 0.0
    ensures n > 0 ==> avg * (n as real) == total as real
  {
    if n == 0 then 0.0 else (total as real) / (n as real)
  }

  /** The four cards under the charts. */
  function Cards(s: seq<Transaction>): (c: SummaryCards)
    ensures c.totalRevenue == Ledger.TotalIncome(s) && c.totalExpenses == Ledger.TotalExpenses(s)
    ensures Ledger.TwoTyped(s) ==> c.netProfit == c.totalRevenue - c.totalExpenses
    ensures c.netProfit == Ledger.SumOf(s, Ledger.Signed)
    ensures c.netProfit == 2 * c.totalRevenue - Ledger.SumOf(s, Ledger.Amount)
    ensures c.avgTransaction == Average(Ledger.SumOf(s, Ledger.Amount), |s|)
    ensures |s| == 0 ==> c.avgTransaction == 0.0
    ensures |s| > 0 ==> c.avgTransaction * (|s| as real) == Ledger.SumOf(s, Ledger.Amount) as real
  {
    NetCardWithTwoTypes(s);
    SummaryCards(Ledger.TotalIncome(s), Ledger.TotalExpenses(s), NetProfitCard(s),
                 Average(Ledger.SumOf(s, Ledger.Amount), |s|))
  }

  /** The Net Profit card is income less every other amount; with only the
      two types, income less expenses. */
  lemma NetCardWithTwoTypes(s: seq<Transaction>)
    ensures NetProfitCard(s) == 2 * Ledger.TotalIncome(s) - Ledger.SumOf(s, Ledger.Amount)
    ensures Ledger.TwoTyped(s) ==> NetProfitCard(s) == Ledger.TotalIncome(s) - Ledger.TotalExpenses(s)
  {
    Ledger.SignedSumSplit(s);
    if Ledger.TwoTyped(s) {
      Ledger.SignedSumIsNetProfit(s);
    }
  }

  /** The cards read the array after `processDailyTrend` has sorted it,
      and show what they would have shown before. */
  lemma CardsUnchangedBySort(s: seq<Transaction>, stamp: string -> int)
    ensures Cards(Sorting.SortDesc(s, Earliest(stamp))) == Cards(s)
  {
    var sorted := Sorting.SortDesc(s, Earliest(stamp));
    Sorting.SortDescPermutation(s, Earliest(stamp));
    Ledger.TotalOfPermutation(sorted, s, Income);
    Ledger.TotalOfPermutation(sorted, s, Expense);
    Ledger.SumOfPermutation(sorted, s, Ledger.Signed);
    Ledger.SumOfPermutation(sorted, s, Ledger.Amount);
  }
}
