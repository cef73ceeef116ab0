/** The `filter(...).reduce((sum, t) => sum + ..., 0)` folds that the
    Dashboard, Charts and AIInsights components each write out inline. Every
    fold runs left to right, as `reduce` does, so each definition recurses on
    the last element. */
module Ledger {
  import opened Types

  /** `reduce((sum, t) => sum + f(t), 0)`. */
  function SumOf(s: seq<Transaction>, f: Transaction -> int): int {
    if s == [] then 0 else SumOf(s[..|s| - 1], f) + f(s[|s| - 1])
  }

  function Amount(t: Transaction): int { t.amount }

  /** `t.type === 'income' ? t.amount : -t.amount`: anything that is not
      income counts against the balance. */
  function Signed(t: Transaction): int { if t.kind == Income then t.amount else -t.amount }

  /** `new Date(t.date).getTime()`, with `stamp` standing for the date parser. */
  function ByDate(stamp: string -> int): Transaction -> int {
    (t: Transaction) => stamp(t.date)
  }

  /** `.filter(t => t.type === kind)`. */
  function OfType(s: seq<Transaction>, kind: string): (r: seq<Transaction>)
    ensures |r| <= |s|
    ensures forall i :: 0 <= i < |r| ==> r[i].kind == kind
  {
    if s == [] then []
    else
      var last := s[|s| - 1];
      OfType(s[..|s| - 1], kind) + (if last.kind == kind then [last] else [])
  }

  /** The filter keeps every copy of a transaction of the type and no other. */
  lemma {:induction false} OfTypeMultiset(s: seq<Transaction>, kind: string)
    ensures forall t :: multiset(OfType(s, kind))[t] == if t.kind == kind then multiset(s)[t] else 0
    decreases |s|
  {
    if s != [] {
      var last := s[|s| - 1];
      assert s == s[..|s| - 1] + [last];
      OfTypeMultiset(s[..|s| - 1], kind);
    }
  }

  /** A transaction is kept exactly when it is in the list and has the type. */
  lemma OfTypeMembers(s: seq<Transaction>, kind: string)
    ensures forall t :: t in OfType(s, kind) <==> t in s && t.kind == kind
  {
    OfTypeMultiset(s, kind);
    forall t ensures t in OfType(s, kind) <==> t in s && t.kind == kind {
      assert t in OfType(s, kind) <==> t in multiset(OfType(s, kind));
      assert t in s <==> t in multiset(s);
    }
  }

  /** Folding over the filtered list is folding over the whole list with
      the other types counted as zero. */
  lemma {:induction false} SumOfOfType(s: seq<Transaction>, kind: string, f: Transaction -> int, g: Transaction -> int)
    requires forall t :: g(t) == if t.kind == kind then f(t) else 0
    ensures SumOf(OfType(s, kind), f) == SumOf(s, g)
    decreases |s|
  {
    if s != [] {
      var s' := s[..|s| - 1];
      var t := s[|s| - 1];
      assert s == s' + [t];
      SumOfOfType(s', kind, f, g);
      OfTypeSnoc(s', t, kind);
      if t.kind == kind {
        SumOfSnoc(OfType(s', kind), t, f);
      } else {
        assert OfType(s, kind) == OfType(s', kind);
      }
    }
  }

  /** Filtering a reordered list gives a reordering of the filtered list. */
  lemma OfTypePermutation(a: seq<Transaction>, b: seq<Transaction>, kind: string)
    requires multiset(a) == multiset(b)
    ensures multiset(OfType(a, kind)) == multiset(OfType(b, kind))
  {
    OfTypeMultiset(a, kind);
    OfTypeMultiset(b, kind);
  }

  /** Sum of the amounts of one type. */
  function TotalOf(s: seq<Transaction>, kind: string): int {
    SumOf(OfType(s, kind), Amount)
  }

  function TotalIncome(s: seq<Transaction>): int { TotalOf(s, Income) }
  function TotalExpenses(s: seq<Transaction>): int { TotalOf(s, Expense) }

  /** `totalIncome - totalExpenses`. */
  function NetProfit(s: seq<Transaction>): int { TotalIncome(s) - TotalExpenses(s) }

  /** `totalIncome > 0 ? (netProfit / totalIncome) * 100 : 0`, in exact arithmetic. */
  function ProfitMargin(income: int, net: int): (m: real)
    ensures income <= 0 ==> m == 0.0
    ensures income > 0 ==> m * (income as real) == 100.0 * (net as real)
  {
    if income > 0 then (net as real / income as real) * 100.0 else 0.0
  }

  /** Every transaction is an income or an expense: what the form writes,
      though not what a CSV import guarantees. */
  predicate TwoTyped(s: seq<Transaction>) {
    forall i :: 0 <= i < |s| ==> s[i].kind == Income || s[i].kind == Expense
  }

  lemma SumOfSnoc(s: seq<Transaction>, t: Transaction, f: Transaction -> int)
    ensures SumOf(s + [t], f) == SumOf(s, f) + f(t)
  {
    assert (s + [t])[..|s|] == s;
  }

  lemma OfTypeSnoc(s: seq<Transaction>, t: Transaction, kind: string)
    ensures OfType(s + [t], kind) == OfType(s, kind) + (if t.kind == kind then [t] else [])
  {
    assert (s + [t])[..|s|] == s;
  }

  /** Extending the list by one transaction adds its amount to its own type's total. */
  lemma TotalOfSnoc(s: seq<Transaction>, t: Transaction, kind: string)
    ensures TotalOf(s + [t], kind) == TotalOf(s, kind) + (if t.kind == kind then t.amount else 0)
  {
    OfTypeSnoc(s, t, kind);
    if t.kind == kind {
      SumOfSnoc(OfType(s, kind), t, Amount);
    } else {
      assert OfType(s + [t], kind) == OfType(s, kind);
    }
  }

  lemma {:induction false} SumOfAppend(a: seq<Transaction>, b: seq<Transaction>, f: Transaction -> int)
    ensures SumOf(a + b, f) == SumOf(a, f) + SumOf(b, f)
    decreases |b|
  {
    if b == [] {
      assert a + b == a;
    } else {
      var b' := b[..|b| - 1];
      var t := b[|b| - 1];
      assert a + b == (a + b') + [t];
      assert b == b' + [t];
      SumOfAppend(a, b', f);
      SumOfSnoc(a + b', t, f);
      SumOfSnoc(b', t, f);
    }
  }

  lemma RemoveAtMultiset(b: seq<Transaction>, j: nat)
    requires j < |b|
    ensures multiset(b[..j] + b[j + 1..]) == multiset(b) - multiset{b[j]}
  {
    assert b == b[..j] + [b[j]] + b[j + 1..];
  }

  lemma SumOfRemoveAt(b: seq<Transaction>, j: nat, f: Transaction -> int)
    requires j < |b|
    ensures SumOf(b, f) == SumOf(b[..j] + b[j + 1..], f) + f(b[j])
  {
    var l, x, r := b[..j], b[j], b[j + 1..];
    var lx := b[..j + 1];
    assert lx == l + [x];
    assert b == lx + r;
    SumOfAppend(lx, r, f);
    SumOfSnoc(l, x, f);
    SumOfAppend(l, r, f);
  }

  /** A fold does not depend on the order of the list. */
  lemma {:induction false} SumOfPermutation(a: seq<Transaction>, b: seq<Transaction>, f: Transaction -> int)
    requires multiset(a) == multiset(b)
    ensures SumOf(a, f) == SumOf(b, f)
    decreases |a|
  {
    if a == [] {
      assert |b| == |multiset(b)| == 0;
    } else {
      var a' := a[..|a| - 1];
      var t := a[|a| - 1];
      assert a == a' + [t];
      assert multiset(a) == multiset(a') + multiset{t};
      assert t in multiset(b);
      var j :| 0 <= j < |b| && b[j] == t;
      var b' := b[..j] + b[j + 1..];
      RemoveAtMultiset(b, j);
      assert multiset(a') == multiset(b');
      SumOfPermutation(a', b', f);
      SumOfRemoveAt(b, j, f);
    }
  }

  /** Reordering the list keeps every type's total. */
  lemma TotalOfPermutation(a: seq<Transaction>, b: seq<Transaction>, kind: string)
    requires multiset(a) == multiset(b)
    ensures TotalOf(a, kind) == TotalOf(b, kind)
  {
    OfTypePermutation(a, b, kind);
    SumOfPermutation(OfType(a, kind), OfType(b, kind), Amount);
  }

  /** The signed balance is twice the income less the sum of all amounts. */
  lemma {:induction false} SignedSumSplit(s: seq<Transaction>)
    ensures SumOf(s, Signed) == 2 * TotalIncome(s) - SumOf(s, Amount)
    decreases |s|
  {
    if s != [] {
      var s' := s[..|s| - 1];
      var t := s[|s| - 1];
      assert s == s' + [t];
      SignedSumSplit(s');
      TotalOfSnoc(s', t, Income);
    }
  }

  /** With only the two types, income and expenses partition the amounts. */
  lemma {:induction false} TypesPartition(s: seq<Transaction>)
    requires TwoTyped(s)
    ensures TotalIncome(s) + TotalExpenses(s) == SumOf(s, Amount)
    decreases |s|
  {
    if s != [] {
      var s' := s[..|s| - 1];
      var t := s[|s| - 1];
      assert s == s' + [t];
      TypesPartition(s');
      TotalOfSnoc(s', t, Income);
      TotalOfSnoc(s', t, Expense);
    }
  }

  /** The signed running balance agrees with income minus expenses when
      every transaction is an income or an expense. */
  lemma SignedSumIsNetProfit(s: seq<Transaction>)
    requires TwoTyped(s)
    ensures SumOf(s, Signed) == NetProfit(s)
  {
    SignedSumSplit(s);
    TypesPartition(s);
  }

  /** One transaction of a third type (which only a CSV import can bring in)
      already makes the two disagree. */
  lemma SignedSumDiffersOnThirdType(t: Transaction)
    requires t.kind != Income && t.kind != Expense && t.amount != 0
    ensures SumOf([t], Signed) != NetProfit([t])
  {
    assert [t][..0] == [];
  }
}
