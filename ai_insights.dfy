/** The insights panel of src/components/AIInsights.tsx: the figures put into
    the prompt, the text taken out of the reply, and the panel's state. The
    request itself is not modelled; what it came back with is a parameter. */
module AIInsights {
  import opened Types
  import opened Dict
  import Ledger
  import Charts

  const UnableMessage := "Unable to generate insights. Please check your API configuration."
  const ErrorMessage := "Error generating insights. Please try again later."

  /** `acc[t.category] = (acc[t.category] || 0) + t.amount` over the expenses.
      A category holding 0 reads as falsy, and `0 || 0` is 0, so the step is
      the same as the pie chart's. */
  method ExpensesByCategory(transactions: seq<Transaction>) returns (acc: seq<Entry<int>>)
    ensures DistinctKeys(acc)
    ensures forall c :: Has(acc, c) <==> exists t :: t in transactions && t.kind == Expense && t.category == c
    ensures forall c :: Lookup(acc, c, 0) == Ledger.SumOf(transactions, Charts.ExpenseSpend(c))
    ensures SumOver(acc, Charts.Id) == Ledger.TotalExpenses(transactions)
  {
    var expenses := Ledger.OfType(transactions, Expense);
    acc := [];
    var i := 0;
    while i < |expenses|
      invariant 0 <= i <= |expenses|
      invariant acc == Charts.CategoryTotals(expenses[..i])
    {
      var t := expenses[i];
      assert expenses[..i + 1] == expenses[..i] + [t];
      acc := Upsert(acc, t.category, 0, Charts.AddAmount(t.amount));
      i := i + 1;
    }
    assert expenses[..i] == expenses;
    forall c
      ensures Has(acc, c) <==> exists t :: t in transactions && t.kind == Expense && t.category == c
      ensures Lookup(acc, c, 0) == Ledger.SumOf(transactions, Charts.ExpenseSpend(c))
    {
      Charts.CategoryDataMeaning(transactions, c);
    }
    Charts.CategoryDataMeaning(transactions, "");
  }

  /** The figures the prompt is written from, without their text formatting. */
  datatype Metrics = Metrics(
    totalIncome: int,
    totalExpenses: int,
    netProfit: int,
    profitMargin: real,
    expensesByCategory: seq<Entry<int>>,
    count: nat)

  /** Each total is summed over its own type and the net profit is their
      difference, whatever other types the list holds; the margin is 0
      without income. */
  function PromptMetrics(s: seq<Transaction>, byCategory: seq<Entry<int>>): (m: Metrics)
    ensures m.netProfit == m.totalIncome - m.totalExpenses
    ensures m.totalIncome == Ledger.SumOf(s, IncomeAmount) && m.totalExpenses == Ledger.SumOf(s, ExpenseAmount)
    ensures m.profitMargin == Ledger.ProfitMargin(m.totalIncome, m.netProfit)
    ensures m.totalIncome <= 0 ==> m.profitMargin == 0.0
    ensures m.expensesByCategory == byCategory && m.count == |s|
  {
    TotalsAreProjections(s);
    var income := Ledger.TotalIncome(s);
    var net := income - Ledger.TotalExpenses(s);
    Metrics(income, Ledger.TotalExpenses(s), net, Ledger.ProfitMargin(income, net), byCategory, |s|)
  }

  /** The margin in the prompt is the net profit as a percentage of the
      income, whenever there is income. */
  lemma PromptMargin(s: seq<Transaction>, byCategory: seq<Entry<int>>)
    ensures var m := PromptMetrics(s, byCategory);
            m.totalIncome > 0 ==> m.profitMargin * (m.totalIncome as real) == 100.0 * (m.netProfit as real)
  {
    var m := PromptMetrics(s, byCategory);
    Rescale(m.profitMargin, Ledger.ProfitMargin(m.totalIncome, m.netProfit),
            m.totalIncome as real, m.netProfit as real);
  }

  lemma Rescale(x: real, y: real, income: real, net: real)
    requires x == y && (income > 0.0 ==> y * income == 100.0 * net)
    ensures income > 0.0 ==> x * income == 100.0 * net
  {
  }

  lemma TotalsAreProjections(s: seq<Transaction>)
    ensures Ledger.TotalIncome(s) == Ledger.SumOf(s, IncomeAmount)
    ensures Ledger.TotalExpenses(s) == Ledger.SumOf(s, ExpenseAmount)
  {
    Ledger.SumOfOfType(s, Income, Ledger.Amount, IncomeAmount);
    Ledger.SumOfOfType(s, Expense, Ledger.Amount, ExpenseAmount);
  }

  function IncomeAmount(t: Transaction): int {
    if t.kind == Income then t.amount else 0
  }

  function ExpenseAmount(t: Transaction): int {
    if t.kind == Expense then t.amount else 0
  }

  /** The prompt and the Charts tab agree on revenue and expenses; they
      agree on the net profit when there are only the two types. */
  lemma PromptAgreesWithCards(s: seq<Transaction>, byCategory: seq<Entry<int>>)
    ensures var m := PromptMetrics(s, byCategory);
            var c := Charts.Cards(s);
            m.totalIncome == c.totalRevenue && m.totalExpenses == c.totalExpenses
            && (Ledger.TwoTyped(s) ==> m.netProfit == c.netProfit)
  {
  }

  /** A part of the reply's content. */
  datatype Part = Part(text: string)
  /** A content object; its `parts` property may be missing. */
  datatype Content = Content(parts: Option<seq<Part>>)
  datatype Candidate = Candidate(content: Option<Content>)
  /** The parsed reply body: `candidates` may be missing, and an entry of it
      may be `null` (`None`). */
  datatype Reply = Reply(candidates: Option<seq<Option<Candidate>>>)

  /** How the request ended: a parsed reply, or an exception (the network,
      or a body that is not JSON). */
  datatype Fetch = Answered(reply: Reply) | Threw

  /** `data.candidates && data.candidates[0] && data.candidates[0].content`. */
  predicate HasFirstContent(r: Reply) {
    r.candidates.Some? && |r.candidates.value| > 0
    && r.candidates.value[0].Some? && r.candidates.value[0].value.content.Some?
  }

  /** The `parts` of the first candidate's content. */
  function FirstParts(r: Reply): Option<seq<Part>>
    requires HasFirstContent(r)
  {
    r.candidates.value[0].value.content.value.parts
  }

  /** The text `insights` is set to. When the first candidate has content,
      `parts[0].text` is read; a missing `parts` or an empty one makes that
      throw, and the catch turns it into the error message. */
  function InsightText(f: Fetch): (text: string)
    ensures f.Threw? ==> text == ErrorMessage
    ensures f.Answered? && HasFirstContent(f.reply) ==>
              var parts := FirstParts(f.reply);
              text == if parts.Some? && |parts.value| > 0 then parts.value[0].text else ErrorMessage
    ensures f.Answered? && !HasFirstContent(f.reply) ==> text == UnableMessage
  {
    match f
    case Threw => ErrorMessage
    case Answered(reply) =>
      if HasFirstContent(reply) then
        var parts := FirstParts(reply);
        if parts.Some? && |parts.value| > 0 then parts.value[0].text else ErrorMessage
      else UnableMessage
  }

  /** A reply without candidates, with an empty list of them, whose first
      candidate is `null`, or whose first candidate has no content gives the
      configuration message. */
  lemma NoContentIsUnable(cs: Option<seq<Option<Candidate>>>)
    requires cs.None? || cs == Some([])
             || (cs.Some? && |cs.value| > 0 && (cs.value[0].None? || cs.value[0].value.content.None?))
    ensures InsightText(Answered(Reply(cs))) == UnableMessage
  {
  }

  /** Content without parts, or with an empty list of them, throws inside the
      `try` and shows the error message, not the configuration one. */
  lemma PartlessContentIsError(parts: Option<seq<Part>>, others: seq<Option<Candidate>>)
    requires parts.None? || parts == Some([])
    ensures InsightText(Answered(Reply(Some([Some(Candidate(Some(Content(parts))))] + others)))) == ErrorMessage
  {
  }

  /** Only the first candidate's first part is read. */
  lemma FirstPartOnly(text: string, more: seq<Part>, others: seq<Option<Candidate>>)
    ensures InsightText(Answered(Reply(Some([Some(Candidate(Some(Content(Some([Part(text)] + more)))))] + others)))) == text
  {
  }

  /** `disabled={loading || transactions.length === 0}`. */
  function GenerateDisabled(loading: bool, transactions: seq<Transaction>): (disabled: bool)
    ensures !disabled <==> !loading && |transactions| > 0
  {
    loading || |transactions| == 0
  }

  class InsightsPanel {
    var insights: string
    var loading: bool

    constructor ()
      ensures insights == "" && !loading
    {
      insights := "";
      loading := false;
    }

    /** `generateInsights`: the figures are the prompt's metrics over the
        grouped expenses, the request ends as `fetched` says, `insights` takes the extracted text, and the
        `finally` turns loading off on every path. */
    method GenerateInsights(transactions: seq<Transaction>, fetched: Fetch) returns (m: Metrics)
      modifies this
      ensures m.netProfit == m.totalIncome - m.totalExpenses
      ensures m.totalIncome == Ledger.TotalIncome(transactions) && m.totalExpenses == Ledger.TotalExpenses(transactions)
      ensures m == PromptMetrics(transactions, m.expensesByCategory)
      ensures DistinctKeys(m.expensesByCategory)
      ensures forall c :: Has(m.expensesByCategory, c) <==>
                exists t :: t in transactions && t.kind == Expense && t.category == c
      ensures forall c :: Lookup(m.expensesByCategory, c, 0) == Ledger.SumOf(transactions, Charts.ExpenseSpend(c))
      ensures SumOver(m.expensesByCategory, Charts.Id) == m.totalExpenses
      ensures insights == InsightText(fetched)
      ensures !loading
    {
      loading := true;
      var byCategory := ExpensesByCategory(transactions);
      m := PromptMetrics(transactions, byCategory);
      insights := InsightText(fetched);
      loading := false;
    }
  }
}
