/** Records of the finance tracker: transactions (src/types/transaction.ts)
    and accounts (src/types/auth.ts). */
module Types {

  /** `T | null` and optional properties. */
  datatype Option<+T> = None | Some(value: T)

  /** A transaction as stored and displayed. `type` is a string: the form only
      ever writes "income" or "expense", but a CSV import copies the cell as it is.
      `amount` is in cents. `project` is the optional `project?` property. */
  datatype Transaction = Transaction(
    id: string,
    date: string,
    kind: string,
    category: string,
    amount: int,
    description: string,
    project: Option<string>)

  /** `Omit<Transaction, 'id'>`: what the form hands to `addTransaction`. */
  datatype Draft = Draft(
    date: string,
    kind: string,
    category: string,
    amount: int,
    description: string,
    project: Option<string>)

  const Income := "income"
  const Expense := "expense"

  /** The transaction that `{ ...draft, id }` builds. */
  function WithId(d: Draft, id: string): (t: Transaction)
    ensures t.id == id
    ensures Draft(t.date, t.kind, t.category, t.amount, t.description, t.project) == d
  {
    Transaction(id, d.date, d.kind, d.category, d.amount, d.description, d.project)
  }

  /** One entry of INCOME_CATEGORIES / EXPENSE_CATEGORIES. */
  datatype CategoryOption = CategoryOption(value: string, name: string)

  const IncomeCategories: seq<CategoryOption> := [
    CategoryOption("project-income", "Project Income"),
    CategoryOption("service-income", "Service Income"),
    CategoryOption("other", "Other Income")
  ]

  const ExpenseCategories: seq<CategoryOption> := [
    CategoryOption("salary", "Employee Salaries"),
    CategoryOption("subscription", "Tool Subscriptions"),
    CategoryOption("tools", "Tools & Software"),
    CategoryOption("marketing", "Marketing"),
    CategoryOption("office", "Office Expenses"),
    CategoryOption("other", "Other Expenses")
  ]

  /** An account. `role` is "admin" or "user" when written by the program;
      a CSV import copies the cell as it is. */
  datatype User = User(id: string, username: string, password: string, role: string, createdAt: string)

  datatype SignupData = SignupData(username: string, password: string, confirmPassword: string)

  /** The record every auth screen reads. */
  datatype AuthState = AuthState(user: Option<User>, isAuthenticated: bool, isLoading: bool)

  /** How `login` and `signup` report back: `{ success: true }` or
      `{ success: false, error }`. */
  datatype Outcome = Success | Failure(error: string)
}
