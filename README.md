# Finance tracker core, modelled in Dafny

This project models the core of a browser finance tracker written in
TypeScript and React. Accounts and the signed-in session live in the
browser's local storage. An auth provider restores the session, logs users
in, signs them up and logs them out. A transactions hook keeps the
income and expense list under one storage key. The forms validate what
the user types. Four views compute figures from the list:

- the transaction table filters and sorts it;
- the dashboard shows totals, margin colours and the five newest entries;
- the charts component computes monthly, per-category and daily-trend
  data plus summary cards (no page of the app mounts it; the dashboard
  shows a placeholder where a chart would go);
- the insights panel builds prompt figures and reads a reply.

A route gate decides what the app shows from the auth state.

Each source file keeps its own form:

- State the source mutates becomes a `class` whose methods carry
  `modifies`. This covers the auth provider, the storage area, the hook
  and the three forms, state included.
- The in-place `.sort` on the views' transaction array becomes a method
  on an `array`. It is proved equal to an insertion sort, a
  function with its permutation and order lemmas.
- Each `forEach` that fills a dictionary becomes a method with a loop.
  Its contract ties the result to a fold function, and lemmas then
  state what that fold holds.
- Pure `filter`/`reduce` code becomes functions.

Modelling choices:

- Amounts are integers (cents). Margins, shares and averages are exact
  reals.
- Dates are strings. Their order comes from a supplied function `stamp`,
  which stands for `new Date(d).getTime()`. The month key, the month name
  and the day label are also supplied functions.
- Generated ids and timestamps are parameters.
- A JavaScript object used as a dictionary (`Dict`) is a sequence of
  entries in first-assignment order, which is the order `Object.values`
  reads them in.
- Local storage is a map from keys to entries. An entry is either JSON
  that parses back to the value it was written from, or text that
  `JSON.parse` rejects.

Some behaviours of the code the model keeps on purpose:

- A failed login can still write to storage. `loadUsers` saves the
  default accounts when no users list is stored
  (`AuthContext.AuthProvider.Login`).
- A stored session of `null` authenticates without a user.
  `ProtectedRoute`'s extra check then shows the login screens
  (`App.RestoredGate`).
- The strength meter never shows its fifth label ('Strong') or the green
  bar, because the score stops at 4 (`Signup.StrongNeverShown`).
- A user import does not de-duplicate usernames
  (`CsvUtils.ImportCanDuplicateUsernames`).
- The monthly chart counts every non-income transaction as an expense.
  The expense cards count only type 'expense'
  (`Charts.MonthlyExpensesCountThirdType`).
- Login's three-character minimum is measured on the untrimmed name
  (`Login.PaddedNamePasses`).

## Model

| member | source | states |
|---|---|---|
| Types.WithId | src/hooks/useTransactions.ts:27-30 | the new transaction carries the supplied id and every field of the draft unchanged |
| Storage.ReadSession | src/contexts/AuthContext.tsx:35-38 | the record reads as absent exactly when the session key is missing or empty, as `if (storedUser)` tests; of the parsed values only a user record or `null` is accepted, any other shape reads as unparsable (see Left out) |
| Storage.SessionRecordReadsBack | src/contexts/AuthContext.tsx:67 | the record written on login reads back as that user |
| Storage.UserTransactionsKey | src/utils/csvUtils.ts:95 | the per-user key is the prefix followed by exactly the user id |
| Storage.UserTransactionsKeyIsolated | src/utils/csvUtils.ts:95 | two users share a per-user key only if they are the same user, and no per-user key is the users, session or shared transactions key |
| Storage.LocalStorage.SetItem | src/utils/csvUtils.ts:43 | the key now holds the written value, and every other key is unchanged |
| Storage.LocalStorage.RemoveItem | src/contexts/AuthContext.tsx:46 | the key is gone, and every other key is unchanged |
| CsvUtils.DefaultUsers | src/utils/csvUtils.ts:7-22 | the two seeded accounts, 'Saad' (admin) and 'Areeba' (user), stamped with the load time; no contract of its own, its properties are in `DefaultUsersUnique` and `LoadUsers` |
| CsvUtils.DefaultUsersUnique | src/utils/csvUtils.ts:7-22 | the two default accounts have different usernames |
| CsvUtils.LoadUsers | src/utils/csvUtils.ts:25-39 | with nothing stored it saves and returns the two defaults; with unparsable text it returns the defaults and writes nothing; otherwise it returns the stored list and writes nothing |
| CsvUtils.SaveUsers | src/utils/csvUtils.ts:41-47 | the users key holds the list, and nothing else changes |
| CsvUtils.LoadAfterSave | src/utils/csvUtils.ts:25-44 | loading after `saveUsers(us)` returns `us` and writes nothing |
| CsvUtils.LoadUsersIdempotent | src/utils/csvUtils.ts:25-39 | a second load neither writes nor returns anything different from the first |
| CsvUtils.LoadUsersFrame | src/utils/csvUtils.ts:25-39 | loading users touches no key but the users key |
| CsvUtils.KeptUserRows | src/utils/csvUtils.ts:67-68 | every kept row has a username and a password, and no more rows come out than went in |
| CsvUtils.KeptUserRowsMembers | src/utils/csvUtils.ts:67-68 | a row is kept iff it was in the input and has a username and a password; nothing is added |
| CsvUtils.KeptUserRowsCounts | src/utils/csvUtils.ts:67-68 | a kept row occurs in the result exactly as often as in the input, duplicates included, and a dropped row not at all |
| CsvUtils.KeptUserRowsAppend | src/utils/csvUtils.ts:67-68 | filtering a concatenation is filtering each part, so the kept rows keep their input order |
| CsvUtils.ImportedUsers | src/utils/csvUtils.ts:67-75 | one user per kept row, in order, with that row's username and password; its id, role and timestamp, or the generated id, 'user' and the supplied time when the cell is empty |
| CsvUtils.ImportUsers | src/utils/csvUtils.ts:77-80 | the result and the saved list are the existing users followed by the imported ones, so their length is the sum of the two |
| CsvUtils.ImportCanDuplicateUsernames | src/utils/csvUtils.ts:77-80 | importing a row named 'Saad' over the defaults leaves two accounts with that name |
| CsvUtils.LoadUserTransactions | src/utils/csvUtils.ts:93-101 | the list stored under the user's key when it parses, and [] when that key is absent or unparsable |
| CsvUtils.SaveUserTransactions | src/utils/csvUtils.ts:103-109 | the user's key holds the list, and nothing else changes |
| CsvUtils.UserTransactionsRoundTrip | src/utils/csvUtils.ts:93-106 | loading a user's transactions after saving them returns what was saved |
| CsvUtils.UserTransactionsIsolated | src/utils/csvUtils.ts:95-105 | saving for one user changes neither another user's transactions nor the users list, the session or the shared list |
| AuthContext.FindIndex | src/contexts/AuthContext.tsx:57-59 | finds a match iff some account has exactly that username and password, and then the first such account |
| AuthContext.SignupRejection | src/contexts/AuthContext.tsx:80-93 | a password mismatch is reported first; the data is accepted iff the passwords agree, the password has at least 6 units and the name is free |
| AuthContext.SignupAcceptsAnyFreeUsername | src/contexts/AuthContext.tsx:78-93 | a free name of any length, even empty, is accepted when the passwords are valid |
| AuthContext.SignupKeepsUsernamesUnique | src/contexts/AuthContext.tsx:91-103 | appending an account with a free name to a list with unique names keeps the names unique |
| AuthContext.SignupStoreKeepsUsernamesUnique | src/contexts/AuthContext.tsx:88-104 | after an accepted signup the stored list is the old one plus one account, with its prefix unchanged and the names still unique |
| AuthContext.AuthProvider.constructor | src/contexts/AuthContext.tsx:27-31 | the state starts with no user, not authenticated, and loading |
| AuthContext.AuthProvider.RestoreSession | src/contexts/AuthContext.tsx:33-52 | a parsing session record authenticates its user; an unparsable one is removed and the user stays as it was; loading ends false on every path |
| AuthContext.AuthProvider.Login | src/contexts/AuthContext.tsx:54-71 | success iff some account matches: the state then holds the first match and the session key records it; otherwise 'Invalid username or password' with the state unchanged and storage changed only by the default-users write |
| AuthContext.AuthProvider.Signup | src/contexts/AuthContext.tsx:78-113 | each rejection comes in order and leaves the state unchanged. The password checks write nothing. An accepted signup appends one 'user' account, saves the list, authenticates the account and records it as the session |
| AuthContext.AuthProvider.Logout | src/contexts/AuthContext.tsx:120-127 | no user, not authenticated, not loading, and the session key is removed |
| UseTransactions.KeptTxnRows | src/hooks/useTransactions.ts:53 | every kept row has a date and an amount, and no more rows come out than went in |
| UseTransactions.KeptTxnRowsMembers | src/hooks/useTransactions.ts:53 | a row is kept iff it was in the input and has a date and an amount; nothing is added |
| UseTransactions.KeptTxnRowsCounts | src/hooks/useTransactions.ts:53 | a kept row occurs in the result exactly as often as in the input, duplicates included, and a dropped row not at all |
| UseTransactions.KeptTxnRowsAppend | src/hooks/useTransactions.ts:53 | filtering a concatenation is filtering each part, so the kept rows keep their input order |
| UseTransactions.ImportedTransactions | src/hooks/useTransactions.ts:52-62 | one transaction per kept row, in order, copying date, type, category, description and project, with the parsed amount and the row's id or a fresh one |
| UseTransactions.ImportDropsIncompleteRows | src/hooks/useTransactions.ts:53 | a row without a date or an amount adds nothing to an import |
| UseTransactions.SavedTransactionsRoundTrip | src/hooks/useTransactions.ts:10-22 | what is saved under the shared key is what a load reads, and no other key changes |
| UseTransactions.TransactionsHook.LoadTransactions | src/hooks/useTransactions.ts:9-19 | a parsing stored list replaces the state; an absent or unparsable one leaves it unchanged |
| UseTransactions.TransactionsHook.SaveTransactions | src/hooks/useTransactions.ts:21-24 | the state and the stored list both become the given list |
| UseTransactions.TransactionsHook.AddTransaction | src/hooks/useTransactions.ts:26-34 | the state is the old list plus the new transaction at the end, the old entries are unchanged, and the store agrees |
| UseTransactions.TransactionsHook.ImportFromCsv | src/hooks/useTransactions.ts:52-64 | the imported transactions go after the existing ones: the length is old plus kept, the old prefix is unchanged, and the store agrees |
| JsText.Length | src/contexts/AuthContext.tsx:84 | `.length` counts UTF-16 units: at least the number of characters, at most twice it, and equal to it when no character lies outside the Basic Multilingual Plane |
| JsText.LengthAppend | src/components/auth/Signup.tsx:58 | the length of a concatenation is the sum of the lengths |
| JsText.TrimEmptyIffBlank | src/components/auth/Login.tsx:61 | the trimmed name is empty iff every character is white space |
| Signup.Score | src/components/auth/Signup.tsx:56-63 | the number of the four conditions that hold, at most 4; the count built by the four sequential tests of `GetPasswordStrength` is proved equal to it |
| Signup.GetPasswordStrength | src/components/auth/Signup.tsx:56-63 | the result counts the four conditions, so it lies in 0..4; it is 4 iff all hold and 0 iff none do |
| Signup.ScoreMonotone | src/components/auth/Signup.tsx:58-61 | appending characters never lowers the score |
| Signup.StrengthLabel | src/components/auth/Signup.tsx:199 | label k for a score k in 1..5, and 'Too Short' for any other score |
| Signup.StrengthColor | src/components/auth/Signup.tsx:194 | colour k for a score k in 1..5, and grey for any other score |
| Signup.Indicator | src/components/auth/Signup.tsx:189-199 | the meter is shown iff the password is non-empty, with the label and colour of its score |
| Signup.LabelOfScore | src/components/auth/Signup.tsx:199 | 'Too Short' shows exactly for score 0, and then the password is shorter than 6; score k ≥ 1 shows label k |
| Signup.StrongNeverShown | src/components/auth/Signup.tsx:66-67 | no password ever shows 'Strong' or the green bar |
| Signup.ShownError | src/components/auth/Signup.tsx:41-43 | the shown error is never empty: the provider's text when it has one, and 'Signup failed' otherwise |
| Signup.RejectionTextShown | src/components/auth/Signup.tsx:41-43 | every rejection the provider reports is shown with its own text |
| Signup.SignupForm.HandleInputChange | src/components/auth/Signup.tsx:48-53 | only the edited field changes |
| Signup.SignupForm.HandleSubmit | src/components/auth/Signup.tsx:34-46 | success leaves no error; a rejection shows its text and keeps the auth state; the password checks write nothing and a taken name writes only the default-users load; an accepted signup authenticates the new account and stores the extended list and the session; loading ends false |
| Login.PreCheck | src/components/auth/Login.tsx:61-77 | the first failing check decides the message, in the order blank name, empty password, then untrimmed name shorter than 3; none fails iff all three pass |
| Login.PaddedNamePasses | src/components/auth/Login.tsx:61-73 | "  a" passes the checks although its trimmed name has one character |
| Login.AttemptError | src/components/auth/Login.tsx:80-87 | no error on success; a failure shows its text or 'Authentication failed'; a thrown call shows the network message |
| Login.SubmitEnabled | src/components/auth/Login.tsx:239 | enabled iff not loading and all three security flags are on |
| Login.LoginForm.RunSecurityChecks | src/components/auth/Login.tsx:39-53 | all three flags end on, after which the button is enabled iff not loading |
| Login.LoginForm.HandleSubmit | src/components/auth/Login.tsx:55-91 | a failing pre-check shows its message without calling `login`, and leaves the state and storage as they were; otherwise `login` runs, its error is shown, and success iff an account matches, with the auth state and the session key set to the first match; a failure keeps the auth state and changes storage only by the default-users load; loading ends false |
| Login.LoginForm.HandleInputChange | src/components/auth/Login.tsx:93-102 | the field takes the value and the error is cleared |
| Login.LoginForm.HandleDemoLogin | src/components/auth/Login.tsx:104-107 | both fields are filled and the error is cleared |
| TransactionForm.Blank | src/components/TransactionForm.tsx:12-19 | today's date, type 'income', every other field empty |
| TransactionForm.ToDraft | src/components/TransactionForm.tsx:29-36 | date, type, category, description and project are copied from the form, and the amount is parsed |
| TransactionForm.Categories | src/components/TransactionForm.tsx:51 | the income categories for type 'income', the expense categories otherwise |
| TransactionForm.OfferedCategoriesSelectable | src/types/transaction.ts:22-35 | every offered category has a non-empty value, and no value is offered twice in one list |
| TransactionForm.CompleteIgnoresDateAndProject | src/components/TransactionForm.tsx:24 | whether a submit is accepted does not depend on the date or the project |
| TransactionForm.Form.HandleChange | src/components/TransactionForm.tsx:70-136 | the edited field takes the value; changing the type also clears the category |
| TransactionForm.Form.HandleSubmit | src/components/TransactionForm.tsx:21-49 | an incomplete form adds nothing and stays as it is; a complete one hands over exactly one draft built from it, and the form is reset |
| Ledger.OfType | src/components/Dashboard.tsx:10-16 | only transactions of the given type are kept |
| Ledger.OfTypeMultiset | src/components/Dashboard.tsx:10-16 | each transaction of the type is kept as often as it occurs, and no other is kept |
| Ledger.OfTypeMembers | src/components/TransactionList.tsx:15 | a transaction is kept iff it is in the list and of the type |
| Ledger.SumOfOfType | src/components/Dashboard.tsx:10-16 | summing over the filtered list equals summing a projection that is zero off the type |
| Ledger.OfTypePermutation | src/components/Dashboard.tsx:22 | reordering a list reorders its filtered sublist |
| Ledger.ProfitMargin | src/components/Dashboard.tsx:19 | 0 when there is no income; otherwise the margin times the income is 100 times the net profit |
| Ledger.SumOfAppend | src/components/Dashboard.tsx:12 | a sum over two lists is the sum of the two sums |
| Ledger.SumOfPermutation | src/components/Dashboard.tsx:22 | reordering a list does not change any sum over it |
| Ledger.TotalOfPermutation | src/components/Dashboard.tsx:22 | reordering a list does not change its total of any type |
| Ledger.SignedSumSplit | src/components/Charts.tsx:256 | the signed sum is twice the income minus the sum of all amounts |
| Ledger.TypesPartition | src/components/Charts.tsx:244-250 | with only the two types, income plus expenses is the sum of all amounts |
| Ledger.SignedSumIsNetProfit | src/components/Charts.tsx:256 | with only the two types, the signed sum is income minus expenses |
| Ledger.SignedSumDiffersOnThirdType | src/components/Charts.tsx:256 | a transaction of a third type makes the signed sum differ from income minus expenses |
| Sorting.SortDesc | src/components/TransactionList.tsx:16-22 | the insertion sort, largest key first, of the same length as its input; permutation and order are in `SortDescPermutation` and `SortDescSorted` |
| Sorting.InsertMultiset | src/components/TransactionList.tsx:16-22 | inserting adds exactly the one element |
| Sorting.InsertSorted | src/components/TransactionList.tsx:16-22 | inserting into a sorted list keeps it sorted |
| Sorting.InsertAt | src/components/TransactionList.tsx:16-22 | the element goes after every key at least as large and before the first smaller one |
| Sorting.SortDescPermutation | src/components/TransactionList.tsx:14-22 | the sort is a permutation of its input |
| Sorting.SortDescSorted | src/components/TransactionList.tsx:16-22 | the sort's keys never rise |
| Sorting.SortDescOfSorted | src/components/TransactionList.tsx:16-22 | an already sorted list is left unchanged |
| Sorting.InsertLast | src/components/Dashboard.tsx:22 | the next element is put into the sorted prefix in place, and the rest of the array is unchanged |
| Sorting.SortInPlace | src/components/Dashboard.tsx:22 | the array ends as the insertion sort `SortDesc` of its old contents |
| TransactionList.Visible | src/components/TransactionList.tsx:14-22 | the rows shown are a permutation of the filtered list, sorted by the chosen key |
| TransactionList.VisibleCounts | src/components/TransactionList.tsx:14-22 | a transaction appears as often as in the list when it passes the filter, and never otherwise |
| TransactionList.VisibleMembers | src/components/TransactionList.tsx:15 | with 'all' every transaction is shown; otherwise exactly those of the chosen type |
| TransactionList.VisibleOrder | src/components/TransactionList.tsx:18-20 | sorted by amount the amounts never rise; sorted by date the newest comes first |
| TransactionList.EmptyMessage | src/components/TransactionList.tsx:69-72 | a message shows iff nothing is visible, with the filter hint iff a filter is on |
| Dashboard.NetColor | src/components/Dashboard.tsx:61 | green iff the net profit is at least 0, red otherwise |
| Dashboard.MarginColor | src/components/Dashboard.tsx:67 | green iff the margin is at least 20, orange iff it is in [10, 20), red below 10 |
| Dashboard.MarginColorOfTotals | src/components/Dashboard.tsx:67 | read off the totals: red without income, green when the net is at least a fifth of the income, orange when it is at least a tenth, red otherwise |
| Dashboard.Recent | src/components/Dashboard.tsx:23 | the first min(5, n) entries of the list |
| Dashboard.RecentOfSorted | src/components/Dashboard.tsx:21-23 | at most five, newest first, all from the list, and no omitted transaction is newer than any shown |
| Dashboard.Render | src/components/Dashboard.tsx:9-23 | the totals are those of the list before the sort; net profit is their difference; the colours follow them; the caller's array ends sorted newest first; the recent list is its prefix |
| Dashboard.SortKeepsTotals | src/components/Dashboard.tsx:22 | the in-place sort leaves every type's total as it was |
| Dict.IndexOf | src/components/Charts.tsx:64 | the position of the first entry with that key, or -1 when there is none |
| Dict.Upsert | src/components/Charts.tsx:64 | a present key keeps its place; a new key is appended after the old entries |
| Dict.UpsertLookup | src/components/Charts.tsx:64 | after the assignment the key is present with the new value, and every other key reads as before |
| Dict.UpsertDistinct | src/components/Charts.tsx:64 | an assignment never stores a key twice |
| Dict.Values | src/components/Charts.tsx:92 | the values in entry order |
| Dict.SumOverUpdate | src/components/Charts.tsx:70 | replacing one entry changes a sum over the entries by the change in that entry |
| Dict.UpsertSum | src/components/Charts.tsx:64 | an assignment changes a sum over the entries by the change in the one value |
| Charts.CategoryTotals | src/components/Charts.tsx:61-65 | the `categoryData` dictionary as a fold over the expenses; no contract of its own, its meaning is in `CategoryTotalsLookup`, `CategoryTotalsDistinct` and `CategoryTotalsSum` |
| Charts.CategoryTotalsLookup | src/components/Charts.tsx:61-65 | a category has an entry iff some folded transaction has it, holding the sum of their amounts |
| Charts.CategoryTotalsDistinct | src/components/Charts.tsx:61-65 | each category is stored once |
| Charts.CategoryTotalsSum | src/components/Charts.tsx:61-65 | the entries add up to the sum of all amounts folded in |
| Charts.Percentage | src/components/Charts.tsx:70 | no number when the total is 0; otherwise the percentage times the total is 100 times the value |
| Charts.SlicesAt | src/components/Charts.tsx:67-71 | slice i carries the display name, value and share of entry i |
| Charts.SharesOfSlices | src/components/Charts.tsx:67-71 | the slices' shares add up to the entries' percentages |
| Charts.PercentSumProportional | src/components/Charts.tsx:70 | the entries' percentages add up to 100 times their sum over the total |
| Charts.SharesProportional | src/components/Charts.tsx:70 | the shares add up to 100 times the values' sum over the total |
| Charts.SharesSumTo100 | src/components/Charts.tsx:70 | when the expenses are not 0 the shares add up to 100 |
| Charts.ProcessCategoryData | src/components/Charts.tsx:58-72 | the loop's slices are those of the per-category fold over the expenses |
| Charts.CategoryDataMeaning | src/components/Charts.tsx:58-72 | one entry per expense category, holding that category's expense total; the entries sum to the Total Expenses card; the shares sum to 100 when that card is not 0 |
| Charts.ReplaceFirst | src/components/Charts.tsx:68 | only the first hyphen becomes a space |
| Charts.DisplayName | src/components/Charts.tsx:68 | the first hyphen replaced, then each word capitalised, keeping the length; each step is stated by the `ReplaceFirst` and `CapitalizeWords` rows |
| Charts.CapitalizeWords | src/components/Charts.tsx:68 | a character is upper-cased iff it is a word character that does not follow one |
| Charts.DisplayNameSalary | src/components/Charts.tsx:68 | 'salary' is shown as 'Salary' |
| Charts.DisplayNameSecondHyphenKept | src/components/Charts.tsx:68 | 'a-b-c' is shown as 'A B-C': a second hyphen stays |
| Charts.LastOnDate | src/components/Charts.tsx:85 | the position of the last transaction on the date, or -1 |
| Charts.Daily | src/components/Charts.tsx:80-90 | the `dailyData` dictionary as a fold over the sorted list; no contract of its own, its meaning is in `DailyLookup` and `DailyDistinct` |
| Charts.DailyLookup | src/components/Charts.tsx:80-89 | a date has an entry iff some transaction falls on it; the entry holds that day's label, the last such transaction's signed amount, and the signed sum up to and including it |
| Charts.DailyDistinct | src/components/Charts.tsx:85 | each date string is stored once |
| Charts.DailyTrendOf | src/components/Charts.tsx:76-92 | the loop with its running cumulative yields the daily fold's values |
| Charts.ProcessDailyTrend | src/components/Charts.tsx:74-93 | the caller's array ends sorted oldest first, and the points are the daily fold over it |
| Charts.EarliestFirst | src/components/Charts.tsx:79 | after the sort the dates never get earlier |
| Charts.DailyEndsAtBalance | src/components/Charts.tsx:83 | the last transaction's cumulative value is the signed sum of the whole list |
| Charts.DailyTrendEndsAtNetCard | src/components/Charts.tsx:83 | the final running total equals the Net Profit card |
| Charts.DailyLastKey | src/components/Charts.tsx:85-92 | when the last date's transactions end the list, the last point is that date's |
| Charts.DailyTrendLastPoint | src/components/Charts.tsx:74-93 | when distinct dates have distinct timestamps, the last point's cumulative value equals the Net Profit card |
| Charts.FirstInMonth | src/components/Charts.tsx:38-40 | the position of the first transaction of the month, or -1 |
| Charts.Months | src/components/Charts.tsx:33-47 | the `monthlyData` dictionary as a fold over the list; no contract of its own, its meaning is in `MonthsLookup`, `MonthsDistinct` and `MonthsSums` |
| Charts.MonthsLookup | src/components/Charts.tsx:33-47 | a month has an entry iff some transaction falls in it; its income is that month's income, its expenses everything else that month, and its name comes from the month's first transaction |
| Charts.MonthsDistinct | src/components/Charts.tsx:38-40 | each month key is stored once |
| Charts.MonthsSums | src/components/Charts.tsx:42-46 | over all months the incomes add up to the Total Revenue card, and the expenses to every amount that is not income |
| Charts.MonthlyExpensesAreTotalExpenses | src/components/Charts.tsx:42-46 | with only the two types, the monthly expenses add up to the Total Expenses card |
| Charts.MonthlyExpensesCountThirdType | src/components/Charts.tsx:42-46 | a third-type transaction is a monthly expense but not in the Total Expenses card |
| Charts.ToRow | src/components/Charts.tsx:51-55 | profit is income minus expenses; margin is 0 without income, and otherwise margin times income is 100 times the profit |
| Charts.Rows | src/components/Charts.tsx:51-55 | one row per month, in order |
| Charts.ProcessMonthlyData | src/components/Charts.tsx:30-55 | the loop's rows are those of the monthly fold, before the name sort |
| Charts.Average | src/components/Charts.tsx:262 | 0 for an empty list; otherwise the average times the count is the total |
| Charts.Cards | src/components/Charts.tsx:241-265 | revenue and expenses are the type totals; net profit is the signed sum, that is twice the revenue minus all amounts, and with only the two types the difference of revenue and expenses; the average is 0 for an empty list and otherwise the average times the count is the sum of all amounts |
| Charts.NetCardWithTwoTypes | src/components/Charts.tsx:244-256 | the Net Profit card is twice the revenue minus all amounts, and with only the two types revenue minus expenses |
| Charts.CardsUnchangedBySort | src/components/Charts.tsx:79 | the cards read the array after the daily trend sorted it, and show what they would have shown before |
| AIInsights.ExpensesByCategory | src/components/AIInsights.tsx:24-29 | one entry per expense category, holding that category's expense total; the entries sum to the total expenses |
| AIInsights.PromptMetrics | src/components/AIInsights.tsx:19-42 | each total is the sum over its own type; net profit is their difference; the margin is the profit margin of those two totals, and 0 without income |
| AIInsights.PromptMargin | src/components/AIInsights.tsx:37 | whenever there is income, the margin times the income is 100 times the net profit |
| AIInsights.TotalsAreProjections | src/components/AIInsights.tsx:19-20 | each filtered total equals the sum of a per-transaction projection that is zero off its type |
| AIInsights.PromptAgreesWithCards | src/components/AIInsights.tsx:19-21 | the prompt and the Charts cards agree on revenue and expenses, and on net profit with only the two types |
| AIInsights.InsightText | src/components/AIInsights.tsx:70-77 | the first part's text when the first candidate is present and has content; the configuration message otherwise (no candidates, none, a `null` first one, or one without content); the error message when the call throws, including when that content has no `parts` property or an empty one |
| AIInsights.NoContentIsUnable | src/components/AIInsights.tsx:70-74 | no candidates, an empty list of them, a `null` first candidate, or a first candidate without content all give the configuration message |
| AIInsights.PartlessContentIsError | src/components/AIInsights.tsx:70-77 | content with a missing or empty `parts` gives the error message, since reading `parts[0].text` throws |
| AIInsights.FirstPartOnly | src/components/AIInsights.tsx:71 | only the first candidate's first part is read |
| AIInsights.GenerateDisabled | src/components/AIInsights.tsx:127 | the button can be used iff not loading and there is a transaction |
| AIInsights.InsightsPanel.GenerateInsights | src/components/AIInsights.tsx:14-81 | the figures are the prompt metrics of the list (so the margin is 0 without income and the count is the list's length) over a grouping with one entry per expense category, holding that category's total and summing to the expenses; the insights take the extracted text; loading ends false on every path |
| App.Gate | src/App.tsx:17-95 | loading shows the loading screen; not authenticated, or authenticated without a user, shows the auth screens; the page shows iff not loading, authenticated and a user is present |
| App.InitialShowsLoading | src/App.tsx:21 | the provider's initial state shows the loading screen |
| App.SettledGate | src/App.tsx:83-94 | in a settled state the page shows iff a user is signed in |
| App.RestoredGate | src/App.tsx:83-94 | after the session restore the page shows iff the stored record parses to a user; a stored `null` authenticates but shows the auth screens |

## Left out

- Browser I/O is abstracted. Local storage is a map, and `JSON.stringify`/`JSON.parse` form an identity codec with one failure case. A parsed value of the wrong shape for its key counts as unparsable.
- A `setItem` that throws (a full storage quota) is not modelled. `saveUsers` catches its own error; the `setItem` calls for the session key would reach the 'An error occurred during login/signup' results.
- A users key holding JSON that parses but is not a list (such as `null`) is read as unparsable, so the model's `loadUsers` returns the default accounts and login or signup go on from them. In the program `loadUsers` returns that value, `users.find` throws, and login answers 'An error occurred during login' (signup: 'An error occurred during signup'). The model does not reach those two results. A `JSON.parse` failure is modelled: it is the `catch` of `loadUsers`, which returns the defaults.
- AuthContext.AuthProvider.RestoreSession: a session value that parses but is neither a user record nor `null`, such as `5` or `[]`, reads as unparsable, so the model removes the key and leaves the state unauthenticated. The program's `JSON.parse` accepts it, and AuthContext.tsx:37-40 authenticates with it as the user. Login and signup only ever write a user record under that key, so the model's own writes never reach this case.
- Login's `Threw` path is kept only as a value of `Login.AttemptError`. `Login.LoginForm.HandleSubmit` never takes it, because the modelled `login` cannot throw.
- `Papa.parse` and `Papa.unparse` are a foreign library. The imports start from already-parsed rows, where a missing cell is the empty string.
- `exportUsersToCSV`, `exportUserTransactionsToCSV` and `exportToCSV` only do file-download plumbing.
- `Date.now()`, `Math.random()` and `new Date().toISOString()` become supplied ids and timestamps. The model claims nothing about their uniqueness. In the user import one `now` stands for the `new Date()` the program takes once per row, so rows imported in the same call share a timestamp in the model.
- Date parsing and locale formatting are supplied functions: `stamp`, the month key, the month name and the day label.
- Charts.ProcessMonthlyData: the `localeCompare` sort on month names is left out because it is locale dependent. The rows come in first-seen order.
- Floating-point arithmetic is left out: `parseFloat` is the supplied `parseAmount`, and `toFixed` rounding is not modelled. Amounts are integer cents, and margins, shares and averages are exact reals. A percentage over a zero total, NaN or ±Infinity in the program, becomes `None`.
- JavaScript lists integer-like object keys (such as a category named "12") before the others, regardless of insertion order. Dict keeps insertion order only.
- Login's security-check timers are left out; only the three flags and their conjunction remain.
- React rendering, styling, alerts, the strength bar's width, navigation and tab toggles are left out. Each handler is one atomic step.
- The Gemini request in `generateInsights` is network I/O. Its result is the parameter `fetched`, and the prompt text is reduced to the figures it is written from.
- Charts.DisplayName has proved examples only for short names, 'salary' and 'a-b-c'. The general behaviour is stated by `Charts.ReplaceFirst` and `Charts.CapitalizeWords`.
- Charts.DailyTrendLastPoint: the last point equals the Net Profit card only when distinct date strings have distinct timestamps. Two strings for the same instant can leave an earlier entry last.
- AIInsights.InsightText: a part without a `text` property (which sets `undefined`) is not modelled; parts always carry text.
- The dashboard sorts the very array the transactions hook holds as its state, since the page passes that array down. The sort therefore reorders the hook's list, and the next `addTransaction` stores it in that sorted order. The model keeps `UseTransactions.TransactionsHook` state as a value separate from `Dashboard.Render`'s array, so it does not capture this aliasing or the stored order it leads to (the totals are unaffected, by `Dashboard.SortKeepsTotals`).
- A CSV date that does not parse gives `getTime()` NaN, which makes the sort comparators inconsistent. A `stamp` from strings to integers cannot represent that, so the model does not cover such dates.
- A category or month key that names a prototype member (`constructor`, `__proto__`) misbehaves in the `{}` dictionaries of the charts and the insights panel. `Dict` treats every key as an ordinary one.
