# Wealth-management backend: balances, ledgers and registries in Dafny

This project models the backend of a personal wealth-management application.

The centre of the model is the **balance reconciler**. Every user has one signed balance per
payment method and one aggregate balance. Creating, updating and deleting an expense calls the
reconciler. The reconciler classifies the expense's amount type as credit or debit by its name,
moves the matching payment-method row, and recomputes the aggregate as the sum of the user's rows.

Around the reconciler the model covers:

- the expense and saving collections: ordered validation, partial update, the expense `/stats` fold and the saving `/total` fold;
- the three reference registries (amount types, payment methods, categories): unique trimmed names and an `active|inactive` status;
- the loan accounts: a borrowed or lent account with embedded transactions, and the summary folded from them;
- the two game high-score trackers (2048 and Snake).

Modules, one file each:

| file | module | what it holds |
|---|---|---|
| `common.dfy` | `Common` | identifiers, `Option`, the route outcome `Ok / Invalid(reason) / NotFound`, validation reasons |
| `text.dfy` | `Text` | `trim`, `s?.trim() \|\| fallback`, ASCII `toLowerCase`, `includes` |
| `classifier.dfy` | `Classifier` | the credit/debit classification of an amount-type name |
| `registry.dfy` | `Registry` | the registry table class (create, rename, status, delete) |
| `balances.dfy` | `Balances` | method rows, aggregates, the reconciler as a function on a `Ledger` value, the `BalanceStore` class |
| `entries.dfy` | `Entries` | the entry document, request checks, patch, credit/debit sums |
| `expenses.dfy` | `Expenses` | `/stats`, and the `ExpenseBook` class that drives the reconciler |
| `savings.dfy` | `Savings` | `/total`, and the `SavingBook` class, which has no balance reference |
| `accounts.dfy` | `Accounts` | the account summary fold and the `AccountBook` class |
| `high_scores.dfy` | `HighScores` | the 2048 and Snake trackers |

Stateful route handlers are methods on classes whose fields are the collections they update. Each
such method's `ensures` ties the new state to a specification function of the old state. The
reconciler is one example: `BalanceStore.UpdatePaymentMethodBalance` ensures
`Snapshot() == Reconcile(old(Snapshot()), ...)`. The round-trip, frame and sum properties are
lemmas about those specification functions.

Money is an unbounded `int` (minor units). Dates are integer instants. The current time is a
`now` parameter. A database query result is a sequence parameter. A populated reference is a
lookup in a map of records, and a lookup that fails gives `None` (the route's 500).

**Sign convention.** Applying a credit entry **adds** its amount to the payment-method balance,
and applying a debit entry subtracts it (routes/paymentMethodBalance.js:161-167). Reversing an
entry is the exact negation of applying it.

## Model

| member | source | states |
|---|---|---|
| Text.Trim | routes/amountType.js:65-70 | the result is the input with its leading and trailing white space cut off: a contiguous window of the input, with only white space outside it and none at its ends; empty exactly when the input is all white space |
| Text.TrimIdempotent | models/AmountType.js:4-10 | trimming a stored (trimmed) name again changes nothing |
| Text.TrimOr | routes/account.js:140-148 | `s?.trim() \|\| fallback`: the trimmed string when present and not blank, otherwise the fallback |
| Text.Lower | routes/paymentMethodBalance.js:145-146 | same length, and each character is lower-cased at its own position |
| Text.LowerIdempotent | routes/paymentMethodBalance.js:145-146 | lower-casing twice equals lower-casing once |
| Text.Contains | routes/paymentMethodBalance.js:145-146 | `includes` is true exactly when the pattern occurs at some position |
| Classifier.IsCredit | routes/paymentMethodBalance.js:145-146 | credit if and only if the lower-cased name mentions "credit" or "income" |
| Classifier.IsCreditIgnoresCase | routes/paymentMethodBalance.js:145-146 | a name and its lower-cased form classify alike |
| Classifier.KeywordAnywhereIsCredit | routes/paymentMethodBalance.js:145-146 | a name holding "credit" or "income" in any letter case at any position is credit |
| Classifier.CreditCardBillIsCredit | routes/paymentMethodBalance.js:145-146 | "Credit Card Bill" is credit |
| Classifier.SalaryIncomeIsCredit | routes/paymentMethodBalance.js:145-146 | "Salary Income" is credit |
| Classifier.GroceriesIsDebit | routes/paymentMethodBalance.js:145-146 | "Groceries" is debit |
| Registry.NameCheck | routes/amountType.js:65-77 | passes if and only if a name is given, is not blank and has at least 2 characters before trimming; a missing or blank name is "required", and a given, non-blank name shorter than 2 characters is "too short" |
| Registry.ParseStatus | routes/amountType.js:250-255 | only `active` and `inactive` are accepted, each to its own status |
| Registry.InsertKeepsNamesUnique | routes/paymentMethod.js:80-96 | inserting a name no record holds keeps names unique (payment-method router, identical to the other two) |
| Registry.RenameKeepsNamesUnique | routes/category.js:158-173 | renaming to a name no other record holds keeps names unique, including re-saving a record's own name (category router) |
| Registry.StatusKeepsNamesUnique | routes/amountType.js:262-264 | a status change keeps names unique |
| Registry.Table.Get | routes/amountType.js:29-57 | the record when the id exists, otherwise not found |
| Registry.Table.Create | routes/amountType.js:60-126 | name checks, then a duplicate trimmed name, then the schema's 2..50 bound on the trimmed name; on success only the new id is added, holding the trimmed name and `active`; names stay unique and trimmed; a name that passes every check is created |
| Registry.Table.Rename | routes/amountType.js:129-209 | name checks before the lookup, then not found, then a name held by another record; on success only the name changes; succeeds exactly when all checks and the schema pass |
| Registry.Table.SetStatus | routes/amountType.js:245-287 | a bad status is refused before the lookup, then not found; on success only the status changes |
| Registry.Table.Delete | routes/amountType.js:212-242 | not found for a missing id; otherwise exactly that record is removed |
| Balances.IndexOf | routes/paymentMethodBalance.js:148-151 | the first row keyed by (user, method), or none exactly when no row has that key |
| Balances.Delta | routes/paymentMethodBalance.js:161-167 | the change is plus or minus the amount; plus exactly when credit differs from reversal |
| Balances.Recomputed | routes/paymentMethodBalance.js:12-28 | the aggregate equals the sum of the user's rows; rows and other users' aggregates are untouched |
| Balances.Adjust | routes/paymentMethodBalance.js:148-172 | the row exists afterwards, its balance moved by exactly the delta, and the aggregate is consistent |
| Balances.Reconcile | routes/paymentMethodBalance.js:138-176 | an unresolved amount type changes nothing; otherwise the row moves by the signed amount (negated for a reversal) and the aggregate is consistent |
| Balances.AdjustedAt | routes/paymentMethodBalance.js:153-167 | a missing row is created at 0 before the delta is added; an existing row is updated in place, adding no row |
| Balances.AdjustedElsewhere | routes/paymentMethodBalance.js:148-167 | no other (user, method) balance changes |
| Balances.AdjustedSum | routes/paymentMethodBalance.js:161-172 | the owner's sum moves by exactly the delta; other users' sums do not move |
| Balances.AdjustedKeepsUnique | models/PaymentMethodBalance.js:24 | the one-row-per-(user, method) index is preserved |
| Balances.SetRowIsAdjustment | routes/paymentMethodBalance.js:100-113 | the manual overwrite equals an adjustment by the difference to the wanted value |
| Balances.AdjustedCancels | routes/paymentMethodBalance.js:161-167 | adjusting by d then by -d restores the rows exactly when the row existed; otherwise one zero row is left |
| Balances.ZeroRowInvisible | routes/paymentMethodBalance.js:153-159 | a lazily created zero row changes no balance and no sum |
| Balances.AdjustEffect | routes/paymentMethodBalance.js:148-172 | one adjustment changes no other row, no other user's sum or aggregate, and keeps the unique index |
| Balances.AdjustRoundTrip | routes/paymentMethodBalance.js:161-172 | adjusting by d then -d restores every balance and sum; the aggregate ends equal to the sum |
| Balances.AdjustedRoundTrip | routes/paymentMethodBalance.js:153-167 | on the rows alone, adding d then -d restores every balance and sum, and the exact rows when the row existed |
| Balances.ReconcileRoundTrip | routes/paymentMethodBalance.js:161-167 | Apply then Reverse, and Reverse then Apply, of the same tuple restore every balance and sum; the exact rows when the row existed or the type is missing; the aggregate when it was consistent; a rename in between that keeps the classification does not matter |
| Balances.UpdateEffect | routes/expense.js:334-335 | after an expense update, each method balance equals the old one, minus the old signed amount on the old method, plus the new signed amount on the new method; the aggregate is consistent; an unchanged tuple leaves the rows exactly as they were |
| Balances.AdjustedByIndex | routes/paymentMethodBalance.js:148-167 | the adjustment is the find-or-create of the row followed by an update in place at its index |
| Balances.SumBalances | routes/paymentMethodBalance.js:14-15 | the loop's result is the sum of the user's rows |
| Balances.BalanceStore.UpdateMainBalance | routes/paymentMethodBalance.js:12-28 | the new state is `Recomputed` of the old one; returns the sum |
| Balances.BalanceStore.UpdatePaymentMethodBalance | routes/paymentMethodBalance.js:138-176 | the new state is `Reconcile` of the old one; the unique index is kept |
| Balances.BalanceStore.AddToRow | routes/paymentMethodBalance.js:148-167 | the rows become exactly the adjusted rows; the aggregates do not change; the unique index is kept |
| Balances.BalanceStore.GetMethodBalance | routes/paymentMethodBalance.js:50-79 | the stored row's balance, or 0 without creating a row when none exists |
| Balances.BalanceStore.SetMethodBalance | routes/paymentMethodBalance.js:82-134 | missing or null is refused first, then a non-number; otherwise the row holds exactly the value and the aggregate is recomputed |
| Balances.ManualSetEffect | routes/paymentMethodBalance.js:100-118 | after the manual set the row holds exactly the value, no other row changes, and the aggregate is consistent |
| Balances.BalanceStore.GetBalance | routes/balance.js:11-35 | the aggregate, created at 0 when absent |
| Balances.BalanceStore.SetBalance | routes/balance.js:38-67 | missing or null, then non-number, are refused; otherwise the aggregate is overwritten with exactly the value and no row changes |
| Balances.DirectOverwriteBypassesSum | routes/balance.js:56-67 | the overwrite keeps the aggregate equal to the sum if and only if the value equals the sum |
| Entries.CreateCheck | routes/expense.js:162-216 | passes if and only if the amount is positive, all three references are given, and all three are active; each failure gives the reason of the first failed check, in the order amount, category given, payment method given, amount type given, category active, payment method active, amount type active |
| Entries.UpdateCheck | routes/expense.js:285-321 | passes if and only if a supplied amount is positive and every supplied reference is active; an empty body passes; a failure gives the reason of the first failed check, in the order amount, category active, payment method active, amount type active |
| Entries.StoredDescription | models/Expense.js:34-38 | `description \|\| ''`, trimmed: the empty string when absent, the trimmed description when given |
| Entries.NewEntry | routes/expense.js:219-227 | the saved document carries the body's fields, the given date or now, and the trimmed description, empty when none is given |
| Entries.Patched | routes/expense.js:324-329 | each supplied field overwrites (a description as its trimmed value), each absent field keeps its value, the owner never changes |
| Entries.CreditDebitPartition | routes/expense.js:72-82 | when every amount type resolves, credit sum plus debit sum equals the sum of all amounts |
| Entries.OnMethod | routes/expense.js:84-99 | the entries selected for a method are all on that method |
| Entries.OnMethodNonEmpty | routes/expense.js:84-99 | a method has entries selected exactly when some entry is on it |
| Expenses.StatIndex | routes/expense.js:85-93 | the line of a method; none only when no line has it |
| Expenses.StatIndexFinds | routes/expense.js:85-93 | a method that has a line is found |
| Expenses.Tallied | routes/expense.js:84-99 | the entry's method gets a line (created when new); no other line changes |
| Expenses.TalliedSums | routes/expense.js:95-99 | the column sums move by the amount in the credit or the debit column |
| Expenses.CountedLine | routes/expense.js:95-99 | the entry's own line, with the amount added to its column, holds the sums of its method's entries including the new one |
| Expenses.OtherLine | routes/expense.js:84-99 | a line of another method is unaffected by the entry |
| Expenses.NewLine | routes/expense.js:86-93 | the line created for a method first seen holds just the new entry |
| Expenses.TalliedLine | routes/expense.js:84-99 | each line holds the credit and debit sums of exactly its method's entries, including the new one |
| Expenses.TalliedLines | routes/expense.js:84-99 | every line is right after one more entry |
| Expenses.TalliedDistinct | routes/expense.js:86-93 | no method gets a second line |
| Expenses.TalliedListed | routes/expense.js:86-93 | every entry folded so far has a line |
| Expenses.SumsStep | routes/expense.js:72-99 | folding one more entry moves the lines' column sums exactly as it moves the credit and debit totals |
| Expenses.ShapeStep | routes/expense.js:84-99 | folding one more entry keeps one line per used method, each holding its own entries' sums, and a line for every entry |
| Expenses.SumsOfFold | routes/expense.js:72-99 | the column sums of the folded lines are the credit and debit totals |
| Expenses.ShapeOfFold | routes/expense.js:84-99 | the folded lines have exactly one line per method some entry uses, each with that method's credit and debit sums, and no other line |
| Expenses.LinesOfFold | routes/expense.js:72-99 | the folded lines satisfy both of the above |
| Expenses.ExpenseStats | routes/expense.js:62-100 | fails if and only if a populated reference does not resolve; otherwise the totals are the credit and debit sums, they add up to all amounts, and the lines are the in-order fold of the entries: one per method used, holding its own entries' sums, and none for an unused method |
| Expenses.ExpenseBook.Create | routes/expense.js:157-232 | the ordered checks, then the schema; nothing changes on failure; on success the expense is added and the balances are exactly one Apply |
| Expenses.ExpenseBook.Update | routes/expense.js:263-335 | not found first, then the update checks, then the schema; on success the patched expense replaces the old one and the balances are Reverse(old) then Apply(new) |
| Expenses.ExpenseBook.Delete | routes/expense.js:372-389 | not found changes nothing; otherwise one Reverse of the stored tuple and the expense is removed |
| Savings.TotalSavings | routes/saving.js:65-80 | fails if and only if an amount type does not resolve; otherwise credit sum minus debit sum, which equals twice the credit sum minus all amounts |
| Savings.SavingBook.Create | routes/saving.js:133-205 | the same ordered checks as an expense; on success only the new saving is added |
| Savings.SavingBook.Update | routes/saving.js:236-299 | not found, then the update checks, then the schema; on success only that saving is patched |
| Savings.SavingBook.Delete | routes/saving.js:336-350 | not found for a missing or another user's saving; otherwise exactly that saving is removed |
| Accounts.BuildSummary | routes/account.js:9-47 | outstanding is borrowed minus repaid; the totals are the sums of the principal-type and repayment-type amounts |
| Accounts.Later | routes/account.js:18-20 | the later of two optional dates: absent only when both are; otherwise one of them and no earlier than either |
| Accounts.FoldConcat | routes/account.js:12-39 | the fold of a concatenation merges the folds of its parts |
| Accounts.FoldPermutation | routes/account.js:12-39 | two transaction lists with the same multiset give the same totals |
| Accounts.SummaryIgnoresOrder | routes/account.js:9-47 | reordering the transactions leaves the summary unchanged |
| Accounts.FoldTotals | routes/account.js:12-34 | borrowed and repaid are the sums over the principal type and the repayment type of the account's kind |
| Accounts.LastRepayment | routes/account.js:17-21 | the last repayment date is absent exactly when there is no repayment; otherwise it is the latest repayment's date |
| Accounts.AcceptedAllCount | routes/account.js:204-218 | when every transaction has an accepted type, borrowed plus repaid equals all amounts |
| Accounts.TotalsNonNegative | models/Account.js:4-8 | with positive amounts both totals are non-negative |
| Accounts.OutstandingCanBeNegative | routes/account.js:41-46 | outstanding is not clamped: a borrowed account holding only a repayment has negative outstanding |
| Accounts.AppendSummary | routes/account.js:220-228 | appending a transaction moves the totals and the last date by that transaction alone |
| Accounts.RemovalSummary | routes/account.js:270-279 | removing one transaction takes exactly its own amount out of its total |
| Accounts.ParseTxnType | routes/account.js:184-189 | only the four type names parse, each to the type stored under that name |
| Accounts.ParseTxnTypeName | models/Account.js:9-13 | each transaction type's stored name parses back to that type |
| Accounts.KindOf | routes/account.js:134 | lent exactly when the request says `lent`; anything else is borrowed |
| Accounts.TxnIndex | routes/account.js:270 | the position of the transaction with that id, or none exactly when no transaction has it |
| Accounts.NewAccount | routes/account.js:133-150 | owned by the caller, with the trimmed name and description (empty by default) and one opening transaction of the principal type, the initial amount, the given date or now, and the channel and note trimmed or defaulted to `Cash` and `Opening balance` |
| Accounts.SinglePrincipal | routes/account.js:9-47 | an account holding one principal transaction owes exactly its amount, has repaid nothing and has no repayment date |
| Accounts.OpeningSummary | routes/account.js:133-150 | a new account's summary is (initial, 0, initial, no date) |
| Accounts.AppendValid | routes/account.js:220-228 | appending a transaction with a fresh id, a positive amount and an accepted type keeps the account valid |
| Accounts.RemovalValid | routes/account.js:270-279 | removing one transaction keeps the account valid |
| Accounts.AccountBook.Create | routes/account.js:115-153 | a blank name, then a missing or non-positive amount, are refused with nothing changed; otherwise only the new account is added |
| Accounts.AccountBook.AddTxn | routes/account.js:173-230 | amount, then type, are checked before the lookup, then not found, then a type the kind does not accept; on success the transaction is appended with the defaults and nothing else changes; a request that passes every check succeeds |
| Accounts.AccountBook.DeleteTxn | routes/account.js:256-281 | not found for an unknown account or transaction; otherwise exactly that transaction is removed, the others keep their order; an owned account holding the transaction always succeeds |
| Accounts.RemovedIsGone | routes/account.js:279 | after removal no transaction with that id remains, and there is one transaction fewer |
| HighScores.Kept | routes/game2048.js:27-33 | the first score is stored as given; afterwards the stored score is the larger of the two |
| HighScores.ReplayIsMax | routes/game2048.js:29-33 | after a run of submissions the score is the maximum of the start and all submissions |
| HighScores.ReplayMonotone | routes/game2048.js:29-33 | the stored score never decreases |
| HighScores.Game2048.Get | routes/game2048.js:8-19 | the stored score, created at 0 when absent |
| HighScores.Game2048.Submit | routes/game2048.js:22-42 | stores and returns the kept score; no other user's score changes |
| HighScores.DefaultBoard | models/SnakeGame.js:10-15 | exactly the four difficulty keys, each at 0 |
| HighScores.Submitted | routes/snakeGame.js:27-34 | a new record gets the defaults with the score set unconditionally; an existing one keeps the larger of score and current (missing counts as 0) |
| HighScores.SubmittedFrame | routes/snakeGame.js:30-34 | only the submitted difficulty can change: no key other than it appears, every other score stays, no key disappears and no score decreases |
| HighScores.FirstSubmission | routes/snakeGame.js:27-29 | on a new record every other difficulty is 0 and the submitted one holds the score |
| HighScores.SnakeGame.Get | routes/snakeGame.js:8-19 | the stored board, created at the defaults when absent |
| HighScores.SnakeGame.Submit | routes/snakeGame.js:22-46 | stores and returns the submitted board; no other user's board changes |

## Left out

- HTTP plumbing (status codes, JSON envelopes, authentication middleware, `populate` of the response) is not modelled. Outcomes are `Ok`, `Invalid(reason)` and `NotFound`.
- Malformed identifiers (`CastError`, answered with 400) are not modelled. Identifiers are naturals.
- Unexpected exceptions are not modelled: the 500 paths and the reconciler's swallowed errors. The exception is a populated reference that no longer resolves in `/stats` and `/total`, which is `None`.
- Database queries are not modelled: the list routes (`GET /`), single-document reads of expenses, savings and accounts, sorting, and the date-range filters. Query results enter as sequence parameters.
- Concurrency is not modelled. Each route runs atomically; the reconciler's read-modify-write across awaits is treated as one step.
- Amounts are integers. JavaScript floating point, `NaN` (such as `Number("abc")` passing the `<= 0` checks), and `pmb.balance || 0` for a non-numeric balance are not modelled.
- `toLowerCase` is ASCII-only in the model. `trim` covers the ECMAScript white-space set.
- Timestamps (`createdAt`, `updatedAt`, `lastPlayed`) are not modelled. A falsy date such as `0` falls back to now in the source, but in the model any given date is used.
- A `null` description on an update (stored as `''`) is not distinguished from an absent one, which keeps the old description.
- The account status (`active|archived`) is not modelled: no modelled route changes it.
- models/Category.js is not part of this model. The registry's schema bound (2..50 characters after trimming) is taken from models/AmountType.js and matches models/PaymentMethod.js:9-10; the category table is assumed to use the same bound.
- Neither game router is mounted in server.js:22-33. They are modelled on their own.
- HighScores.SnakeGame.Submit: any difficulty key is stored. What the document mapper does with keys outside the four schema keys is not modelled.
- A non-numeric or missing score in the game routes is not modelled. Scores are integers.
- No at-least-one-transaction invariant: `DeleteTxn` may remove the opening transaction (routes/account.js:270-279), so an account can be left with none.
- Savings are not reconciled: the saving routes never call the reconciler, so `SavingBook` holds no balance reference.
