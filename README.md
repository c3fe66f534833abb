# help-invest, modelled in Dafny

help-invest is a personal investment tracker. A Flask backend keeps, for
each user, one balance per (user, category) pair and a log of signed
transactions. `invest`, `withdraw` and `delete_entry` validate a request and
then change one balance and the log together. A `dashboard` route and
`get_category_data` fold the balances into per-category totals. A React
frontend lists the totals in a fixed category order, draws pie charts, and
validates the invest/withdraw form before sending it. Two older Flask
applications (`main.py` and `backend/main.py`) hold the original form
handlers and an older dashboard.

This project models that core and proves properties of it:

- **`Ledger`** (ledger.dfy). The database is a class with the user table, the
  category catalogue, the balances map keyed by (user id, category id) and
  the transaction log. Each route handler is one atomic method. Its checks
  are a function that returns the first failure in source order. The
  invariant `Valid` holds that every balance equals the sum of the logged
  amounts of its pair, and every method preserves it. Refusals leave the
  state unchanged. `update_risk_profile`, `view_history` paging,
  `get_or_create_user` and the user-delete cascade are here too.
- **`Aggregation`** (aggregation.dfy). These are the aggregation loops of the
  modern dashboard, `get_category_data` and the legacy dashboards. Each is a
  method whose loop is proved equal to a fold; lemmas about the fold give
  totals and duplicate summing.
- **`Passwords`**, **`Auth`**, **`Formatting`**, **`AmountInput`**. These cover
  both copies of `validate_password_strength`, Bearer stripping, the token
  and session decorators, `eur` and `usd` with their round trips, and the
  `script/amount.js` input and blur handlers.
- **`LegacyHandlers`**. These are the `signup`, `change_password` and
  `add_entry` check chains of both legacy applications, each shown to report
  the first failing check of an explicit order.
- **`CategoryOrder`**, **`DashTable`**, **`DashGraph`**, **`CategoryGraph`**,
  **`Views`**. These are the frontend's stable fixed-preference sort, table
  rows with row spans, chart data, and the in-place descending sort of the
  category chart, together with the empty/loading gating.
- **`TransactionForms`**. This is the invest/withdraw form: its validation
  (built step by step as the component does and proved equal to a priority
  specification), `handleChange`, `handleSubmit` and `uniqueCategories`.

I/O and foreign code appear as parameters:

- The identity provider's token check is a function `verify`.
- Password-hash comparisons are booleans in `PasswordChange`.
- The category and balance lists the form loads are arguments of
  `TransactionForm.Mount`.
- A dictionary is an association list `seq<(K, V)>` with distinct keys,
  kept in the order in which keys were inserted. This is how the server's
  Python dictionaries iterate. The frontend does not see that order: the
  JSON reply is serialised with its own key order, and `Object.entries` and
  `Object.values` list integer-like keys first. The frontend members
  therefore take the entries in whatever order they are given.

Money is `int` throughout. The database columns are integers, and the form
accepts whole amounts only.

## Model

| member | source | states |
|---|---|---|
| `Passwords.FirstBrokenRule` | backend/app/helpers.py:121-129 | the first rule broken in the order length < 8, no A–Z, none of `@$!%*?&`; None exactly when all three hold |
| `Passwords.SearchUppercase` | backend/app/helpers.py:125 | true exactly when some character is an ASCII capital |
| `Passwords.SearchSpecial` | backend/app/helpers.py:127 | true exactly when some character is one of `@$!%*?&` |
| `Passwords.ValidatePasswordStrength` | backend/app/helpers.py:121-129 | None exactly when no rule is broken, otherwise the French message of the first broken rule |
| `Passwords.LegacyValidatePasswordStrength` | helpers.py:6-14 | None exactly when no rule is broken, otherwise the English message of the first broken rule |
| `Passwords.CopiesAgree` | helpers.py:6-14 | both copies accept exactly the same passwords |
| `Passwords.NoSpecialExample` | helpers.py:12-13 | "Abcdefgh" breaks only the special-character rule |
| `Passwords.StrongExample` | helpers.py:6-14 | "Abcdefg&" passes |
| `Auth.StripBearer` | backend/app/helpers.py:21-22 | a leading "Bearer " is removed once; another token is returned unchanged |
| `Auth.StripBearerOnce` | backend/app/helpers.py:55-56 | "Bearer " + t becomes t, whatever t starts with |
| `Auth.StripBearerBare` | backend/app/helpers.py:55-56 | a token without the prefix passes unchanged |
| `Auth.FailureMessage` | backend/app/helpers.py:32-47 | the `except` clauses in written order: an invalid or expired token gets "Invalid token", any other error "Token verification failed"; "Token expired" is never the answer |
| `Auth.FirebaseTokenRequired` | backend/app/helpers.py:7-49 | a missing or empty header gives 401 "Token is missing" without running the route; the route runs exactly when the stripped token verifies, and receives its uid and email; an invalid or expired token gives "Invalid token", any other verification error "Token verification failed" |
| `Auth.ExpiredMessageUnreachable` | backend/app/helpers.py:32-41 | as written, no request is ever answered "Token expired. Please login again." |
| `Auth.IntendedFailureMessage` | backend/app/helpers.py:32-47 | the clauses in intended order: each failure kind gets its own message |
| `Auth.FirebaseTokenRequiredIntended` | backend/app/helpers.py:7-49 | the corrected decorator answers an expired token "Token expired", an invalid one "Invalid token", and agrees with the written one on every other request |
| `Auth.UserFromToken` | backend/app/helpers.py:52-67 | the claims (uid, email, name, picture) exactly when the stripped token verifies, None otherwise |
| `Auth.LoginRequired` | helpers.py:24-27 | without a session user_id the answer is a redirect to /login; with one, the route's own result |
| `Formatting.DecimalDigits` | backend/app/helpers.py:81 | `str(n)` for n ≥ 0: digits only, no leading zero except for 0 |
| `Formatting.DecimalDigitsValue` | backend/app/helpers.py:81 | reading the digits back gives n |
| `Formatting.Group` | backend/app/helpers.py:81 | grouping d digits inserts (d − 1) / 3 separators |
| `Formatting.GroupShape` | backend/app/helpers.py:81 | a grouping is one to three digits, then groups of exactly three, one separator between groups |
| `Formatting.StripGroup` | helpers.py:41 | removing the separators from a grouping gives the digits back |
| `Formatting.Eur` | backend/app/helpers.py:79-81 | `eur(n)` is the sign and digits of n grouped by spaces, then " €" |
| `Formatting.EurShape` | backend/app/helpers.py:81 | the comma format with ',' replaced by ' ' and '.' replaced by ',' is the space grouping |
| `Formatting.EurRoundTrip` | backend/app/helpers.py:79-81 | cutting " €" and removing the spaces from `eur(n)` gives `str(n)` |
| `Formatting.ParseEur` | backend/app/helpers.py:79-81 | the digits of `eur(n)` read back as the magnitude of n |
| `Formatting.Usd` | helpers.py:39-41 | `usd(n)` is '$' followed by the sign and digits of n grouped by commas |
| `Formatting.UsdRoundTrip` | helpers.py:39-41 | removing '$' and ',' from `usd(n)` gives `str(n)` |
| `Formatting.ParseUsd` | helpers.py:39-41 | the digits of `usd(n)` read back as the magnitude of n |
| `Formatting.KeepDigitsKeeps` | script/amount.js:5 | a character is kept exactly when it occurs in the text and is a digit |
| `Formatting.KeepDigitsAppend` | script/amount.js:5 | keeping digits distributes over concatenation, so the kept digits stay in their order, repetitions included |
| `Formatting.KeepDigitsGroup` | script/amount.js:8-9 | keeping the digits of a grouping gives the grouped digits back |
| `AmountInput.Blurred` | script/amount.js:15-20 | a non-empty value gains '$' only when it lacks it; an empty value stays empty |
| `AmountInput.ReformatEmpty` | script/amount.js:10-12 | the field becomes "" exactly when the typed text has no digit |
| `AmountInput.ReformatShape` | script/amount.js:5-9 | otherwise it is '$' then comma groups, and removing '$' and ',' gives the digits' value without leading zeros |
| `AmountInput.ReformatIdempotent` | script/amount.js:5-9 | reformatting a reformatted value changes nothing |
| `AmountInput.BlurIdempotent` | script/amount.js:15-20 | blurring twice is blurring once: the '$' is never doubled |
| `AmountInput.BlurAfterInput` | script/amount.js:3-20 | blurring a reformatted field leaves it unchanged |
| `AmountInput.AmountField.OnInput` | script/amount.js:3-13 | the field's new value is the reformatting of its old value |
| `AmountInput.AmountField.OnBlur` | script/amount.js:15-20 | the field's new value is the blurred old value |
| `Aggregation.NonZeroKeeps` | backend/app/main.py:186-190 | a row is kept exactly when it is one of the rows and its balance is not 0 |
| `Aggregation.NonZeroAppend` | backend/app/main.py:186-190 | skipping zero rows distributes over concatenation: the kept rows keep their order and repetitions |
| `Aggregation.AddHoldingKeys` | backend/app/main.py:192-193 | a known category keeps its place; a new one is appended |
| `Aggregation.AddHoldingTotals` | backend/app/main.py:194-202 | adding a row preserves "each total is the sum of its sub-categories" and raises the grand total by the row's balance |
| `Aggregation.FoldShape` | backend/app/main.py:183-202 | the folded summary has distinct keys and agreeing totals, and its grand total is the sum of all balances |
| `Aggregation.FoldCategory` | backend/app/main.py:192-196 | a category is present exactly when some row has it, and its total is the sum of its rows |
| `Aggregation.FoldSub` | backend/app/main.py:198-202 | a sub-category is present exactly when some row has the pair, holding the sum of those rows: duplicates are summed |
| `Aggregation.NonZeroSums` | backend/app/main.py:189-190 | skipping zero rows changes no category sum, sub-category sum or overall sum |
| `Aggregation.Positive` | backend/app/main.py:204-208 | every category kept has a positive total |
| `Aggregation.PositiveGet` | backend/app/main.py:204-208 | a category is kept exactly when its total is positive, with its value unchanged |
| `Aggregation.PositiveGrandTotal` | backend/app/main.py:204-208 | with no negative total, dropping the non-positive categories keeps the grand total |
| `Aggregation.Dashboard` | backend/app/main.py:183-208 | the loop yields the filtered fold and `total_estate` = the sum of all balances; every returned total is positive and equals its category's sum; sub-category values equal their pair sums |
| `Aggregation.DashboardStep` | backend/app/main.py:183-202 | one loop iteration adds a non-zero row to the summary and to `total_estate`, and skips a zero row |
| `Aggregation.DashboardShape` | backend/app/main.py:183-208 | the returned summary has distinct keys, positive totals equal to the category sums, and sub-category values equal to the pair sums |
| `Aggregation.EstateMatchesShownTotals` | backend/app/main.py:190-208 | when no category total is negative, the returned totals add up to `total_estate` |
| `Aggregation.PositiveRaisesGrandTotal` | backend/app/main.py:204-208 | dropping the non-positive categories never lowers the grand total, and raises it when some total is negative |
| `Aggregation.ShownTotalsVersusEstate` | backend/app/main.py:190-208 | the returned totals add up to at least `total_estate`, and to exactly `total_estate` if and only if no category total is negative |
| `Aggregation.EstateCanExceedShownTotals` | backend/app/main.py:190-208 | an example: with rows (−5, Actions) and (10, Épargne) the returned totals add up to 10 while `total_estate` is 5 |
| `Aggregation.CategoryQuery` | backend/app/helpers.py:93-105 | every kept row is of the requested category and has balance > 0 |
| `Aggregation.CategoryQueryKeeps` | backend/app/helpers.py:93-105 | a row is kept exactly when it is one of the user's rows, of the requested category, with balance > 0 |
| `Aggregation.CategoryQueryAppend` | backend/app/helpers.py:93-105 | the query distributes over concatenation: kept rows keep their order and repetitions |
| `Aggregation.HasPositivePairAt` | backend/app/helpers.py:93-105 | a pair has a positive row exactly when some row of that category and sub-category has balance > 0 |
| `Aggregation.QueryPair` | backend/app/helpers.py:93-115 | a pair occurs in the query exactly when the user has a positive row of it, and its query sum is the sum of those positive balances |
| `Aggregation.FoldSubsGet` | backend/app/helpers.py:110-115 | each sub-category holds the sum of its rows: duplicates are summed |
| `Aggregation.FoldSubsShape` | backend/app/helpers.py:107-115 | the values add up to the sum of the balances, keys are distinct, and every value is positive |
| `Aggregation.CategoryData` | backend/app/helpers.py:88-117 | the loop's summary is the fold of the query; the total is the sum of the summary's values; all values are > 0; each sub-category is present exactly when the user has a positive row of it in that category, holding the sum of those positive balances |
| `Aggregation.LegacyDashboard` | main.py:183-203 | with no filtering, each category total is the sum of its sub-categories and of its rows; duplicate pairs are summed |
| `Aggregation.AddToTwice` | backend/main.py:189-193 | adding x and then y under one key is adding x + y |
| `Aggregation.AddHoldingTwice` | backend/main.py:179-193 | two rows of one pair, added in turn, give the summary of one row holding their sum |
| `Aggregation.FoldExtend` | backend/main.py:176-193 | rows that fold alike keep folding alike whatever rows follow |
| `Aggregation.DuplicatesSummed` | backend/main.py:173-193 | wherever two rows of the same pair stand next to each other, the summary equals the one built from a single row holding their sum |
| `Ledger.Failure.Status` | backend/app/main.py:234-281 | the missing user, transaction and portfolio answer 404; every other refusal answers 400 |
| `Ledger.FindUser` | backend/app/models.py:23 | a user with that firebase uid, or None when there is none |
| `Ledger.FindCategory` | backend/app/main.py:275-276 | a catalogue row with that name and sub-category, or None when there is none |
| `Ledger.FindTransaction` | backend/app/main.py:579-582 | a log position with that id owned by the caller, or None when there is none |
| `Ledger.AdjustConsistent` | backend/app/main.py:298-303 | changing one balance by x keeps the invariant exactly when the log sum of that pair alone changes by x |
| `Ledger.LogPreserves` | backend/app/main.py:284-305 | logging a transaction and adding its amount to its pair keeps both invariants |
| `Ledger.RemovePreserves` | backend/app/main.py:600-601 | deleting a transaction and subtracting its amount keeps both invariants |
| `Ledger.DeleteUndoesLog` | backend/app/main.py:600-601 | deleting a just-logged transaction restores the log and the balance |
| `Ledger.OwnedEntryHasRow` | backend/app/main.py:589-597 | under the invariant a logged transaction always has its balance row |
| `Ledger.InvestCheck` | backend/app/main.py:234-281 | each refusal exactly when its check is the first to fail, in the order unknown user (404), not JSON, unparsed amount, amount ≤ 0, missing name, unknown pair; acceptance exactly when all pass, with the amount and the pair's category id |
| `Ledger.InvestAmountFirst` | backend/app/main.py:255-265 | a bad amount is reported whatever the category fields and catalogue hold |
| `Ledger.WithdrawCheck` | backend/app/main.py:350-406 | unknown user (404), then not JSON, then the amount parse, then missing names or amount ≤ 0, then an unknown pair, then a missing row or a smaller balance; accepted exactly when all pass, and only for a known user's JSON request |
| `Ledger.WithdrawWholeBalance` | backend/app/main.py:402-406 | withdrawing exactly the balance of an existing row is accepted |
| `Ledger.DeleteCheck` | backend/app/main.py:557-597 | unknown user (404), then not JSON, then a missing or zero entry_id, then no transaction of that id owned by the caller (404), then a missing row (404); accepted exactly when all pass, at the position of the caller's transaction |
| `Ledger.DeleteCanGoNegative` | backend/app/main.py:600-601 | deleting a deposit after its withdrawal leaves the balance at −10 |
| `Ledger.Lower` | backend/app/main.py:109 | `str.lower` character by character |
| `Ledger.RiskProfileCheck` | backend/app/main.py:100-130 | accepts exactly a non-empty profile whose lowercase form is prudent, équilibré or dynamique, for a known user, and stores that lowercase form; one iff per refusal in source order: a non-JSON body, then an empty profile, then an unknown profile, then an unknown user (404) |
| `Ledger.RiskProfileCapitalised` | backend/app/main.py:109-130 | "Prudent" is accepted and stored as "prudent" |
| `Ledger.RiskProfileAccented` | backend/app/main.py:109-130 | "ÉQUILIBRÉ" is accepted and stored as "équilibré" |
| `Ledger.PerPage` | backend/app/main.py:490-491 | the page size is 10 by default and never above 100 |
| `Ledger.HistoryMeta` | backend/app/main.py:505-542 | an empty page reports page 1, pages 0, total 0, no next and no previous page |
| `Ledger.EmailPrefix` | backend/app/models.py:28 | the part of the email before its first '@' |
| `Ledger.NewUsername` | backend/app/models.py:28 | a truthy name, otherwise the email prefix |
| `Ledger.GetOrCreateUser` | backend/app/models.py:21-33 | an existing uid returns its user and adds nothing; otherwise a new row with risk profile "équilibré"; a failed insert leaves the table unchanged |
| `Ledger.GetOrCreateIdempotent` | backend/app/models.py:23-33 | a second call with the same uid returns the same user and adds no row |
| `Ledger.CascadePreserves` | backend/app/models.py:14-15 | deleting a user's rows and transactions keeps both invariants and leaves that user no balance |
| `Ledger.GetOrCreateKeepsUnique` | backend/app/models.py:20-33 | get-or-create inserts only when no user has the uid, so it keeps the firebase uids of the users table unique (the column is declared unique at models.py:7) |
| `Ledger.UsersWithoutKeepsUnique` | backend/app/models.py:7 | removing a user keeps the other users' uids unique |
| `Ledger.AppendFreshKeepsIds` | backend/app/models.py:53 | logging a transaction whose id exceeds every logged id keeps transaction ids distinct |
| `Ledger.RemoveKeepsIds` | backend/app/main.py:600-601 | deleting one transaction keeps the remaining ids distinct |
| `Ledger.LogWithoutKeepsIds` | backend/app/models.py:14-15 | the cascade that drops a user's transactions keeps the remaining ids distinct |
| `Ledger.FindTransactionOnly` | backend/app/main.py:579-581 | with distinct ids, the row the lookup finds is the only row with that id |
| `Ledger.LogKeepsTables` | backend/app/main.py:284-305 | logging with the next id and adding the amount to its pair keeps every table invariant: balances equal the log sums, logged pairs have rows, ids are fresh and distinct, uids unique |
| `Ledger.RemoveKeepsTables` | backend/app/main.py:598-602 | deleting a transaction and subtracting its amount keeps every table invariant |
| `Ledger.CascadeKeepsTables` | backend/app/main.py:727-739 | removing a user with that user's rows and transactions keeps every table invariant |
| `Ledger.Database.constructor` | backend/app/models.py:42-59 | an empty, consistent database over a catalogue |
| `Ledger.Database.SyncUser` | backend/app/main.py:15-48 | the users table becomes the get-or-create result; nothing else changes |
| `Ledger.Database.UpdateRiskProfile` | backend/app/main.py:98-156 | an accepted profile is stored lowercased on the one user with that uid; a refusal changes nothing |
| `Ledger.Database.Record` | backend/app/main.py:284-305 | logs the transaction with the next id and adds its amount to its pair's balance, creating the row when missing; the ledger invariant holds afterwards |
| `Ledger.Database.Invest` | backend/app/main.py:233-323 | an accepted request logs +amount and raises that pair's balance by amount, creating the row when missing; a refusal changes nothing; the invariant holds |
| `Ledger.Database.Withdraw` | backend/app/main.py:349-437 | an accepted request logs −amount and lowers the balance by amount, keeping it ≥ 0; a refusal changes nothing; the invariant holds |
| `Ledger.Database.DeleteEntry` | backend/app/main.py:555-621 | an accepted request removes the caller's transaction and subtracts its amount from the pair's balance; a refusal changes nothing; the invariant holds |
| `Ledger.Database.DeleteAccount` | backend/app/main.py:727-758 | removes the user with all of that user's rows and transactions; the invariant holds |
| `LegacyHandlers.FirstFailureMeaning` | main.py:59-88 | a check chain passes exactly when every check passes, and otherwise reports a failing check all of whose predecessors pass |
| `LegacyHandlers.SignupCheckMain` | main.py:59-88 | accepts exactly a named, strong, confirmed password for a free username |
| `LegacyHandlers.SignupMainOrder` | main.py:59-88 | reports the first failure of: username, password, strength, confirmation, match, username free |
| `LegacyHandlers.SignupCheckBackend` | backend/main.py:56-83 | accepts the same forms as the main.py copy |
| `LegacyHandlers.SignupBackendOrder` | backend/main.py:56-83 | reports the first failure of: password, strength, confirmation, match, username, username free |
| `LegacyHandlers.SignupCopiesAcceptAlike` | backend/main.py:56-83 | the two signup copies accept exactly the same forms |
| `LegacyHandlers.SignupCopiesReportDifferently` | main.py:60-67 | an empty form gets "Username is required" from main.py and "Password is required" from backend/main.py |
| `LegacyHandlers.ChangePasswordCheck` | main.py:118-151 | accepts exactly when all fields are present and match, the new password is strong, the current one is valid and the new differs from it |
| `LegacyHandlers.ChangePasswordOrder` | backend/main.py:113-146 | reports the first failure of: current, new, confirmation, match, strength, current valid, differs |
| `LegacyHandlers.AmountFails` | main.py:221-225 | only a parsed amount passes; unparseable text gives "Invalid amount"; a missing one is an uncaught error, not "Invalid amount" |
| `LegacyHandlers.AddEntryCheckMain` | main.py:221-235 | the amount is judged first; then both names are required with one message; then an unknown pair gives its own message, exactly when the earlier checks pass |
| `LegacyHandlers.AddEntryCheckBackend` | backend/main.py:210-231 | the amount first, then the category and the sub-category with a message each, then an unknown pair, exactly when the earlier checks pass |
| `LegacyHandlers.AddEntryAcceptsAnySign` | main.py:221-235 | neither copy refuses a zero or negative amount |
| `CategoryOrder.Rank` | frontend/src/components/elements/dashboard/DashTable.jsx:29-41 | the rank is never above 4, the length of [Épargne, Immobilier, Actions, Autres] |
| `CategoryOrder.RankMeaning` | frontend/src/components/elements/dashboard/DashTable.jsx:29-41 | a listed name ranks at its position in the list; every unlisted name ranks 4, after all listed ones |
| `CategoryOrder.SortPermutes` | frontend/src/components/elements/dashboard/DashTable.jsx:32-43 | the sort adds and drops nothing: a permutation of the entries |
| `CategoryOrder.SortOrdered` | frontend/src/components/elements/dashboard/DashTable.jsx:32-43 | ranks never decrease along the sorted entries |
| `CategoryOrder.SortStable` | frontend/src/components/elements/dashboard/DashTable.jsx:38-41 | entries of equal rank keep their input order, in particular all unlisted categories |
| `CategoryOrder.PreferenceRespected` | frontend/src/components/elements/dashboard/DashTable.jsx:29-43 | listed categories come in list order, and no unlisted category precedes a listed one |
| `CategoryOrder.SortKeepsSum` | frontend/src/components/elements/dashboard/DashGraph.jsx:12-31 | any sum over the values is unchanged by the sort |
| `CategoryOrder.SortKeepsKeys` | frontend/src/components/elements/dashboard/DashGraph.jsx:21-36 | each category name occurs as often after the sort as before |
| `Views.Gate` | frontend/src/components/elements/dashboard/DashTable.jsx:4-26 | a zero total shows the empty state even while loading; then loading; then the content |
| `DashTable.CategoryRows` | frontend/src/components/elements/dashboard/DashTable.jsx:74-108 | one row per sub-category; the category cell only on the first row, spanning all of them |
| `DashTable.TableRowCount` | frontend/src/components/elements/dashboard/DashTable.jsx:73-109 | the body has one row per sub-category of every category |
| `DashTable.SpansCoverRows` | frontend/src/components/elements/dashboard/DashTable.jsx:82-96 | the cells' row spans add up to the number of rows, with one cell per category that has rows, in order |
| `DashTable.TableOf` | frontend/src/components/elements/dashboard/DashTable.jsx:117 | the footer counts the summary's categories; the rows number the summary's sub-categories |
| `DashTable.Render` | frontend/src/components/elements/dashboard/DashTable.jsx:4-26 | a zero total shows the empty state even while loading |
| `DashGraph.TotalIsSum` | frontend/src/components/elements/dashboard/DashGraph.jsx:12-15 | `totalPortfolio` is the sum of all category totals |
| `DashGraph.Items` | frontend/src/components/elements/dashboard/DashGraph.jsx:32-36 | one item per entry, with name = key and value = total_balance |
| `DashGraph.ChartOnePerCategory` | frontend/src/components/elements/dashboard/DashGraph.jsx:21-36 | `chartData` names each category of the summary exactly as often as the summary does |
| `DashGraph.ChartSumIsTotal` | frontend/src/components/elements/dashboard/DashGraph.jsx:12-36 | the chart values add up to `totalPortfolio` |
| `DashGraph.ChartOrdered` | frontend/src/components/elements/dashboard/DashGraph.jsx:18-31 | the chart follows the preference order |
| `DashGraph.Legend` | frontend/src/components/elements/dashboard/DashGraph.jsx:117-127 | one legend line per chart item, in chart order; only the first four have a colour |
| `DashGraph.Render` | frontend/src/components/elements/dashboard/DashGraph.jsx:87-97 | loading shows the loading state; otherwise one legend line per category and values adding up to the total |
| `CategoryGraph.ChartData` | frontend/src/components/elements/categories/CategoryGraph.jsx:44-54 | one item per sub-category carrying its amount; the values add up to `totalCategory` |
| `CategoryGraph.SortDescOrdered` | frontend/src/components/elements/categories/CategoryGraph.jsx:57 | the sorted values never increase |
| `CategoryGraph.SortDescPermutes` | frontend/src/components/elements/categories/CategoryGraph.jsx:57 | the sort is a permutation |
| `CategoryGraph.SortDescStable` | frontend/src/components/elements/categories/CategoryGraph.jsx:57 | items of equal value keep their order |
| `CategoryGraph.SortDescSum` | frontend/src/components/elements/categories/CategoryGraph.jsx:50-57 | the sum of the values is unchanged by the sort |
| `CategoryGraph.InsertItem` | frontend/src/components/elements/categories/CategoryGraph.jsx:57 | one pass of the in-place sort inserts the next item into the sorted prefix |
| `CategoryGraph.SortChartData` | frontend/src/components/elements/categories/CategoryGraph.jsx:57 | the array, sorted in place, holds the descending stable sort of its old contents |
| `CategoryGraph.ChartOf` | frontend/src/components/elements/categories/CategoryGraph.jsx:44-80 | the chart total, the sorted items, and min(item count, 10) palette colours in palette order |
| `CategoryGraph.Render` | frontend/src/components/elements/categories/CategoryGraph.jsx:19-41 | a zero total shows the empty state before the loading check |
| `CategoryGraph.ChartProperties` | frontend/src/components/elements/categories/CategoryGraph.jsx:44-57 | the chart is non-increasing, a permutation of the items, and sums to `totalCategory` |
| `TransactionForms.ParseInt` | frontend/src/components/elements/TransactionForm.jsx:147 | `parseInt` gives a number exactly when the text has leading digits |
| `TransactionForms.NoErrorsIff` | frontend/src/components/elements/TransactionForm.jsx:96-132 | no error exactly when the amount is positive and whole, both choices are made, and a withdrawal is within the balance |
| `TransactionForms.ChoiceErrors` | frontend/src/components/elements/TransactionForm.jsx:108-114 | the category and account errors are set exactly when those fields are empty, whatever the amount |
| `TransactionForms.FractionOverridesInvalid` | frontend/src/components/elements/TransactionForm.jsx:99-106 | a fractional amount reports the whole-number message, even when it is not positive either |
| `TransactionForms.DepositHasNoBalanceCheck` | frontend/src/components/elements/TransactionForm.jsx:117-118 | a deposit never gets the insufficient-balance error |
| `TransactionForms.FullBalancePasses` | frontend/src/components/elements/TransactionForm.jsx:123-128 | withdrawing exactly the available balance passes |
| `TransactionForms.UnknownKeyHasNoBalance` | frontend/src/components/elements/TransactionForm.jsx:123-128 | an unknown "category-account" key counts as 0, so any positive withdrawal from it is refused |
| `TransactionForms.ExponentAmountTruncated` | frontend/src/components/elements/TransactionForm.jsx:104-147 | "1e3" validates as 1000 while `parseInt` sends 1 |
| `TransactionForms.SubmittedAmountIsValidated` | frontend/src/components/elements/TransactionForm.jsx:134-148 | the amount sent after validation passes is the validated number: positive, whole and within the balance |
| `TransactionForms.PlainNumeralsAgree` | frontend/src/components/elements/TransactionForm.jsx:147 | for plain decimal text, `parseInt` and the validated number agree |
| `TransactionForms.OptionsOf` | frontend/src/components/elements/TransactionForm.jsx:85-87 | exactly the options of the chosen category |
| `TransactionForms.OptionsOfAppend` | frontend/src/components/elements/TransactionForm.jsx:85-87 | the filter distributes over concatenation, so the accounts keep the order and repetitions of the category list |
| `TransactionForms.UniqueMeaning` | frontend/src/components/elements/TransactionForm.jsx:152-154 | each name once, every name present, in order of first appearance |
| `TransactionForms.UniqueCategoriesMeaning` | frontend/src/components/elements/TransactionForm.jsx:152-154 | the category choices list each category name once, in order of first appearance |
| `TransactionForms.CurrentBalance` | frontend/src/components/elements/TransactionForm.jsx:155-158 | shown exactly when both choices are made and the key is known; it is the balance the withdrawal check uses |
| `TransactionForms.TransactionForm.constructor` | frontend/src/components/elements/TransactionForm.jsx:10-19 | empty form, no errors, empty lists |
| `TransactionForms.TransactionForm.Mount` | frontend/src/components/elements/TransactionForm.jsx:22-27 | loads the categories, and the balances only for a withdrawal |
| `TransactionForms.TransactionForm.HandleChange` | frontend/src/components/elements/TransactionForm.jsx:68-94 | stores the value and clears only that field's error; a category change resets the account and restricts the accounts to that category |
| `TransactionForms.TransactionForm.ValidateForm` | frontend/src/components/elements/TransactionForm.jsx:96-132 | the step-by-step error dictionary equals the priority specification |
| `TransactionForms.TransactionForm.HandleSubmit` | frontend/src/components/elements/TransactionForm.jsx:134-149 | with errors, shows them and sends nothing; without, leaves the errors as they were and sends the choices with `parseInt` of the amount text (None for `NaN`), which for plain decimal text is the validated number |
| `TransactionForms.TransactionForm.HandleSubmitIntended` | frontend/src/components/elements/TransactionForm.jsx:134-149 | the corrected submit: the amount sent is the validated number, positive, whole and, for a withdrawal, within the available balance |

## Left out

- Floating point is not modelled. Server amounts are `int`, and an amount `float()` cannot parse is `None`. Fractional requests, `.0f` rounding in `eur`/`usd`, chart percentages and `toFixed` labels, `percentage()` and `encryption_utils.py` are out.
- `TransactionForms.Value`: the form's number is an exact real. Double rounding and overflow, where "1e400" would become Infinity, are out.
- The identity provider (`auth.verify_id_token`) and password hashing are parameters, not code. So are Firebase calls in the pages.
- Flask routing, `jsonify`, SQLAlchemy sessions, commits and rollbacks, and `paginate` are out. Each handler is one atomic step. `view_history` is modelled by its page-size clamp and its empty-page answer. The paginator's arithmetic and a negative `per_page` are out.
- The gap between check and write in `withdraw` is a database concurrency concern and is not modelled.
- `get_risk_profile` and the GET branches of `invest` and `withdraw` only read and return data. The `epargne`, `immo` and `autres` routes wrap `get_category_data`, which is modelled. `seed` and the CSV import are configuration.
- `Ledger.LowerChar`: lowercases ASCII and Latin-1 capitals only. Other Unicode case mappings are out, because the whitelist values need only these.
- `formatNumber` and `formatAmount` are library or undefined wrappers. `Views.DisplayTotal` keeps their output as opaque text.
- Chart.js, react-password-checklist, the hover and view-mode toggles, RiskCard, AccountCard, the theme switcher, the page wrappers and the mock frontend files (elements/DashTable.jsx, elements/DashGraph.jsx, pages/History.jsx, pages/Transactions.jsx) are UI or mock code.
- `TransactionForms.TransactionForm.HandleChange`: the source sets a cleared error to ''. The model removes the key. Every reader treats '' and a missing key alike, and a submit replaces the whole dictionary.
- `TransactionForms.TransactionForm.Mount`: the category and balance lists come from the component's fixed mock data. Here they are arguments.
- The legacy history view (main.py:261-275) is out with the other `paginate` calls. It always pages by 10 and reads no page-size argument.
- The frontend members take the category entries in the order they are given. The JSON serialisation's key order and the integer-like-keys-first rule of `Object.entries` are not modelled.
- Auth.FirebaseTokenRequired: the route runs inside the decorator's `try`, so an exception escaping the route is answered 401 "Token verification failed". The model treats the route as a function that always returns.
- Formatting.Eur: `f"{n:,.0f}"` formats through a double. The model is exact, which matches the source only for |n| ≤ 2^53. Beyond that the source rounds, and for huge values it raises OverflowError.
- Formatting.Usd: the same double bound |n| ≤ 2^53 applies to `usd`, and to both round trips.
- The legacy login, logout and delete_entry handlers are out. So are the legacy Portfolios insert and the legacy dashboard's missing `@login_required`, which only changes how a missing session fails.

## Findings

| source | as written | input that shows it | evidently intended | confidence | as-written member | corrected member |
|---|---|---|---|---|---|---|
| backend/app/helpers.py:32-41 | `except auth.InvalidIdTokenError` comes before `except auth.ExpiredIdTokenError`. The identity provider's `ExpiredIdTokenError` subclasses `InvalidIdTokenError`, so the first clause catches expired tokens too | an expired ID token: answered "Invalid token. Please login again." | answer "Token expired. Please login again." | not executed | `Auth.ExpiredMessageUnreachable` | `Auth.FirebaseTokenRequiredIntended` |
| frontend/src/components/elements/TransactionForm.jsx:147 | `handleSubmit` sends `parseInt(formData.amount)`. It reads only the leading digits, while validation judged `parseFloat` of the same text | "1e3" in the number input: valid, whole and positive as 1000, but 1 is sent | send the number that was validated | not executed | `TransactionForms.ExponentAmountTruncated` | `TransactionForms.SubmittedAmountIsValidated` |
