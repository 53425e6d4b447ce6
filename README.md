# A verified model of the finance client's deterministic core

The finance client is a React front end for personal budgeting: transactions, budgets, savings goals, connected bank accounts, settings and sign-up. Most of it renders views and forwards HTTP calls. Scattered through its hooks, one utility module, one service and the page handlers are a number of deterministic rules. This project models those rules in Dafny and proves what the code promises about them.

- **`Js`** (`js.dfy`): the JavaScript semantics the rules lean on.
  - Values, records and falsy `||` chains (`Or`, `NumOr`, `StrOr`, `ValueOr`).
  - `Math.round` as the nearest integer with ties toward +∞ (section 21.3.2.28 of ECMA-262), and `Math.ceil`.
  - `String.prototype.trim` over the white-space set of ECMA-262, and ASCII case mapping.
- **`SavingsGoals`** (`src/hooks/useSavingsGoals.js`): progress, months left, the monthly target, the on-track test, the category colours, `processGoals`, the fallback summary, and `fetchGoals` as a class.
- **`Validation`** (`src/utils/validation.js`): the e-mail pattern, with both directions of its characterisation; `validatePassword` as a loop-free method that pushes messages; password equality; the trimmed-name bounds.
- **`TransactionsService`** (`src/services/transactions.js`): record normalisation, pagination normalisation and `createTransaction`.
- **`TransactionsHook`** (`src/hooks/useTransactions.js`): the filter record, page changes, reset, the pagination defaults, the fallback summary, and `fetchTransactions`.
- **`SettingsHook`** (`src/hooks/useSettings.js`): the profile merge, the optimistic notification and preference updates, account disconnect, photo upload, and `fetchSettings`.
- **Pages.**
  - `BudgetPage`: `src/pages/Budget.jsx`.
  - `TransactionsPage`: `src/pages/TransactionsPage.jsx`.
  - `SavingsGoalsPage`: `src/pages/SavingsGoalsPage.jsx`.
  - `BanksPage`: `src/pages/BanksPage.jsx`.
  - `SignupPage`: `src/pages/SignupPage.jsx`.
  - `SettingsPage`: `src/pages/SettingsPage.jsx`.

  Each page's handlers are methods of a class whose fields are the page's state variables. The pure helpers are functions.

Modelling conventions:
- Every React `useState` variable is a class field, and every setter call is an assignment.
- A service call is not performed. How it settled is a parameter: `Outcome` (resolved with a value, or threw with a message), or `Settled` for `Promise.allSettled`.
- Amounts are integers; divisions are carried out in `real`.
- Timestamps are integers. The date "one calendar year before the deadline" is a parameter `yearBefore` with `yearBefore(d) < d`.
- `parseFloat` is a parameter.
- A dynamic JavaScript object is a `map<string, Value>`, and object spread is map union.

## Model

| member | source | states |
|---|---|---|
| SavingsGoals.CalculateProgress | src/hooks/useSavingsGoals.js:21-24 | 0 for a zero target; never above 100; non-negative for a positive target and non-negative amount; exactly 100 once the amount reaches the target |
| SavingsGoals.ProgressFullThreshold | src/hooks/useSavingsGoals.js:21-24 | for a positive target, progress is 100 exactly when `200·current ≥ 199·target` (rounding lifts 99.5% to 100) |
| SavingsGoals.ProgressOverPositiveTarget | src/hooks/useSavingsGoals.js:23 | the rounded ratio equals the integer quotient `(200·current + target) div (2·target)`, non-negative for non-negative amounts and at least 100 once funded |
| SavingsGoals.ProgressMonotone | src/hooks/useSavingsGoals.js:21-24 | for a fixed positive target, progress never decreases as the saved amount grows |
| SavingsGoals.MonthsLeft | src/hooks/useSavingsGoals.js:32-35 | at least 1, and the least such count of 30-day months covering the time to the deadline |
| SavingsGoals.CalculateMonthlyTarget | src/hooks/useSavingsGoals.js:29-38 | the least monthly amount whose product with the months left covers the remainder; at or below 0 when the goal is already funded (no clamp) |
| SavingsGoals.IsOnTrack | src/hooks/useSavingsGoals.js:43-51 | for a positive target, on track iff `100·current·window ≥ (100·elapsed − 10·window)·target`, the integer form of "actual ≥ expected − 10"; for a zero target, iff the amount is positive (the ±Infinity/NaN comparison) |
| SavingsGoals.OnTrackScaled | src/hooks/useSavingsGoals.js:48-50 | the real-valued comparison of the two percentages is equivalent to its cross-multiplied integer form |
| SavingsGoals.OnTrackBeforeWindow | src/hooks/useSavingsGoals.js:43-51 | before the one-year window opens every goal with a non-negative amount is on track |
| SavingsGoals.OnTrackWhenFunded | src/hooks/useSavingsGoals.js:43-51 | a funded goal is on track at any time up to its deadline |
| SavingsGoals.GetCategoryColorClass | src/hooks/useSavingsGoals.js:56-66 | the six listed categories get their own pair; every other value, missing included, gets the slate pair |
| SavingsGoals.ColorClassDistinct | src/hooks/useSavingsGoals.js:56-66 | the slate pair is returned exactly for unknown categories, and two different known categories never share a pair |
| SavingsGoals.ProcessGoal | src/hooks/useSavingsGoals.js:77-100 | all original fields are kept; a completed goal gets only `progress = 100`; any other goal gets all five derived fields: progress, monthly target and on-track verdict computed from `current ∣∣ 0` and `target ∣∣ 1` (progress in 0..100 for non-negative amounts), and the category's background and bar colours |
| SavingsGoals.ZeroTargetReadAsOne | src/hooks/useSavingsGoals.js:79-97 | a missing or zero target gives every derived field the value a target of 1 gives |
| SavingsGoals.ProcessGoals | src/hooks/useSavingsGoals.js:71-106 | non-array input gives `[]`; otherwise the output has the same length and order, each element the annotated input element with its fields preserved |
| SavingsGoals.WithStatus | src/hooks/useSavingsGoals.js:140-141 | exactly the goals of that status, each as often as in the input, none added |
| SavingsGoals.WithStatusAppend | src/hooks/useSavingsGoals.js:140-141 | filtering distributes over concatenation, so the input order is kept |
| SavingsGoals.TotalCurrent | src/hooks/useSavingsGoals.js:142 | the sum of `currentAmount ∣∣ 0`; its sign is stated in TotalCurrentNonNegative |
| SavingsGoals.TotalProgress | src/hooks/useSavingsGoals.js:145 | the sum of `progress ∣∣ 0`; its bounds are stated in TotalProgressBounds |
| SavingsGoals.RoundedMean | src/hooks/useSavingsGoals.js:143-146 | 0 for no values; otherwise the integer `a` with `(2a−1)·n ≤ 2·total < (2a+1)·n`, the mean rounded half up |
| SavingsGoals.FallbackSummary | src/hooks/useSavingsGoals.js:137-153 | counts are the exact status filters; totalSaved is the active goals' saved sum; averageProgress is 0 with no active goals and otherwise the active goals' mean progress rounded to the nearest integer, halves up |
| SavingsGoals.StatusCountsBounded | src/hooks/useSavingsGoals.js:140-141 | active plus completed counts never exceed the number of goals |
| SavingsGoals.TotalProgressBounds | src/hooks/useSavingsGoals.js:145 | summed progress of goals in 0..100 lies in 0..100·n |
| SavingsGoals.AverageProgressInRange | src/hooks/useSavingsGoals.js:143-146 | the fallback average progress lies in 0..100 when every goal's progress does |
| SavingsGoals.MeanInRange | src/hooks/useSavingsGoals.js:145 | the rounded mean of n values whose sum is in 0..100·n lies in 0..100 |
| SavingsGoals.TotalCurrentNonNegative | src/hooks/useSavingsGoals.js:142 | totalSaved is non-negative when every saved amount is |
| SavingsGoals.GoalsHook.constructor | src/hooks/useSavingsGoals.js:8-16 | initial state: loading, no error, no goals, zero summary |
| SavingsGoals.GoalsHook.FetchGoals | src/hooks/useSavingsGoals.js:111-168 | goals are the processed list when the goals request brought a list and `[]` otherwise; summary is the backend's when present, else the fallback over the raw list; loading ends |
| Validation.EmailPartRange | src/utils/validation.js:11 | a slice matches `[^\s@]+` iff it is non-empty and every character is neither white space nor '@' |
| Validation.IsValidEmail | src/utils/validation.js:10-13 | the pattern: an '@' and a later '.' cut the string into three non-empty runs free of white space and '@'; its plain reading is EmailCharacterisation |
| Validation.PatternGivesShape | src/utils/validation.js:10-13 | a string the pattern accepts has exactly one '@', no white space, a non-empty local part and a '.' inside the domain, at neither end |
| Validation.ShapeGivesPattern | src/utils/validation.js:10-13 | every string of that shape is accepted by the pattern |
| Validation.EmailCharacterisation | src/utils/validation.js:10-13 | `isValidEmail` holds iff the string has the shape above (both directions) |
| Validation.PasswordMessagesDistinct | src/utils/validation.js:23-37 | the four password messages are pairwise different |
| Validation.Piece | src/utils/validation.js:23-37 | one rule contributes its message exactly when it fails, and nothing else |
| Validation.PiecesReport | src/utils/validation.js:20-43 | the assembled list holds each message iff its rule fails, in rule order |
| Validation.InRuleOrderHasNoDuplicates | src/utils/validation.js:20-43 | a list in rule order has no repeated message |
| Validation.ValidatePassword | src/utils/validation.js:20-43 | valid iff no errors; the length, uppercase, lowercase and digit messages are present exactly when `.length` (UTF-16 code units) < 8, no A–Z, no a–z, no 0–9; the list is in rule order |
| Validation.FirstFailedRule | src/utils/validation.js:23-37 | no failed rule iff all four conditions hold, length counted in UTF-16 code units; a short password fails on length first |
| Validation.FirstErrorIsFirstFailedRule | src/pages/SignupPage.jsx:45-48 | for any result meeting `validatePassword`'s contract, validity is "no failed rule" and the first error shown is the first rule that fails |
| Validation.DoPasswordsMatch | src/utils/validation.js:51-53 | true iff the strings are equal |
| Validation.PasswordsMatchIsEquivalence | src/utils/validation.js:51-53 | reflexive, symmetric and transitive |
| Validation.ValidateName | src/utils/validation.js:60-80 | valid iff the trimmed `.length` in UTF-16 code units is in 2..50; valid iff no error; the too-short message wins below 2 and the too-long one above 50 |
| Validation.AstralCharacterIsLongEnoughName | src/utils/validation.js:63 | a single character outside the Basic Multilingual Plane is a long enough name |
| Validation.AstralCharactersFillPassword | src/utils/validation.js:23 | "Aa1" and three characters outside the Basic Multilingual Plane pass every rule, six characters being nine code units |
| Validation.NameIgnoresPadding | src/utils/validation.js:61 | surrounding white space, or trimming first, never changes the result |
| Js.Trim | src/utils/validation.js:61 | the result is a slice of the input with only white space cut from both ends, and starts and ends with non-space |
| Js.TrimIdempotent | src/utils/validation.js:61 | trimming twice is trimming once |
| Js.TrimIgnoresPadding | src/utils/validation.js:61 | padding a string with white space on either side leaves its trim unchanged |
| Js.MathRound | src/hooks/useSavingsGoals.js:23 | the integer within half a unit below-inclusive of x, i.e. round half toward +∞ |
| Js.MathCeil | src/hooks/useSavingsGoals.js:37 | the least integer not below x |
| Js.RoundedQuotientBounds | src/hooks/useSavingsGoals.js:145 | for a positive divisor, `Math.round(n/d)` is the `a` with `(2a−1)·d ≤ 2n < (2a+1)·d` |
| Js.Utf16Length | src/utils/validation.js:23 | `.length` counts UTF-16 code units: between the number of characters and twice that |
| Js.Utf16LengthBmp | src/utils/validation.js:23 | inside the Basic Multilingual Plane the length is the number of characters |
| Js.AstralCountsTwice | src/utils/validation.js:23 | one character outside the Basic Multilingual Plane has length 2 |
| Js.NatToString | src/pages/Budget.jsx:119 | `toString()` of a natural number is a non-empty run of decimal digits |
| Js.IntToString | src/pages/Budget.jsx:119 | non-empty, with a leading '-' exactly for a negative number |
| Js.NatToStringRoundTrip | src/pages/Budget.jsx:119 | the digits read back as the number |
| Js.IntToStringRoundTrip | src/pages/Budget.jsx:119 | the numeral, sign included, reads back as the integer |
| TransactionsService.Normalise | src/services/transactions.js:24-31 | every source field is kept; `_id` is the first truthy of transactionId, _id, id and `id` the first truthy of transactionId, id, _id (both transactionId when present); date, merchant and category prefer their backend names |
| TransactionsService.NormaliseIdempotent | src/services/transactions.js:25-30 | with a truthy identifier, both ids come out truthy and normalising again changes nothing |
| TransactionsService.NormaliseNotIdempotentWithoutIdentifier | src/services/transactions.js:26-27 | with only falsy ids, a second normalisation can change the record |
| TransactionsService.CeilDiv | src/services/transactions.js:37 | the `Math.ceil` of the exact quotient |
| TransactionsService.ResolveTotalPages | src/services/transactions.js:37 | `pagination.totalPages` when truthy, else the ceiling of total over `limit ∣∣ 10` when non-zero, else 1 |
| TransactionsService.GetTransactions | src/services/transactions.js:24-40 | the list is normalised element by element, same length and order, `[]` when missing; currentPage, totalItems and itemsPerPage follow their fallback chains; totalPages as above |
| TransactionsService.TotalPagesAtLeastOne | src/services/transactions.js:37 | with non-negative pagination numbers totalPages is at least 1 |
| TransactionsService.TopLevelTotalPagesIgnored | src/services/transactions.js:37 | the response's top-level totalPages never affects the result |
| TransactionsService.PageNumbersNonZero | src/services/transactions.js:36-39 | currentPage, totalPages and itemsPerPage are never 0 |
| TransactionsService.CreateTransaction | src/services/transactions.js:84-94 | `response.data.transaction ∣∣ response.data`, normalised as in the list |
| TransactionsService.CreateMatchesList | src/services/transactions.js:84-94 | a created record comes out exactly as the same record served in a list |
| TransactionsHook.InitialFilters | src/hooks/useTransactions.js:25-35 | the default keys plus the given ones, each given key overriding its default |
| TransactionsHook.UpdatedFilters | src/hooks/useTransactions.js:95-101 | the given keys overwrite, the others are kept, and page is always 1 |
| TransactionsHook.WithPage | src/hooks/useTransactions.js:106-111 | only page changes |
| TransactionsHook.UpdateAlwaysFirstPage | src/hooks/useTransactions.js:95-101 | a page passed among the new filters, or set beforehand, is discarded for page 1 |
| TransactionsHook.ChangePageRoundTrip | src/hooks/useTransactions.js:106-111 | changing page and back restores the filter record |
| TransactionsHook.PaginationFrom | src/hooks/useTransactions.js:51-56 | each field of the page, or its default 1, 1, 0, 10 when falsy |
| TransactionsHook.PaginationDefaultsRedundant | src/hooks/useTransactions.js:51-56 | on what the service returns, the hook's defaults never apply |
| TransactionsHook.CountKind | src/hooks/useTransactions.js:79-80 | at most the page length, and 0 iff no record has that type |
| TransactionsHook.AmountOf | src/hooks/useTransactions.js:75 | `parseFloat(amount) ∣∣ 0`: the parsed number, or 0 when unparsable |
| TransactionsHook.SumKind | src/hooks/useTransactions.js:73-78 | the filtered sum of `AmountOf`; additive (SumKindAppend), 0 without the type (SumWithoutKind), signed (SumKindNonNegative) |
| TransactionsHook.FallbackSummary | src/hooks/useTransactions.js:71-81 | totalTransactions is totalItems if non-zero else the page length; the counts and sums are those of the records of type exactly 'income' / 'expense' |
| TransactionsHook.KindCountsBounded | src/hooks/useTransactions.js:79-80 | income plus expense counts never exceed the page length |
| TransactionsHook.CountKindAppend | src/hooks/useTransactions.js:79-80 | counting is additive over concatenation |
| TransactionsHook.SumKindAppend | src/hooks/useTransactions.js:73-78 | summing is additive over concatenation |
| TransactionsHook.SumWithoutKind | src/hooks/useTransactions.js:73-78 | a page with no record of a type sums to 0 for it |
| TransactionsHook.SumKindNonNegative | src/hooks/useTransactions.js:73-78 | non-negative amounts give a non-negative sum (unparsable ones count as 0) |
| TransactionsHook.TransactionsState.constructor | src/hooks/useTransactions.js:8-35 | loading, no error, no records, the initial summary and pagination, the merged initial filters |
| TransactionsHook.TransactionsState.UpdateFilters | src/hooks/useTransactions.js:95-101 | filters become `UpdatedFilters`; nothing else changes |
| TransactionsHook.TransactionsState.ChangePage | src/hooks/useTransactions.js:106-111 | filters become `WithPage`; nothing else changes |
| TransactionsHook.TransactionsState.ResetFilters | src/hooks/useTransactions.js:116-127 | filters become the fixed defaults whatever came before; nothing else changes |
| TransactionsHook.TransactionsState.FetchTransactions | src/hooks/useTransactions.js:40-90 | on success the list, the defaulted pagination and the page-computed summary; on failure the message or the fixed text, the rest kept; loading ends; filters untouched |
| SettingsHook.MergedProfile | src/hooks/useSettings.js:63-70 | the six-key profile built key by key from the fetched one; its per-key rule is MergedProfileFields |
| SettingsHook.MergedProfileFields | src/hooks/useSettings.js:63-70 | the merged profile has the six profile keys; each is the fetched value when truthy and the fallback value otherwise |
| SettingsHook.MergeFallsBackEntirely | src/hooks/useSettings.js:63-70 | a response with no truthy field gives the fallback profile, which is a fixed point of the merge |
| SettingsHook.WithoutAccount | src/hooks/useSettings.js:147 | exactly the accounts whose `_id` differs from the id are kept |
| SettingsHook.WithoutAccountAppend | src/hooks/useSettings.js:147 | filtering distributes over concatenation, so order is kept |
| SettingsHook.WithoutAbsentAccount | src/hooks/useSettings.js:147 | an id no account has leaves the list as it is |
| SettingsHook.WithoutAccountIdempotent | src/hooks/useSettings.js:147 | disconnecting the same id twice is disconnecting it once |
| SettingsHook.MergedRecord | src/hooks/useSettings.js:104 | the response's keys overwrite, every other profile key is kept |
| SettingsHook.WithPhoto | src/hooks/useSettings.js:179 | only photoUrl changes |
| SettingsHook.SettingsState.constructor | src/hooks/useSettings.js:39-44 | loading, no error, and the four fallback values |
| SettingsHook.SettingsState.FetchSettings | src/hooks/useSettings.js:49-96 | a fulfilled, non-empty profile gives the merged profile and replaces preferences and notifications only when present; a missing or failed one changes none of them; accounts are replaced only when the response has `accounts`; loading ends |
| SettingsHook.SettingsState.ApplyProfile | src/hooks/useSettings.js:61-81 | the profile branch of the fetch, the accounts left as they are |
| SettingsHook.SettingsState.ApplyAccounts | src/hooks/useSettings.js:84-88 | the accounts branch of the fetch, the profile, preferences and notifications left as they are |
| SettingsHook.SettingsState.UpdateProfile | src/hooks/useSettings.js:101-109 | success merges the response into the profile; failure changes nothing; the reply carries the data or the message |
| SettingsHook.SettingsState.UpdateNotifications | src/hooks/useSettings.js:126-139 | the server's settings on success, the requested settings on failure, and a failure reply |
| SettingsHook.SettingsState.UpdatePreferences | src/hooks/useSettings.js:157-168 | the server's preferences on success, the requested ones on failure |
| SettingsHook.SettingsState.DisconnectAccount | src/hooks/useSettings.js:144-152 | success removes exactly the matching accounts; failure keeps the list |
| SettingsHook.SettingsState.UploadPhoto | src/hooks/useSettings.js:173-184 | success sets the profile's photoUrl to the result's and changes nothing else, and replies with the whole result; failure changes nothing |
| BudgetPage.Percentage | src/pages/Budget.jsx:311 | 0 for a non-positive limit; otherwise the integer nearest `100·spent/limit`, unclamped |
| BudgetPage.PercentageAtLimit | src/pages/Budget.jsx:311 | at least 100 once spending reaches the limit, at most 100 below it, non-negative for non-negative spending |
| BudgetPage.TierOf | src/pages/Budget.jsx:133-143 | over budget iff ≥ 100, near the limit iff in 80..99, on budget iff < 80 |
| BudgetPage.ProgressColor | src/pages/Budget.jsx:133-137 | rose, amber, emerald bar by those thresholds |
| BudgetPage.ProgressTextColor | src/pages/Budget.jsx:139-143 | rose, amber, emerald text by the same thresholds |
| BudgetPage.ColoursFollowTier | src/pages/Budget.jsx:133-143 | two percentages get the same bar colour iff the same text colour iff the same tier |
| BudgetPage.BarWidth | src/pages/Budget.jsx:345 | never above 100; 100 exactly when over budget; the percentage itself up to 100 |
| BudgetPage.SummaryLine | src/pages/Budget.jsx:276-278 | shown iff both totals are non-zero, as the rounded spent-to-budget percentage |
| BudgetPage.SummaryMatchesPercentage | src/pages/Budget.jsx:276-278 | for a positive budget, the summary percentage equals the per-budget formula |
| BudgetPage.RemainingLine | src/pages/Budget.jsx:355-357 | '₹' before a non-negative remainder and '-₹' before a negative one, with the magnitude |
| BudgetPage.RemainingLineRoundTrip | src/pages/Budget.jsx:355-357 | prefix and magnitude read back as the remainder |
| BudgetPage.FormComplete | src/pages/Budget.jsx:54 | both category and limit text are non-empty; the gate of both handlers |
| BudgetPage.EditForm | src/pages/Budget.jsx:117-121 | category and limit text from the budget; period, or 'monthly' when missing or empty |
| BudgetPage.EditFormComplete | src/pages/Budget.jsx:115-123 | a budget with a category opens a form that passes the required-field check |
| BudgetPage.BudgetPageState.constructor | src/pages/Budget.jsx:22-31 | both modals closed, no budget, the empty form, no error, not loading |
| BudgetPage.BudgetPageState.HandleCreateBudget | src/pages/Budget.jsx:48-74 | no call iff category or limit is empty, with the required-fields error; otherwise the category, `parseFloat` of the limit text and the period are sent; success closes and resets, failure shows the error |
| BudgetPage.BudgetPageState.HandleEditBudget | src/pages/Budget.jsx:76-102 | the same gate; the selected budget's id and the same request, the limit parsed, are sent; success closes, deselects and resets |
| BudgetPage.BudgetPageState.OpenEditModal | src/pages/Budget.jsx:115-123 | the budget is selected, its form loaded, the edit modal opened |
| BudgetPage.BudgetPageState.CloseModals | src/pages/Budget.jsx:125-131 | both modals closed, nothing selected, the empty form, no error |
| TransactionsPage.FilterType | src/pages/TransactionsPage.jsx:122-125 | '' for 'All', otherwise the label lower-cased character by character |
| TransactionsPage.FilterLabelsMatchKinds | src/pages/TransactionsPage.jsx:124 | the three buttons give '', 'income' and 'expense' |
| TransactionsPage.PageButtons | src/pages/TransactionsPage.jsx:705-707 | exactly the pages 1..min(totalPages, 5); no buttons (a RangeError) for a negative count |
| TransactionsPage.PagerFor | src/pages/TransactionsPage.jsx:690-724 | the range `(p−1)·k+1` to `min(p·k, n)`; Previous disabled iff on page 1; Next disabled iff on the last page |
| TransactionsPage.PagerRangeBounded | src/pages/TransactionsPage.jsx:690-691 | the range never passes the total and spans at most one page |
| TransactionsPage.ServedPagerHasButtons | src/pages/TransactionsPage.jsx:705-707 | a page from the service always shows a button for page 1 |
| TransactionsPage.Toggle | src/pages/TransactionsPage.jsx:309-311 | closes the menu exactly when that row's menu is open, else opens that row's |
| TransactionsPage.ToggleTwice | src/pages/TransactionsPage.jsx:309-311 | the same row twice from closed is closed; another row moves the menu |
| TransactionsPage.WithType | src/pages/TransactionsPage.jsx:185-188 | type set, category cleared, the other fields kept |
| TransactionsPage.WithCurrency | src/pages/TransactionsPage.jsx:173-176 | currency set, amount cleared, the other fields kept |
| TransactionsPage.CategoryOptions | src/pages/TransactionsPage.jsx:111-113 | the income list for 'income', the expense list for anything else |
| TransactionsPage.CategoryListsDisjoint | src/pages/TransactionsPage.jsx:73-87 | six expense categories, three income ones, none shared |
| TransactionsPage.TypeChangeClearsChoice | src/pages/TransactionsPage.jsx:185-188 | after a type change no offered category is selected |
| TransactionsPage.SubmittedRate | src/pages/TransactionsPage.jsx:210 | the exchange rate for USD, 1 otherwise (same rule at line 266) |
| TransactionsPage.TransactionsPageState.constructor | src/pages/TransactionsPage.jsx:37-54 | 'All', INR, no menu, dropdown closed, the empty expense form dated today |
| TransactionsPage.TransactionsPageState.HandleFilterChange | src/pages/TransactionsPage.jsx:122-125 | remembers the button and updates the hook's filters with the mapped type, page reset to 1; the list, pagination, summary, loading flag and error of the hook and the rest of the page are unchanged |
| TransactionsPage.TransactionsPageState.ToggleActionMenu | src/pages/TransactionsPage.jsx:309-311 | the menu becomes `Toggle` of its old value |
| TransactionsPage.TransactionsPageState.HandleTypeChange | src/pages/TransactionsPage.jsx:185-188 | the form becomes `WithType`, the dropdown closes |
| TransactionsPage.TransactionsPageState.HandleCurrencyChange | src/pages/TransactionsPage.jsx:173-176 | the currency is selected and the form becomes `WithCurrency` |
| SavingsGoalsPage.ActiveGoals | src/pages/SavingsGoalsPage.jsx:195 | each active goal as often as in the list, nothing else |
| SavingsGoalsPage.CompletedGoals | src/pages/SavingsGoalsPage.jsx:196 | each completed goal as often as in the list, nothing else |
| SavingsGoalsPage.GoalPartition | src/pages/SavingsGoalsPage.jsx:195-196 | exact filters on 'active' and 'completed', disjoint, other statuses in neither; together, counted with multiplicity, at most the whole list |
| SavingsGoalsPage.MarkCompleteOffered | src/pages/SavingsGoalsPage.jsx:408 | `progress >= 100`, false when progress is missing; its threshold on amounts is MarkCompleteThreshold |
| SavingsGoalsPage.MarkCompleteThreshold | src/pages/SavingsGoalsPage.jsx:408 | on a goal not completed, "Mark Complete" appears iff the saved amount reaches 99.5% of the target |
| SavingsGoalsPage.CompletedGoalAtFull | src/pages/SavingsGoalsPage.jsx:408 | a completed goal's progress is 100, so the condition holds for it too |
| SavingsGoalsPage.GetCategoryIcon | src/pages/SavingsGoalsPage.jsx:56-70 | the listed category's icon, else Target |
| SavingsGoalsPage.IconsMatchColours | src/pages/SavingsGoalsPage.jsx:56-70 | a specific icon iff a known category iff a non-slate colour pair |
| SavingsGoalsPage.DisplayedProgress | src/pages/SavingsGoalsPage.jsx:357 | the progress, or 0 when missing or 0 |
| SavingsGoalsPage.DisplayedMonthlyTarget | src/pages/SavingsGoalsPage.jsx:395 | the monthly target, or 0 when missing or 0 |
| SavingsGoalsPage.DisplayedProgressInRange | src/pages/SavingsGoalsPage.jsx:357 | an annotated goal with non-negative amounts shows 0..100% |
| SavingsGoalsPage.AddRequest | src/pages/SavingsGoalsPage.jsx:84-88 | the form with the target parsed and an empty current amount sent as 0 |
| SavingsGoalsPage.GoalsPageState.constructor | src/pages/SavingsGoalsPage.jsx:27-42 | modals closed, nothing selected, empty form and contribution fields |
| SavingsGoalsPage.GoalsPageState.HandleCategorySelect | src/pages/SavingsGoalsPage.jsx:77-80 | category selected and copied into the form |
| SavingsGoalsPage.GoalsPageState.HandleAddSubmit | src/pages/SavingsGoalsPage.jsx:82-104 | sends `AddRequest`; success closes the modal and resets form and category, failure changes nothing |
| SavingsGoalsPage.GoalsPageState.HandleContributionClick | src/pages/SavingsGoalsPage.jsx:161-166 | selects the goal and opens the modal with empty amount and note |
| BanksPage.FirstIndexOf | src/pages/BanksPage.jsx:124 | the first position of the character, none iff absent |
| BanksPage.ReplaceFirst | src/pages/BanksPage.jsx:124 | same length; unchanged when the character is absent |
| BanksPage.ReplaceFirstKeepsOthers | src/pages/BanksPage.jsx:124 | every position but the first occurrence is kept |
| BanksPage.ReplaceFirstKeepsLater | src/pages/BanksPage.jsx:124 | later occurrences are not replaced |
| BanksPage.ReplaceFirstRewritesFirst | src/pages/BanksPage.jsx:124 | the first occurrence is replaced |
| BanksPage.Capitalise | src/pages/BanksPage.jsx:124-126 | first character upper-cased, the rest kept |
| BanksPage.FormatAccountType | src/pages/BanksPage.jsx:122-127 | a non-empty subtype gives its capitalised form with the first '_' of the rest made a space; else a truthy type capitalised; else 'Account' |
| BanksPage.SubtypeLabel | src/pages/BanksPage.jsx:123-125 | the subtype label is the upper-cased first character followed by the rest with its first '_' replaced |
| BanksPage.SubtypeLabelKeepsLaterUnderscores | src/pages/BanksPage.jsx:124 | only the first underscore after the first character becomes a space; later ones stay |
| BanksPage.AccountTypeOf | src/pages/BanksPage.jsx:242 | the account's type, or 'depository' when falsy |
| BanksPage.PageLabelFallback | src/pages/BanksPage.jsx:242-265 | on the page an account with neither type nor subtype is labelled "Depository", never "Account" |
| BanksPage.GetAccountIcon | src/pages/BanksPage.jsx:110-120 | credit card for credit or 'credit card'; else landmark for depository, checking or savings; else trending-up for investment; else wallet |
| BanksPage.IconPriority | src/pages/BanksPage.jsx:110-120 | the credit test wins; an account without a type shows the bank icon |
| BanksPage.BalanceOf | src/pages/BanksPage.jsx:136 | `balances.current`, else `balance`, else 0, by truthiness |
| BanksPage.TotalBalance | src/pages/BanksPage.jsx:134-139 | the total of a single account is its balance |
| BanksPage.TotalBalanceAppend | src/pages/BanksPage.jsx:134-139 | 0 for no accounts and additive over concatenation |
| BanksPage.TotalBalanceNonNegative | src/pages/BanksPage.jsx:134-139 | non-negative balances give a non-negative total |
| BanksPage.FormatCurrency | src/pages/BanksPage.jsx:129-132 | 'N/A' exactly for null or undefined, otherwise the rupee amount |
| BanksPage.BalancesAlwaysShown | src/pages/BanksPage.jsx:186 | a balance and the total are always shown as amounts |
| BanksPage.ShowAvailable | src/pages/BanksPage.jsx:272 | the available amount is neither null, undefined nor the balance; its display is AvailableLine |
| BanksPage.AvailableLine | src/pages/BanksPage.jsx:272 | "Available" shows only a defined value different from the balance |
| BanksPage.PluralSuffix | src/pages/BanksPage.jsx:188 | 's' iff the count is not 1 |
| BanksPage.ResolveAccounts | src/pages/BanksPage.jsx:55 | `accounts`, else `data`, else the response itself, else `[]` |
| BanksPage.EmptyAccountsListWins | src/pages/BanksPage.jsx:55 | an empty `accounts` list is kept (arrays are truthy) |
| BanksPage.ShowFetchError | src/pages/BanksPage.jsx:59 | a truthy message holding neither "404" nor "Network"; characterised by FetchErrorSuppressed and FetchErrorShown |
| BanksPage.NoFirstCharNoInclude | src/pages/BanksPage.jsx:59 | a string lacking a substring's first character does not include it |
| BanksPage.FetchErrorSuppressed | src/pages/BanksPage.jsx:59-61 | a message with "404" or "Network" anywhere in it, and a missing or empty one, shows no error |
| BanksPage.FetchErrorShown | src/pages/BanksPage.jsx:59-61 | a non-empty message where neither marker starts at any position shows the error |
| BanksPage.RethrownMessage | src/services/plaid.js:47-55 | `err.message` of what `getBankAccounts` rethrows: the object body's own `message`, and nothing for a text body or no body, whatever the request error says |
| BanksPage.RequestMessageNeverReachesPage | src/services/plaid.js:47-55 | the page sees the `message` of what the service rethrows: none for a network failure or a text body, whatever the request error said, and the body's own message for an object body |
| BanksPage.ServerMessageShown | src/services/plaid.js:53 | a 500 response whose body says "Internal server error" is shown |
| BanksPage.BanksState.constructor | src/pages/BanksPage.jsx:25-32 | no accounts, not loading, no error, dialog closed |
| BanksPage.BanksState.FetchBankAccounts | src/pages/BanksPage.jsx:50-65 | success stores the resolved accounts; failure keeps them and shows the error only when the suppression rule lets it through; loading ends |
| BanksPage.BanksState.HandleRemoveClick | src/pages/BanksPage.jsx:87-90 | the account is chosen and the dialog opened |
| BanksPage.BanksState.HandleRemoveConfirm | src/pages/BanksPage.jsx:92-108 | nothing without a chosen account; otherwise the removal is called with `id ∣∣ _id`; success closes the dialog and forgets the account |
| SignupPage.Edited | src/pages/SignupPage.jsx:92-95 | the named field takes the value (the checkbox its `checked`), every other field unchanged |
| SignupPage.ExpectedErrors | src/pages/SignupPage.jsx:31-58 | each key is set exactly when its check fails; no error at all iff the form is acceptable |
| SignupPage.FormErrors | src/pages/SignupPage.jsx:31-58 | no error iff all five checks pass |
| SignupPage.CollectErrors | src/pages/SignupPage.jsx:31-58 | the key-by-key collection equals `FormErrors`, the password entry being `validatePassword`'s first error |
| SignupPage.ErrorMap | src/pages/SignupPage.jsx:31-58 | only the five keys, each present with a message exactly when set |
| SignupPage.AnyError | src/pages/SignupPage.jsx:61 | some check produced a message; by ErrorMapKeys this is exactly the stored errors object having a key |
| SignupPage.ErrorMapKeys | src/pages/SignupPage.jsx:61 | each key is in the errors object iff its check failed, and the object is empty iff none did |
| SignupPage.ErrorMapShown | src/pages/SignupPage.jsx:61-64 | every stored message is truthy, so every failed check is displayed |
| SignupPage.ExpectedErrorsShown | src/pages/SignupPage.jsx:31-64 | every error the checks produce is displayed |
| SignupPage.Payload | src/pages/SignupPage.jsx:69-73 | exactly name, email and password from the form |
| SignupPage.ClearedErrors | src/pages/SignupPage.jsx:98-103 | as written: clears the entry under the input's name, only when set |
| SignupPage.TermsErrorSurvivesTick | src/pages/SignupPage.jsx:98-103 | as written, ticking the terms box leaves the terms error in place |
| SignupPage.ErrorKey | src/pages/SignupPage.jsx:56-57 | the checkbox's error lives under 'terms', every other input's under its name |
| SignupPage.ClearedErrorsFixed | src/pages/SignupPage.jsx:98-103 | corrected: clears the input's own error key, only when set |
| SignupPage.EditClearsOwnError | src/pages/SignupPage.jsx:98-103 | corrected: editing any input, the checkbox included, leaves no error for it and every other error as it was |
| SignupPage.SignupState.constructor | src/pages/SignupPage.jsx:13-23 | the empty form, no errors, not loading |
| SignupPage.SignupState.HandleSubmit | src/pages/SignupPage.jsx:25-87 | register is called, with `Payload`, iff no check fails; otherwise the errors object is shown and nothing is sent; navigation iff registration succeeds; the failure message or its fallback otherwise |
| SignupPage.RegisterError | src/pages/SignupPage.jsx:75-83 | unchanged after a registration; a failed one shows `result.error` when truthy and 'Registration failed…' otherwise; a throw shows the unexpected-error text; after any failure the text is non-empty |
| SignupPage.SignupState.Register | src/pages/SignupPage.jsx:66-86 | navigates iff registered; the returned error or 'Registration failed…', or the unexpected-error text when it throws; loading ends |
| SignupPage.SignupState.HandleChange | src/pages/SignupPage.jsx:89-104 | the form becomes `Edited` and the input's own error is cleared (`ClearedErrorsFixed`) |
| SettingsPage.ProfileFormOf | src/pages/SettingsPage.jsx:63-73 | the five form fields, each the profile's value when truthy, else '' |
| SettingsPage.ProfileFormFields | src/pages/SettingsPage.jsx:65-71 | a truthy profile field is copied, any other is blank, and photoUrl is not in the form |
| SettingsPage.PasswordGuard | src/pages/SettingsPage.jsx:99-107 | mismatch reported first, then a new password shorter than 8 UTF-16 code units; passes iff equal and at least 8 long |
| SettingsPage.GuardWeakerThanSignupRules | src/pages/SettingsPage.jsx:104 | 'aaaaaaaa' passes here although the sign-up rules reject it |
| SettingsPage.SignupRulesImplyGuard | src/pages/SettingsPage.jsx:104 | every password the sign-up rules accept passes the guard |
| SettingsPage.Toggled | src/pages/SettingsPage.jsx:119 | the key flipped (`!undefined` is true), every other key kept |
| SettingsPage.ToggleTwiceRestores | src/pages/SettingsPage.jsx:119 | flipping a boolean key twice restores the record |
| SettingsPage.SettingsPageState.constructor | src/pages/SettingsPage.jsx:41-60 | blank profile and password forms, the default preferences |
| SettingsPage.SettingsPageState.SyncForms | src/pages/SettingsPage.jsx:63-79 | the profile form from the profile, the preferences form from the preferences |
| SettingsPage.SettingsPageState.HandlePasswordSubmit | src/pages/SettingsPage.jsx:96-116 | `changePassword` is called with the form iff the guard passes; success clears all three fields |
| SettingsPage.SettingsPageState.HandleNotificationToggle | src/pages/SettingsPage.jsx:118-121 | the hook gets the toggled settings and keeps them even when the server fails; nothing else in the hook changes |
| SettingsPage.SettingsPageState.HandleDarkModeToggle | src/pages/SettingsPage.jsx:142-146 | only darkMode flips in the form, and the hook stores the new preferences; nothing else in the page or the hook changes |

## Left out

- Floating point: amounts are integers and divisions are exact reals. `toFixed`, `toLocaleString` and `toLocaleDateString` give formatted text that is not modelled; `RemainingLine` and `FormatCurrency` carry the number instead.
- JavaScript `Date`: timestamps are integers, and "the deadline less one calendar year" is the parameter `yearBefore`. Invalid dates, NaN and month-length effects are not modelled.
- `parseFloat` is a parameter of the members that use it.
- Unicode: white space is the set `trim` and `\s` remove; case mapping and the character classes are ASCII. `.length` counts UTF-16 code units (`Js.Utf16Length`), but `charAt(0)` and `slice(1)` in `Capitalise` cut at the first character rather than the first code unit; for a first character outside the Basic Multilingual Plane both give the same string, since upper-casing leaves it as it is.
- Object keys inherited from `Object.prototype` are not modelled; a key of a record is only what the map holds.
- Service calls: every call into `src/services/*` is replaced by its outcome, as a parameter. The axios wrappers themselves are not part of this model; the one thing the banks page depends on, what `getBankAccounts` rethrows, is `BanksPage.RethrownMessage`.
- Network, the exchange-rate fetch with its `setInterval`, and the USD→INR conversion on the transactions page.
- BanksPage's `syncing` map and `handleSyncAccount`: a stale-closure interleaving.
- BanksPage's `handlePlaidSuccess` and the list re-fetches after a removal, a sync or any create/update/delete. These only call the fetch, which is modelled on its own.
- Alerts, confirm dialogs, navigation targets other than the sign-up redirect, console output, and the intermediate `loading`/`removing` values, which are set and then reset within one handler.
- `catch` branches that only exceptions inside the hooks themselves reach, e.g. the per-goal `try` in `processGoals` and the outer `catch` in `fetchGoals` and `fetchSettings`. The modelled inputs never throw there.
- SavingsGoals.ProcessGoals: a truthy non-array input (an object) is folded into the missing case, since both give `[]`.
- BanksPage.BanksState.FetchBankAccounts: the `Threw` outcome carries `err.message`. For a service failure that is `RethrownMessage`; a null or undefined service response makes `response.accounts` throw a TypeError, whose message is judged by the same rule. The `Falsy` reply stands only for `""`, `0` and `false`, which fall through to `[]`.
- BanksPage.ResolveAccounts: a response object with neither `accounts` nor `data` is stored as it is. It is modelled as `None`, an accounts value that is not a list.
- BudgetPage.BudgetPageState.HandleEditBudget requires the edit modal to be open, because the form submits to it only then (`src/pages/Budget.jsx:397`). Budget limits are integers and the limit text is their decimal form.
- BudgetPage: an undefined `result.error` stored in `formError` is modelled as the string carried by the failure.
- SettingsHook.WithPhoto: an undefined `photoUrl` is modelled as the key being absent.
- SettingsHook.MergedProfile states its per-field rule in the lemma `MergedProfileFields` rather than in its own contract.
- SettingsPage: `handleProfileSubmit`, `handlePreferencesSubmit` and `handleDisconnectAccount` only forward to the hook's modelled operations and then alert.
- SavingsGoalsPage: the edit, delete, contribution-submit and complete handlers forward to the hook's service calls, which are not part of this model. Their resets are those of `HandleAddSubmit` and `HandleContributionClick`.
- SignupPage.SignupForm: the form is a fixed record of its five inputs. `HandleChange` requires the event to come from one of them, and a text input's value is a string.
- SignupPage.SignupState.HandleChange models the corrected clearing (see Findings). The source's behaviour is `ClearedErrors`.
- TransactionsPage: the dropdowns, search box, date and category selection beyond the type rule, and the add/edit/delete submits beyond the submitted exchange rate are view plumbing.

## Findings

| source | as written | input that shows it | evidently intended | confidence | as-written member | corrected member |
|---|---|---|---|---|---|---|
| src/pages/SignupPage.jsx:98-103 | `handleChange` clears `validationErrors[name]`, but the terms checkbox is named `termsAccepted` and its error is stored under `terms` (line 57) | submit with the box unticked (error "You must accept…" set under `terms`), then tick it: the event's name is `termsAccepted`, so the terms error stays on screen | editing an input clears that input's own error, the checkbox included | not executed | SignupPage.TermsErrorSurvivesTick (with SignupPage.ClearedErrors) | SignupPage.EditClearsOwnError (with SignupPage.ClearedErrorsFixed) |
