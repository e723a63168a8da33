# FinCo ledger, analytics and dialogs in Dafny

This project models the core of FinCo, a personal-finance dashboard for UPI payments written in React and TypeScript. It covers three parts.

- **The ledger reducer of `App.tsx`.** Each handler (add, delete, pay a bill, add a goal, stake, update income or a budget, send to a peer, move money to or from the vault) is a function from the previous `UserContext` to the next. The level badge and the transaction search are modelled too. The main invariant is reconciliation: `currentBalance − Σ credits + Σ debits` never changes over any run of handlers with fresh ids.
- **The dashboard analytics of `components/Dashboard.tsx`.** These are the category totals and the pie series, total spend, the recurring-charge heuristic and the whole-day due-date difference. Also modelled are the seven-day series, the 70-based health score with its persona and colour, and the budget and goal percentages. Where the source runs a loop (`reduce` into a dictionary, `forEach` into `counts`, the `for` loop of `trendData`, the `let score` updates) the model is a method with a loop. Each such method is proved equal to a specification function, and the properties are proved about that function.
- **The four dialogs that check amounts before they reach the ledger.** These are `SmartGoalModal`, `VaultModal`, `SendMoneyModal` and `AddGoalModal`, each modelled as a class whose fields are the component's state. The `async` handlers are split at each `await`: the synchronous prefix is one method and each continuation is another. A waiting handler keeps the values it captured. All waits of one kind are equally long, so waiting handlers resume oldest first. Callbacks (`onStake`, `onSend`, `onTransfer`, `onAddGoal`, `onClose`) are returned as a sequence of effects in call order.

Representation:
- amounts, balances and tokens are `int`;
- dates are day numbers counted from 1970-01-01, and "now" for `getDaysDiff` is a millisecond timestamp;
- transaction ids (`Date.now()`), today's date and transaction hashes (`Math.random()`) are parameters;
- a number input holds `None` for "" and `Some(n)` for a number;
- JavaScript division, comparison, `Math.round` and `Math.min` are modelled on finite values, ±Infinity and NaN, so a zero income or a zero limit gives what the browser gives.

`seed.dfy` works through the demonstration data of `constants.ts`. With the rent overdue, the health score is 70 + 15 − 20 − 15 = 50, "Balanced Builder". A first 450 expense takes the balance from 24500 to 24050 and the tokens from 250 to 260.

Three Netflix charges of 649, 649 and 650 do not form one group of three: the code rounds 650 up to the bucket 700, so only the two charges of 649 form a group (`Subscriptions.NetflixCharges`). Each reported charge carries the amount and date of the first transaction with its key. Transactions are prepended, so that is the newest one.

## Model

| member | source | states |
|---|---|---|
| Types.CategoryNameInjective | types.ts:6 | distinct categories have distinct names, so a dictionary keyed by category name is keyed by category |
| Ledger.NetPrepend | App.tsx:96 | prepending a transaction adds its signed amount to Σ credits − Σ debits |
| Ledger.FillDefaults | App.tsx:75-86 | every falsy field takes its default ("Unknown", 0, Other, debit, UPI); a hash and "verified" are present exactly when a wallet is connected |
| Ledger.AddTransaction | App.tsx:74-99 | the new transaction is prepended; a debit lowers and a credit raises the balance by its amount; tokens rise by exactly 10; no other field changes; the reconciliation anchor is kept |
| Ledger.FindTx | App.tsx:103 | `None` exactly when no transaction carries the id, otherwise the first one that does |
| Ledger.RemoveId | App.tsx:111 | the kept transactions are exactly those with other ids, each as often as in the ledger and in ledger order; every other id keeps its count |
| Ledger.RemoveAbsentId | App.tsx:111 | filtering out an id nobody carries leaves the ledger unchanged |
| Ledger.DeleteTransaction | App.tsx:101-114 | an unknown id changes nothing; otherwise the first match's balance effect is reversed and every transaction with the id is removed; tokens, bills, goals and vault are untouched |
| Ledger.NetRemoveUnique | App.tsx:103-111 | removing the only transaction with an id removes exactly its signed amount |
| Ledger.DeleteReconciles | App.tsx:101-114 | with at most one transaction per id, delete keeps the balance reconciled with the ledger |
| Ledger.DeleteDuplicateIdBreaksReconciliation | App.tsx:103-111 | with two transactions under one id, `find` reverses one amount but `filter` removes both, and the anchor is off by 450 |
| Ledger.AddThenDelete | App.tsx:74-114 | adding under a fresh id and deleting it again restores balance and ledger; only the 10 tokens remain |
| Ledger.DeleteThenReAdd | App.tsx:74-114 | deleting a transaction and logging the same fields again restores the balance |
| Ledger.FindBill | App.tsx:118 | `None` exactly when no bill has the id, otherwise a bill with that id |
| Ledger.PayBills | App.tsx:143 | same length; bills with the id become paid and every other bill is unchanged |
| Ledger.FindAfterPay | App.tsx:118-143 | after paying, the bill found under the id is the one found before, now paid |
| Ledger.MarkBillPaid | App.tsx:116-148 | a missing or paid bill changes nothing; otherwise the balance drops by the bill's amount, its bills are marked paid, tokens rise by 50, and the prepended debit is exactly a Bills/UPI debit of the bill's name and amount, dated today, with a hash and "verified" exactly when a wallet is connected |
| Ledger.MarkBillPaidIdempotent | App.tsx:116-148 | paying the same bill a second time changes nothing, whatever id and hash the second call draws |
| Ledger.AddGoal | App.tsx:150-155 | the goal is appended as given and nothing else changes |
| Ledger.StakeGoals | App.tsx:183 | only goals with the id gain the amount, and the others are unchanged |
| Ledger.StakeToGoal | App.tsx:157-186 | the balance drops by the amount; the goals are updated as by `StakeGoals`; one Transfer/Crypto debit with a hash is prepended; tokens rise by ⌊amount/100⌋ |
| Ledger.StakeToMissingGoalStillDebits | App.tsx:157-186 | staking to an id no goal carries leaves the goals unchanged but still debits the wallet |
| Ledger.UpdateIncome | App.tsx:188-196 | an unparsable answer changes nothing; otherwise only `monthlyIncome` is replaced |
| Ledger.UpdateBudget | App.tsx:198-210 | only the entry of the named category is set; every other entry and field is unchanged |
| Ledger.P2PTransfer | App.tsx:212-237 | the balance drops by the amount; "Transfer to {recipient}" is prepended as a Transfer/Crypto debit; tokens rise by 25 |
| Ledger.VaultTransfer | App.tsx:239-272 | wallet + vault is constant; a deposit is a debit and a withdrawal a credit; tokens are unchanged |
| Ledger.VaultRoundTrip | App.tsx:239-272 | depositing and withdrawing the same amount restores both balances |
| Ledger.ApplyReconciles | App.tsx:74-272 | every handler with a fresh id keeps ids unique and the reconciliation anchor unchanged |
| Ledger.RunReconciles | App.tsx:74-272 | over any run of handlers with fresh ids, ids stay unique and the anchor is unchanged |
| Rewards.Progress | App.tsx:46 | the progress bar value differs from the tokens by a multiple of 100 and lies in [0, 100) for non-negative tokens, (−100, 0] for negative ones |
| Rewards.LevelAndProgressRecoverTokens | App.tsx:45-46 | for non-negative tokens, (level − 1)·100 + progress equals the tokens, and the level is at least 1 |
| Rewards.TitleByTokens | App.tsx:45-53 | the titles in terms of tokens: ≥ 900 "Crypto King", ≥ 400 "DeFi Degen", ≥ 200 "Smart Saver", else "Novice" |
| Rewards.LevelMonotone | App.tsx:45 | more tokens never give a lower level |
| Rewards.ApplyKeepsTokens | App.tsx:74-272 | no handler takes tokens away unless it is a negative stake |
| Rewards.RunNeverLowersLevel | App.tsx:74-272 | over any run without negative stakes, tokens and level never fall |
| Search.FilterTransactions | App.tsx:307-310 | the matching transactions (merchant or category contains the term, case-insensitive within the ASCII letters), each as often as in the ledger, in ledger order |
| Search.EmptyTermKeepsAll | App.tsx:307-310 | an empty search shows every transaction |
| Search.SearchIgnoresCase | App.tsx:307-310 | the search term's case does not matter |
| Text.ToLower | App.tsx:308 | the same length, every ASCII capital lower-cased and every other character kept |
| Text.ToLowerIdempotent | App.tsx:308-309 | lower-casing twice is lower-casing once |
| Text.ContainsIffOccurs | App.tsx:308-309 | `includes` holds exactly when the term occurs at some offset |
| Text.ContainsEmpty | App.tsx:308 | the empty string is included in every string |
| Text.BeforeDash | components/Dashboard.tsx:76 | `split('-')[0]` is the longest prefix without '-', followed by a '-' when shorter than the string |
| Text.BeforeDashIgnoresTail | components/Dashboard.tsx:68-76 | whatever follows a '-' appended to the merchant does not change the reported name |
| Text.BeforeDashNoDash | components/Dashboard.tsx:76 | a merchant without '-' is reported in full |
| Text.NatToString | components/Dashboard.tsx:68 | the decimal text of a bucket is a non-empty string of digits |
| Text.NatToStringRoundTrip | components/Dashboard.tsx:68 | reading the decimal text back gives the number |
| Text.IntToString | components/Dashboard.tsx:68 | a negative number's text starts with its only '-'; a non-negative one has none |
| Text.IntToStringInjective | components/Dashboard.tsx:68 | distinct non-negative buckets have distinct texts |
| Text.LastDash | components/Dashboard.tsx:68 | in `merchant-bucket` with a non-negative bucket, the separator is the last '-' |
| Text.SplitAtLastDash | components/Dashboard.tsx:68 | two such keys are equal only when merchant and bucket text are equal |
| Spending.CategorySpend | components/Dashboard.tsx:43-48 | the reduce loop yields the dictionary of the specification fold |
| Spending.SpendFoldMeaning | components/Dashboard.tsx:43-48 | keys are distinct; a category is a key exactly when it has a debit; its value is that category's debit total, and credits are ignored |
| Spending.NoDebitNoTotal | components/Dashboard.tsx:44-46 | a category without debits totals 0 |
| Spending.SpendSumsToTotal | components/Dashboard.tsx:43-57 | the dictionary's values sum to `totalSpent` |
| Spending.SumAddTo | components/Dashboard.tsx:46 | one write `acc[key] = (acc[key] \|\| 0) + amount` raises the sum of the values by the amount |
| Spending.Entries | components/Dashboard.tsx:50-52 | one slice per key, in key order, with its value |
| Spending.Insert | components/Dashboard.tsx:53 | insertion adds exactly the new slice (as a multiset) |
| Spending.InsertSorted | components/Dashboard.tsx:53 | insertion into a non-increasing series keeps it non-increasing |
| Spending.SortDesc | components/Dashboard.tsx:53 | the sort is a permutation of its input and is non-increasing by value |
| Spending.InsertSum | components/Dashboard.tsx:53 | insertion adds the slice's value to the sum |
| Spending.SortSum | components/Dashboard.tsx:53 | sorting keeps the sum |
| Spending.EntriesSum | components/Dashboard.tsx:50-52 | the slices sum to the dictionary's values |
| Spending.PieDataMeaning | components/Dashboard.tsx:43-53 | `pieData` is sorted largest first, with one slice per category; a slice is in it exactly when its category has a debit and its value is that total |
| Spending.PieDataSumsToTotal | components/Dashboard.tsx:43-57 | the slices of `pieData` add up to `totalSpent` |
| Subscriptions.Bucket | components/Dashboard.tsx:68 | `Math.round(amount/100)*100` is the multiple of 100 within [−50, 50) of the amount (half rounds up) |
| Subscriptions.TallyFold | components/Dashboard.tsx:63-71 | every key listed in `counts` has an entry |
| Subscriptions.Subscriptions | components/Dashboard.tsx:63-80 | the forEach-and-filter method yields the specification function's report |
| Subscriptions.NoKeyBefore | components/Dashboard.tsx:65-71 | a key with no count has no candidate transaction |
| Subscriptions.TallyKeys | components/Dashboard.tsx:64-71 | `counts` holds each key once, and its keys are exactly those listed |
| Subscriptions.TallyCounts | components/Dashboard.tsx:65-71 | a key is present exactly when some non-Transfer debit has it, and its count is the number of those |
| Subscriptions.TallyFirst | components/Dashboard.tsx:69 | each entry keeps the amount and date of the first transaction with its key |
| Subscriptions.TallyFirstStep | components/Dashboard.tsx:67-70 | one forEach step keeps the first transaction's amount and date |
| Subscriptions.ReportMeaning | components/Dashboard.tsx:73-79 | the report holds exactly the keys counted more than once, with their name, amount and date |
| Subscriptions.RecurringChargesMeaning | components/Dashboard.tsx:63-80 | a charge is reported exactly when it is the first candidate of a key held by at least two candidates |
| Subscriptions.RecurringChargesInOrder | components/Dashboard.tsx:63-80 | the report is exactly the charges of those first candidates taken in transaction order, so each recurring key is reported once, in the order `Object.entries` lists the keys |
| Subscriptions.KeyInjective | components/Dashboard.tsx:68 | for amounts from −50 up, two candidates share a key exactly when merchant and bucket agree |
| Subscriptions.NegativeBucketsCollide | components/Dashboard.tsx:68 | below −50 the bucket's '-' merges with the separator: "A" with −100 and "A-" with 100 share the key "A--100" |
| Subscriptions.BucketTexts | components/Dashboard.tsx:68 | the buckets 600 and 700 print as "600" and "700" |
| Subscriptions.NetflixTally | components/Dashboard.tsx:63-71 | 649, 649 and 650 from Netflix make the keys "Netflix-600" (twice) and "Netflix-700" (once) |
| Subscriptions.NetflixCounts | components/Dashboard.tsx:68-70 | those keys count 2 and 1, not 3 |
| Subscriptions.ReportFirstOfTwo | components/Dashboard.tsx:73-79 | of two keys, only the one counted more than once is reported |
| Subscriptions.NetflixName | components/Dashboard.tsx:76 | "Netflix-600" reports the name "Netflix" |
| Subscriptions.NetflixCharges | components/Dashboard.tsx:63-80 | the three Netflix charges report one subscription of 649 dated at the first |
| Calendar.Midnight | components/Dashboard.tsx:85-86 | `setHours(0,0,0,0)` gives the start of the timestamp's day |
| Calendar.DaysDiff | components/Dashboard.tsx:82-89 | `getDaysDiff` is exactly the due day minus today's day |
| Calendar.MidnightOfDay | components/Dashboard.tsx:85 | the midnight of a day's start is itself |
| Calendar.MidnightIsDayStart | components/Dashboard.tsx:86 | the midnight of a timestamp is its day times the day length |
| Calendar.RoundExact | components/Dashboard.tsx:88 | rounding a whole number of days gives that number |
| Calendar.OverdueIffBeforeToday | components/Dashboard.tsx:82-89 | the difference is negative exactly when the due day is before today, and zero exactly when it is today |
| Calendar.TimeOfDayIrrelevant | components/Dashboard.tsx:82-89 | the result does not depend on the time of day |
| Calendar.DayOfWithinDay | components/Dashboard.tsx:85-86 | any time within a day falls on that day |
| Trend.TrendData | components/Dashboard.tsx:91-107 | exactly 7 points, oldest first, ending today, each with that day's debit total |
| Trend.NoDebitsNoSpend | components/Dashboard.tsx:98-100 | a day without debits shows 0 |
| Trend.RangeSpendExtend | components/Dashboard.tsx:98-100 | widening a range by one day adds that day's spend |
| Trend.SeriesSumsToRange | components/Dashboard.tsx:91-107 | the points of consecutive days add up to the range's debit total |
| Trend.EmptyRange | components/Dashboard.tsx:98-100 | an empty range spends 0 |
| Trend.RangeWithinTotal | components/Dashboard.tsx:55-100 | with non-negative amounts, any range's spend lies between 0 and `totalSpent` |
| Trend.WeekWithinTotal | components/Dashboard.tsx:55-107 | with non-negative amounts, the seven points add up to the week's debits, between 0 and `totalSpent` |
| Numbers.Divide | components/Dashboard.tsx:111 | `n / d` is exact for a non-zero divisor and ±Infinity or NaN by the numerator's sign for zero |
| Numbers.Scale | components/Dashboard.tsx:346 | multiplying by a positive constant keeps infinities and NaN |
| Numbers.Round | components/Dashboard.tsx:346 | `Math.round` gives the integer within half of the value (halves up) |
| Numbers.MinWith | components/Dashboard.tsx:346 | `Math.min(c, x)` is at most `c`; +Infinity gives `c`, NaN stays NaN |
| Numbers.RoundDiv | components/Dashboard.tsx:88 | integer `Math.round(n/d)`: 2rd − d ≤ 2n < 2rd + d |
| Percent.Percentage | components/Dashboard.tsx:346 | a finite percentage is a whole number ≤ 100; a zero whole gives 100, −Infinity or NaN by the part's sign |
| Percent.RatioNearRoundDiv | components/Dashboard.tsx:346 | `(part/whole)*100` lies within half of the integer quotient rounded |
| Percent.PercentageByIntegers | components/Dashboard.tsx:346 | for a positive whole, the percentage is min(100, round(100·part/whole)) in integers |
| Percent.BudgetColorThresholds | components/Dashboard.tsx:346-356 | red exactly from 85.5% of the limit, yellow from 50.5%, green below |
| Percent.RoundAtLeast | components/Dashboard.tsx:346 | the rounded quotient reaches k exactly when 2n ≥ (2k − 1)d |
| Percent.BudgetColorMonotone | components/Dashboard.tsx:346-356 | more spending never gives a lower colour |
| Percent.GoalPercentBounds | components/Dashboard.tsx:403 | for a positive target, progress lies in [0, 100] and shows 100 once the target is reached |
| Percent.ZeroTargetGoal | components/Dashboard.tsx:403 | a zero target shows 100 once anything is saved, and NaN while nothing is |
| Budgets.Row | components/Dashboard.tsx:344-356 | a row's spend is `categorySpend[cat] \|\| 0`; its colour is chosen from its percentage |
| Budgets.BudgetRows | components/Dashboard.tsx:344 | exactly one row per budget entry |
| Budgets.RowSpentIsCategoryTotal | components/Dashboard.tsx:345 | read from the fold, a row's spend is the category's debit total, or 0 |
| Budgets.RowColorByTotal | components/Dashboard.tsx:345-356 | for a positive limit, a row's colour by the category total: red from 85.5%, yellow from 50.5% |
| Budgets.ZeroLimitRow | components/Dashboard.tsx:346-356 | a zero limit shows a full red bar once anything is spent, and NaN (green) while nothing is |
| Health.UnpaidBills | components/Dashboard.tsx:59 | the unpaid bills, each as often as in the list and in list order; no paid bill remains |
| Health.InsertBill | components/Dashboard.tsx:60 | insertion adds exactly the new bill (as a multiset) |
| Health.InsertBillSorted | components/Dashboard.tsx:60 | insertion keeps the bills ordered by due date |
| Health.SortByDue | components/Dashboard.tsx:60 | the sort is a permutation ordered by due date |
| Health.NextDueIsEarliest | components/Dashboard.tsx:59-60 | the first sorted bill is unpaid and due no later than any unpaid bill |
| Health.InsertBillTotal | components/Dashboard.tsx:60-118 | insertion adds the bill's amount to the total |
| Health.SortByDueTotal | components/Dashboard.tsx:60-118 | sorting keeps `billsTotal` |
| Health.SavingsDelta | components/Dashboard.tsx:111-114 | for a positive income: +15 when more than a fifth is saved, +5 when more than a tenth, −15 when spending exceeds income; for a negative income every comparison flips; a zero income follows the sign of the spend |
| Health.RatioAbove | components/Dashboard.tsx:112-113 | `n/d > c` exactly when `n > c·d` for a positive divisor, and exactly when `n < c·d` for a negative one |
| Health.RatioBelow | components/Dashboard.tsx:114 | `n/d < c` exactly when `n < c·d` for a positive divisor, and exactly when `n > c·d` for a negative one |
| Health.Clamp | components/Dashboard.tsx:121 | the clamp lies in [0, 100] and keeps a value already there |
| Health.CalculateScore | components/Dashboard.tsx:109-122 | the `let score` method yields the specification score |
| Health.ScoreBounds | components/Dashboard.tsx:109-122 | the unclamped score is always in [20, 100], so the clamp never binds |
| Health.ScoreByBills | components/Dashboard.tsx:59-122 | the score in terms of the bills themselves: −20 when an unpaid bill is due before today, +10 when all are paid, coverage against the unpaid total |
| Health.PayAbsentBill | App.tsx:143 | paying an id no bill has changes no bill |
| Health.PayLowersUnpaidTotal | App.tsx:116-148 | with distinct bill ids, paying an unpaid bill lowers the unpaid total by its amount |
| Health.UnpaidTotalSplit | components/Dashboard.tsx:59 | the unpaid total splits at the first bill |
| Health.PayingKeepsCoverage | App.tsx:116-148 | with distinct bill ids, paying a bill leaves the coverage adjustment as it was |
| Health.ColorMatchesPersona | components/Dashboard.tsx:125-135 | colour and persona change at the same thresholds: "Wealth Wizard" from 80, "Balanced Builder" from 50, "Cashflow Cadet" below |
| StakeDialog.SubmitMatchesGuard | components/SmartGoalModal.tsx:160 | the handler accepts exactly amounts in (0, balance]; the button is enabled exactly for those while no stake is processing |
| StakeDialog.AcceptedStakeKeepsBalance | components/SmartGoalModal.tsx:26 | an accepted stake leaves the balance it was checked against non-negative, and no tokens are lost |
| StakeDialog.DialogProgressCapped | components/SmartGoalModal.tsx:20 | the progress shown never exceeds 100, and is a whole number in [0, 100] for a positive target |
| StakeDialog.SmartGoalModal.constructor | components/SmartGoalModal.tsx:14-16 | the dialog starts empty, idle, without a hash |
| StakeDialog.SmartGoalModal.EnterAmount | components/SmartGoalModal.tsx:76-133 | typing, possible only while the form is shown (not on success), sets the amount unless processing |
| StakeDialog.SmartGoalModal.HandleStake | components/SmartGoalModal.tsx:23-28 | submitting, possible only from idle (the form is hidden on success and its button disabled while processing), starts exactly when the guard accepts: status becomes processing and the stake waits; otherwise nothing changes |
| StakeDialog.SmartGoalModal.ResumeStake | components/SmartGoalModal.tsx:30-37 | sets the hash, calls `onStake(goal.id, amount)` once for the oldest waiting stake and shows success |
| StakeDialog.SmartGoalModal.HandleClose | components/SmartGoalModal.tsx:40-45 | clears the amount and the hash, returns to idle and calls `onClose` |
| StakeDialog.StakeOnce | components/SmartGoalModal.tsx:23-37 | a valid stake calls `onStake` exactly once and ends in success |
| StakeDialog.RejectedStake | components/SmartGoalModal.tsx:25-26 | a rejected amount changes nothing |
| StakeDialog.SuccessHoldsUntilClose | components/SmartGoalModal.tsx:15-45 | once success is shown, every later status is success until a close: no stake can start from it |
| StakeDialog.IdleOnlyByClose | components/SmartGoalModal.tsx:15-45 | a run of submits, confirmations and closes that leaves idle and returns to it contains a close |
| StakeDialog.CloseWhileWaiting | components/SmartGoalModal.tsx:23-45 | closing while a stake waits: the status goes processing, idle, success, and `onStake` still follows `onClose` |
| VaultDialog.TransferButtonGuard | components/VaultModal.tsx:119 | the button is enabled exactly for an accepted amount ≤ `maxAmount` while nothing is processing |
| VaultDialog.HandlerHasNoUpperBound | components/VaultModal.tsx:22 | the handler alone accepts an amount above `maxAmount`; only the button stops it |
| VaultDialog.EnabledTransferKeepsBalances | components/VaultModal.tsx:119 | a transfer the button allows keeps wallet and vault non-negative and their sum constant |
| VaultDialog.VaultModal.constructor | components/VaultModal.tsx:13-15 | the dialog starts on deposit, empty, not processing |
| VaultDialog.VaultModal.SelectTab | components/VaultModal.tsx:70-76 | a tab click selects the tab and clears the amount |
| VaultDialog.VaultModal.EnterAmount | components/VaultModal.tsx:95-96 | typing sets the amount |
| VaultDialog.VaultModal.SetMax | components/VaultModal.tsx:101 | MAX sets the amount to `maxAmount` of the current tab |
| VaultDialog.VaultModal.HandleTransfer | components/VaultModal.tsx:21-24 | starts exactly for a positive amount: processing, and the amount and tab wait |
| VaultDialog.VaultModal.ResumeTransfer | components/VaultModal.tsx:25-30 | calls `onTransfer` with the captured amount and tab, clears the flag and the amount, then calls `onClose` |
| VaultDialog.VaultModal.CloseButton | components/VaultModal.tsx:50 | the header button only calls `onClose` |
| VaultDialog.TransferOnce | components/VaultModal.tsx:21-31 | a valid transfer moves the entered amount on the selected tab once, then closes |
| SendDialog.SendButtonGuard | components/SendMoneyModal.tsx:141 | the button is enabled exactly when idle, with a recipient and an amount ≤ balance; it is disabled whenever the inputs are |
| SendDialog.NegativeSendCredits | components/SendMoneyModal.tsx:141 | a negative amount passes the button, and the ledger then raises the sender's balance and still awards 25 tokens |
| SendDialog.EnabledSendKeepsBalance | components/SendMoneyModal.tsx:141 | a non-negative send the button allows leaves the balance non-negative |
| SendDialog.SendMoneyModal.constructor | components/SendMoneyModal.tsx:12-15 | the dialog starts empty and idle |
| SendDialog.SendMoneyModal.EnterDetails | components/SendMoneyModal.tsx:93-121 | typing works only while the form is shown (not in success), and sets recipient and amount only while idle |
| SendDialog.SendMoneyModal.HandleSend | components/SendMoneyModal.tsx:19-24 | runs only from idle (the form is hidden on success, its inputs and button disabled otherwise); starts exactly with a recipient and an amount: status scanning, and the details wait; otherwise the status stays |
| SendDialog.SendMoneyModal.ResumeScan | components/SendMoneyModal.tsx:24-26 | the oldest scanning send moves on to confirming |
| SendDialog.SendMoneyModal.ResumeConfirm | components/SendMoneyModal.tsx:27-34 | sets the hash, calls `onSend(recipient, amount)` once and shows success |
| SendDialog.SendMoneyModal.HandleClose | components/SendMoneyModal.tsx:37-42 | clears recipient and amount and returns to idle; the hash is kept |
| SendDialog.SuccessHoldsUntilClose | components/SendMoneyModal.tsx:19-42 | once success is shown no new send starts; success lasts until a close or until a send started before an earlier close finishes scanning |
| SendDialog.IdleOnlyByClose | components/SendMoneyModal.tsx:19-42 | a run that leaves idle and returns to idle contains a close |
| SendDialog.SendOnce | components/SendMoneyModal.tsx:19-35 | from the idle form, a send goes idle → scanning → confirming → success and calls `onSend` exactly once with the entered details |
| SendDialog.SendAcrossClose | components/SendMoneyModal.tsx:19-42 | a send started before a close still completes: closed while it confirms, with a second send started 1.5 s to 2.5 s after the first, the status goes scanning, confirming, idle, scanning, success and back to confirming, and `onSend` follows `onClose` |
| GoalForm.FormGoal | components/AddGoalModal.tsx:23-29 | the goal carries the entered fields, a blank saved amount reads as 0, and there is no contract address or yield |
| GoalForm.FormGoalProgress | components/AddGoalModal.tsx:23-29 | a goal from a positive target and a non-negative saved amount shows progress in [0, 100] |
| GoalForm.ZeroTargetAccepted | components/AddGoalModal.tsx:21 | nothing requires a positive target: 0 is accepted, and the goal then shows 100% once anything is saved |
| GoalForm.AddGoalModal.constructor | components/AddGoalModal.tsx:12-15 | the form starts empty |
| GoalForm.AddGoalModal.EnterFields | components/AddGoalModal.tsx:60-105 | typing sets the four fields |
| GoalForm.AddGoalModal.HandleSubmit | components/AddGoalModal.tsx:19-38 | an incomplete form does nothing; a complete one calls `onAddGoal` once, then `onClose`, and empties all four fields |
| GoalForm.SubmitToLedger | components/AddGoalModal.tsx:19-38 | a submitted goal is appended to the ledger's goals and nothing else changes |
| Seed.SeedTotalSpent | constants.ts:16-31 | the seed's debits add up to 29234 |
| Seed.SeedFoodTotal | constants.ts:16-31 | food debits total 4200 |
| Seed.SeedTransportTotal | constants.ts:16-31 | transport debits total 405 |
| Seed.SeedShoppingTotal | constants.ts:16-31 | shopping debits total 6580 |
| Seed.SeedEntertainmentTotal | constants.ts:16-31 | entertainment debits total 649 |
| Seed.SeedBillsTotal | constants.ts:16-31 | bill debits total 17400 |
| Seed.SeedCategoryTotals | constants.ts:16-31 | the five category totals together |
| Seed.SeedUnpaid | constants.ts:32-36 | the unpaid bills come to 37999 |
| Seed.SeedNothingOverdue | constants.ts:32-36 | before 2023-11-02 no bill is overdue, and none is paid |
| Seed.SeedScoreOverdue | constants.ts:3-36 | once the rent is overdue the score is 50, "Balanced Builder" |
| Seed.SeedScoreBeforeDue | constants.ts:3-36 | before any bill is due the score is 70 |
| Seed.SeedBudgetColors | constants.ts:9-31 | food yellow, bills and shopping red, transport and entertainment green |
| Seed.SeedGoalProgress | constants.ts:37-56 | the two goals show 30% and 40% |
| Seed.SeedFirstExpense | constants.ts:3-8 | a first 450 expense leaves 24050 and 260 tokens, level 3 "Smart Saver", with no hash |

## Left out

- The Gemini service, the analysis and smart-transaction dialogs, CSV export, rendering, icons, charts and weekday labels: they are calls into code not visible here, or display.
- The wallet-connect toggle with its `confirm` prompt is left out. The wallet address is an input of the ledger functions.
- `prompt` and `parseFloat` are left out. Income and budget updates take the parsed answer as `Option<int>`, with `None` for an answer that is empty or not a number.
- Fractional amounts and floating-point rounding are not modelled. Amounts are integers, and ratios are exact reals with JavaScript's infinities and NaN. The vault yield and the APY estimate (`estimatedYield`) are left out.
- Timers (`setTimeout`) are not modelled as time. Each `await` is a point where the caller may run a continuation method.
- Time zones are not modelled. Dates are day numbers, and `toISOString` and `setHours` are assumed to agree on the day.
- JavaScript's −0 is not modelled. For instance, `Math.round(-0.4)` prints as "0", as the model also gives.
- Ledger.AddTransaction: the source reads the wallet from the state of the render that created the handler. The model reads it from the state being updated, so the two agree whenever no other update is pending.
- Ledger.MarkBillPaid: the wallet is read from the state being updated, as for `AddTransaction`.
- Budgets.BudgetRows: the rows are a set, so the display order of `Object.entries` is not stated.
- Spending.PieDataMeaning: the sort places equal values in input order, as the stable JavaScript sort does, but that order is not stated as a property.
- Health.PayingKeepsCoverage: it assumes distinct bill ids. With duplicate ids, every bill with the id is marked paid while only the first one is debited.
- Ledger.DeleteReconciles: it assumes at most one transaction per id. `Ledger.DeleteDuplicateIdBreaksReconciliation` shows what happens otherwise.
- StakeDialog.SmartGoalModal.EnterAmount, SendDialog.SendMoneyModal.EnterDetails: a disabled input ignores typing. The model performs that check inside the method.
- Text.ToLower: lower-cases the ASCII capitals only and keeps the length. JavaScript's `toLowerCase` folds all of Unicode ('É' to 'é'), and for some characters ('İ') the result is longer. The search is therefore modelled case-insensitive for ASCII text only, because the model has no Unicode case tables.
