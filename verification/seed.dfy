/** The demonstration data of constants.ts (`INITIAL_USER_DATA`), with dates
    as day numbers counted from 1970-01-01 (2023-10-25 is day 19655), and
    what the dashboard and the ledger make of it. */
module Seed {
  import opened Types
  import opened Numbers
  import opened Calendar
  import opened Spending
  import opened Percent
  import opened Budgets
  import opened Health
  import opened Ledger
  import opened Rewards

  function Tx(id: string, date: int, merchant: string, amount: int, category: Category,
              txType: TxType, payMethod: PayMethod, hash: string): Transaction
  {
    Transaction(id, date, merchant, amount, category, txType, payMethod, Some(hash), Some(Verified))
  }

  /** The fourteen seed transactions, newest first. */
  const SeedTransactions: seq<Transaction> := [
    Tx("1", 19655, "Swiggy", 450, Food, Debit, UPI, "0x71c...9a21"),
    Tx("2", 19654, "Uber", 320, Transport, Debit, UPI, "0x32a...b119"),
    Tx("10", 19654, "Chai Point", 150, Food, Debit, UPI, "0x99c...d442"),
    Tx("3", 19654, "Netflix", 649, Entertainment, Debit, Card, "0x11f...a223"),
    Tx("11", 19653, "Blinkit", 280, Shopping, Debit, UPI, "0x88e...c331"),
    Tx("4", 19652, "Salary Credit", 85000, Salary, Credit, BankTransfer, "0x44d...e112"),
    Tx("5", 19651, "Amazon", 4500, Shopping, Debit, UPI, "0x22b...f991"),
    Tx("6", 19650, "Zomato", 850, Food, Debit, UPI, "0x66a...c882"),
    Tx("12", 19650, "Rapido", 85, Transport, Debit, UPI, "0x55e...d773"),
    Tx("7", 19649, "Electricity Bill", 2400, Bills, Debit, UPI, "0x33c...b664"),
    Tx("8", 19648, "Starbucks", 350, Food, Debit, UPI, "0x11d...a555"),
    Tx("9", 19645, "HDFC EMI", 15000, Bills, Debit, BankTransfer, "0x99a...e446"),
    Tx("13", 19644, "Social Offline", 2400, Food, Debit, UPI, "0x77b...c337"),
    Tx("14", 19642, "Myntra", 1800, Shopping, Debit, UPI, "0x55c...d228")
  ]

  /** Three unpaid bills, due 2023-11-05, 2023-11-01 and 2023-11-10. */
  const SeedBills: seq<Bill> := [
    Bill("b1", "Credit Card Bill", 12000, 19666, false),
    Bill("b2", "Rent", 25000, 19662, false),
    Bill("b3", "Internet", 999, 19671, false)
  ]

  const SeedGoals: seq<Goal> := [
    Goal("g1", "Bali Trip", 150000, 45000, 19783, Some("0x88...A1b2"), Some(4.5)),
    Goal("g2", "Emergency Fund", 300000, 120000, 20088, Some("0x99...C3d4"), Some(3.2))
  ]

  const SeedBudgets: map<string, int> :=
    map["Food" := 8000, "Transport" := 3000, "Shopping" := 5000, "Entertainment" := 2000, "Bills" := 20000]

  const SeedUser: UserContext :=
    UserContext(85000, 24500, 150000, SeedTransactions, SeedBills, SeedGoals, None, 250, SeedBudgets)

  /** One more transaction of a prefix adds its debit. */
  lemma TotalSpentStep(txs: seq<Transaction>, k: int)
    requires 0 <= k < |txs|
    ensures TotalSpent(txs[..k + 1]) == TotalSpent(txs[..k]) + DebitAmount(txs[k])
  {
    assert txs[..k + 1][..k] == txs[..k];
  }

  lemma CategoryTotalStep(txs: seq<Transaction>, k: int, name: string)
    requires 0 <= k < |txs|
    ensures CategoryTotal(txs[..k + 1], name) == CategoryTotal(txs[..k], name) +
              (if txs[k].txType == Debit && CategoryName(txs[k].category) == name then txs[k].amount else 0)
  {
    assert txs[..k + 1][..k] == txs[..k];
  }

  /** The seed's debits add up to 29234. */
  lemma SeedTotalSpent()
    ensures TotalSpent(SeedTransactions) == 29234
  {
    TotalSpentStep(SeedTransactions, 0);
    TotalSpentStep(SeedTransactions, 1);
    TotalSpentStep(SeedTransactions, 2);
    TotalSpentStep(SeedTransactions, 3);
    TotalSpentStep(SeedTransactions, 4);
    TotalSpentStep(SeedTransactions, 5);
    TotalSpentStep(SeedTransactions, 6);
    TotalSpentStep(SeedTransactions, 7);
    TotalSpentStep(SeedTransactions, 8);
    TotalSpentStep(SeedTransactions, 9);
    TotalSpentStep(SeedTransactions, 10);
    TotalSpentStep(SeedTransactions, 11);
    TotalSpentStep(SeedTransactions, 12);
    TotalSpentStep(SeedTransactions, 13);
    assert SeedTransactions[..14] == SeedTransactions;
  }

  lemma SeedFoodTotal()
    ensures CategoryTotal(SeedTransactions, "Food") == 4200
  {
    CategoryTotalStep(SeedTransactions, 0, "Food");
    CategoryTotalStep(SeedTransactions, 1, "Food");
    CategoryTotalStep(SeedTransactions, 2, "Food");
    CategoryTotalStep(SeedTransactions, 3, "Food");
    CategoryTotalStep(SeedTransactions, 4, "Food");
    CategoryTotalStep(SeedTransactions, 5, "Food");
    CategoryTotalStep(SeedTransactions, 6, "Food");
    CategoryTotalStep(SeedTransactions, 7, "Food");
    CategoryTotalStep(SeedTransactions, 8, "Food");
    CategoryTotalStep(SeedTransactions, 9, "Food");
    CategoryTotalStep(SeedTransactions, 10, "Food");
    CategoryTotalStep(SeedTransactions, 11, "Food");
    CategoryTotalStep(SeedTransactions, 12, "Food");
    CategoryTotalStep(SeedTransactions, 13, "Food");
    assert SeedTransactions[..14] == SeedTransactions;
  }

  lemma SeedTransportTotal()
    ensures CategoryTotal(SeedTransactions, "Transport") == 405
  {
    CategoryTotalStep(SeedTransactions, 0, "Transport");
    CategoryTotalStep(SeedTransactions, 1, "Transport");
    CategoryTotalStep(SeedTransactions, 2, "Transport");
    CategoryTotalStep(SeedTransactions, 3, "Transport");
    CategoryTotalStep(SeedTransactions, 4, "Transport");
    CategoryTotalStep(SeedTransactions, 5, "Transport");
    CategoryTotalStep(SeedTransactions, 6, "Transport");
    CategoryTotalStep(SeedTransactions, 7, "Transport");
    CategoryTotalStep(SeedTransactions, 8, "Transport");
    CategoryTotalStep(SeedTransactions, 9, "Transport");
    CategoryTotalStep(SeedTransactions, 10, "Transport");
    CategoryTotalStep(SeedTransactions, 11, "Transport");
    CategoryTotalStep(SeedTransactions, 12, "Transport");
    CategoryTotalStep(SeedTransactions, 13, "Transport");
    assert SeedTransactions[..14] == SeedTransactions;
  }

  lemma SeedShoppingTotal()
    ensures CategoryTotal(SeedTransactions, "Shopping") == 6580
  {
    CategoryTotalStep(SeedTransactions, 0, "Shopping");
    CategoryTotalStep(SeedTransactions, 1, "Shopping");
    CategoryTotalStep(SeedTransactions, 2, "Shopping");
    CategoryTotalStep(SeedTransactions, 3, "Shopping");
    CategoryTotalStep(SeedTransactions, 4, "Shopping");
    CategoryTotalStep(SeedTransactions, 5, "Shopping");
    CategoryTotalStep(SeedTransactions, 6, "Shopping");
    CategoryTotalStep(SeedTransactions, 7, "Shopping");
    CategoryTotalStep(SeedTransactions, 8, "Shopping");
    CategoryTotalStep(SeedTransactions, 9, "Shopping");
    CategoryTotalStep(SeedTransactions, 10, "Shopping");
    CategoryTotalStep(SeedTransactions, 11, "Shopping");
    CategoryTotalStep(SeedTransactions, 12, "Shopping");
    CategoryTotalStep(SeedTransactions, 13, "Shopping");
    assert SeedTransactions[..14] == SeedTransactions;
  }

  lemma SeedEntertainmentTotal()
    ensures CategoryTotal(SeedTransactions, "Entertainment") == 649
  {
    CategoryTotalStep(SeedTransactions, 0, "Entertainment");
    CategoryTotalStep(SeedTransactions, 1, "Entertainment");
    CategoryTotalStep(SeedTransactions, 2, "Entertainment");
    CategoryTotalStep(SeedTransactions, 3, "Entertainment");
    CategoryTotalStep(SeedTransactions, 4, "Entertainment");
    CategoryTotalStep(SeedTransactions, 5, "Entertainment");
    CategoryTotalStep(SeedTransactions, 6, "Entertainment");
    CategoryTotalStep(SeedTransactions, 7, "Entertainment");
    CategoryTotalStep(SeedTransactions, 8, "Entertainment");
    CategoryTotalStep(SeedTransactions, 9, "Entertainment");
    CategoryTotalStep(SeedTransactions, 10, "Entertainment");
    CategoryTotalStep(SeedTransactions, 11, "Entertainment");
    CategoryTotalStep(SeedTransactions, 12, "Entertainment");
    CategoryTotalStep(SeedTransactions, 13, "Entertainment");
    assert SeedTransactions[..14] == SeedTransactions;
  }

  lemma SeedBillsTotal()
    ensures CategoryTotal(SeedTransactions, "Bills") == 17400
  {
    CategoryTotalStep(SeedTransactions, 0, "Bills");
    CategoryTotalStep(SeedTransactions, 1, "Bills");
    CategoryTotalStep(SeedTransactions, 2, "Bills");
    CategoryTotalStep(SeedTransactions, 3, "Bills");
    CategoryTotalStep(SeedTransactions, 4, "Bills");
    CategoryTotalStep(SeedTransactions, 5, "Bills");
    CategoryTotalStep(SeedTransactions, 6, "Bills");
    CategoryTotalStep(SeedTransactions, 7, "Bills");
    CategoryTotalStep(SeedTransactions, 8, "Bills");
    CategoryTotalStep(SeedTransactions, 9, "Bills");
    CategoryTotalStep(SeedTransactions, 10, "Bills");
    CategoryTotalStep(SeedTransactions, 11, "Bills");
    CategoryTotalStep(SeedTransactions, 12, "Bills");
    CategoryTotalStep(SeedTransactions, 13, "Bills");
    assert SeedTransactions[..14] == SeedTransactions;
  }

  /** The seed's debits by category. */
  lemma SeedCategoryTotals()
    ensures CategoryTotal(SeedTransactions, "Food") == 4200
    ensures CategoryTotal(SeedTransactions, "Transport") == 405
    ensures CategoryTotal(SeedTransactions, "Shopping") == 6580
    ensures CategoryTotal(SeedTransactions, "Entertainment") == 649
    ensures CategoryTotal(SeedTransactions, "Bills") == 17400
  {
    SeedFoodTotal();
    SeedTransportTotal();
    SeedShoppingTotal();
    SeedEntertainmentTotal();
    SeedBillsTotal();
  }

  /** The unpaid bills come to 37999, more than the balance. */
  lemma SeedUnpaid()
    ensures UnpaidTotal(SeedBills) == 37999
  {
  }

  /** Once the rent (due 2023-11-01) is overdue the score is 70 + 15 − 20 − 15
      = 50, a "Balanced Builder". */
  lemma SeedScoreOverdue(nowMs: int)
    requires DayOf(nowMs) > 19662
    ensures HealthScore(SeedUser, nowMs) == 50
    ensures GetPersona(HealthScore(SeedUser, nowMs)).title == "Balanced Builder"
  {
    SeedTotalSpent();
    SeedUnpaid();
    ScoreByBills(SeedUser, nowMs);
    assert SeedBills[1] in SeedUser.bills && !SeedBills[1].isPaid && SeedBills[1].dueDate < DayOf(nowMs);
  }

  /** Before 2023-11-02 no seed bill is overdue, and none is paid. */
  lemma SeedNothingOverdue(nowMs: int)
    requires DayOf(nowMs) <= 19662
    ensures !exists b :: b in SeedBills && !b.isPaid && b.dueDate < DayOf(nowMs)
    ensures forall b :: b in SeedBills ==> !b.isPaid
  {
  }

  /** Before any bill is due the score is 70 + 15 + 0 − 15 = 70. */
  lemma SeedScoreBeforeDue(nowMs: int)
    requires DayOf(nowMs) <= 19662
    ensures HealthScore(SeedUser, nowMs) == 70
    ensures GetPersona(HealthScore(SeedUser, nowMs)).title == "Balanced Builder"
  {
    SeedTotalSpent();
    SeedUnpaid();
    SeedNothingOverdue(nowMs);
    ScoreByBills(SeedUser, nowMs);
  }

  /** The budget bars: food yellow (53%), bills red (87%), shopping red
      (capped at 100%), transport and entertainment green. */
  lemma SeedBudgetColors()
    ensures Row(SpendFold(SeedTransactions), "Food", 8000).color == Yellow
    ensures Row(SpendFold(SeedTransactions), "Bills", 20000).color == Red
    ensures Row(SpendFold(SeedTransactions), "Shopping", 5000).color == Red
    ensures Row(SpendFold(SeedTransactions), "Transport", 3000).color == Green
    ensures Row(SpendFold(SeedTransactions), "Entertainment", 2000).color == Green
  {
    SeedCategoryTotals();
    RowColorByTotal(SeedTransactions, "Food", 8000);
    RowColorByTotal(SeedTransactions, "Bills", 20000);
    RowColorByTotal(SeedTransactions, "Shopping", 5000);
    RowColorByTotal(SeedTransactions, "Transport", 3000);
    RowColorByTotal(SeedTransactions, "Entertainment", 2000);
  }

  /** The two goals show 30% and 40%. */
  lemma SeedGoalProgress()
    ensures GoalPercent(SeedGoals[0]) == Finite(30.0)
    ensures GoalPercent(SeedGoals[1]) == Finite(40.0)
  {
    PercentageByIntegers(45000, 150000);
    PercentageByIntegers(120000, 300000);
  }

  /** Adding a 450 food expense to the seed: the balance drops to 24050 and
      the tokens rise to 260, still level 3, "Smart Saver"; without a wallet
      the new entry carries no hash. */
  lemma SeedFirstExpense(id: string, today: int, hash: string)
    ensures var r := AddTransaction(SeedUser, PartialTx(Some("Swiggy"), Some(450), Some(Food), None, None), id, today, hash);
            r.currentBalance == 24050 && r.finTokens == 260 &&
            Level(r.finTokens) == 3 && LevelTitle(Level(r.finTokens)) == "Smart Saver" &&
            r.transactions[0].txHash.None?
  {
  }
}
