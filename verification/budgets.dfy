/** The "Smart Budgets" rows of components/Dashboard.tsx: for every entry
    `(cat, limit)` of the budgets, the spend read from `categorySpend`, its
    percentage of the limit and the bar colour. Rows are modelled as a set:
    the display order of `Object.entries` is not. */
module Budgets {
  import opened Types
  import opened Numbers
  import opened Spending
  import opened Percent

  /** `categorySpend[cat] || 0`: a category without debits reads as 0. */
  function SpentIn(spend: Dict, cat: string): int
  {
    if cat in spend.vals then spend.vals[cat] else 0
  }

  datatype BudgetRow = BudgetRow(cat: string, limit: int, spent: int, percentage: Num, color: BarColor)

  /** One row: the spend, `Math.min(100, Math.round((spent / limit) * 100))`
      and the colour chosen from that percentage. */
  function Row(spend: Dict, cat: string, limit: int): (r: BudgetRow)
    ensures r.cat == cat && r.limit == limit && r.spent == SpentIn(spend, cat)
    ensures r.color == BudgetColor(r.percentage)
    ensures r.percentage == Percentage(SpentIn(spend, cat), limit)
  {
    var spent := SpentIn(spend, cat);
    var percentage := Percentage(spent, limit);
    BudgetRow(cat, limit, spent, percentage, BudgetColor(percentage))
  }

  /** One row per budget entry. */
  function BudgetRows(spend: Dict, budgets: map<string, int>): (rows: set<BudgetRow>)
    ensures forall cat :: cat in budgets ==> Row(spend, cat, budgets[cat]) in rows
    ensures forall r :: r in rows ==> r.cat in budgets && r == Row(spend, r.cat, budgets[r.cat])
  {
    set cat | cat in budgets :: Row(spend, cat, budgets[cat])
  }

  /** Read from the dashboard's fold, a row's spend is the category's debit
      total: a category with no debit has no key and reads as 0, which is
      also its total. */
  lemma RowSpentIsCategoryTotal(txs: seq<Transaction>, cat: string)
    ensures SpentIn(SpendFold(txs), cat) == CategoryTotal(txs, cat)
  {
    SpendFoldMeaning(txs);
    if cat !in SpendFold(txs).vals {
      NoDebitNoTotal(txs, cat);
    }
  }

  /** With a positive limit, a row is red from 85.5% of the limit, yellow
      from 50.5%, and green below, in terms of the category's debit total. */
  lemma RowColorByTotal(txs: seq<Transaction>, cat: string, limit: int)
    requires limit > 0
    ensures var c := Row(SpendFold(txs), cat, limit).color;
            var spent := CategoryTotal(txs, cat);
            (c == Red <==> 200 * spent >= 171 * limit) &&
            (c == Yellow <==> 101 * limit <= 200 * spent < 171 * limit) &&
            (c == Green <==> 200 * spent < 101 * limit)
  {
    RowSpentIsCategoryTotal(txs, cat);
    BudgetColorThresholds(CategoryTotal(txs, cat), limit);
  }

  /** A zero limit shows a full red bar once anything is spent, and NaN (a
      green bar) while nothing is. */
  lemma ZeroLimitRow(spend: Dict, cat: string)
    ensures SpentIn(spend, cat) > 0 ==> Row(spend, cat, 0).percentage == Finite(100.0) && Row(spend, cat, 0).color == Red
    ensures SpentIn(spend, cat) == 0 ==> Row(spend, cat, 0).percentage == NaN && Row(spend, cat, 0).color == Green
  {
  }
}
