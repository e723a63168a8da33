/** The financial health score of components/Dashboard.tsx: the unpaid
    bills sorted by due date, `calculateScore` (70 plus a savings, an
    overdue and a coverage adjustment, clamped to [0, 100]), and the score's
    colour and persona. */
module Health {
  import opened Types
  import opened Numbers
  import opened Calendar
  import opened Spending
  import opened Ledger

  /** `bills.filter(b => !b.isPaid)`. */
  function UnpaidBills(bills: seq<Bill>): (r: seq<Bill>)
    ensures forall b :: b in r <==> b in bills && !b.isPaid
    ensures Subsequence(r, bills)
    ensures forall b :: multiset(r)[b] == if b.isPaid then 0 else multiset(bills)[b]
  {
    if bills == [] then []
    else
      assert bills == [bills[0]] + bills[1..];
      if bills[0].isPaid then UnpaidBills(bills[1..])
      else
        var r := [bills[0]] + UnpaidBills(bills[1..]);
        assert r[1..] == UnpaidBills(bills[1..]);
        r
  }

  predicate SortedByDue(bills: seq<Bill>)
  {
    forall i, j :: 0 <= i < j < |bills| ==> bills[i].dueDate <= bills[j].dueDate
  }

  /** Places `b` before the first bill due no earlier. */
  function InsertBill(b: Bill, s: seq<Bill>): (r: seq<Bill>)
    ensures |r| == |s| + 1
    ensures forall x :: x in r <==> x == b || x in s
    ensures multiset(r) == multiset(s) + multiset{b}
  {
    if s == [] || b.dueDate <= s[0].dueDate then [b] + s
    else
      assert s == [s[0]] + s[1..];
      [s[0]] + InsertBill(b, s[1..])
  }

  lemma {:induction false} InsertBillSorted(b: Bill, s: seq<Bill>)
    requires SortedByDue(s)
    ensures SortedByDue(InsertBill(b, s))
  {
    if s != [] && b.dueDate > s[0].dueDate {
      InsertBillSorted(b, s[1..]);
      assert forall x :: x in InsertBill(b, s[1..]) ==> s[0].dueDate <= x.dueDate;
    }
  }

  /** `[...bills].sort((a, b) => due(a) - due(b))`: earliest due first, a
      permutation of its input. */
  function SortByDue(bills: seq<Bill>): (r: seq<Bill>)
    ensures |r| == |bills|
    ensures forall x :: x in r <==> x in bills
    ensures multiset(r) == multiset(bills)
    ensures SortedByDue(r)
  {
    if bills == [] then []
    else
      assert bills == [bills[0]] + bills[1..];
      InsertBillSorted(bills[0], SortByDue(bills[1..]));
      InsertBill(bills[0], SortByDue(bills[1..]))
  }

  /** `sortedBills`. */
  function SortedBills(bills: seq<Bill>): seq<Bill>
  {
    SortByDue(UnpaidBills(bills))
  }

  /** The "Next Due" card shows the unpaid bill due first. */
  lemma NextDueIsEarliest(bills: seq<Bill>)
    requires SortedBills(bills) != []
    ensures SortedBills(bills)[0] in bills && !SortedBills(bills)[0].isPaid
    ensures forall b :: b in bills && !b.isPaid ==> SortedBills(bills)[0].dueDate <= b.dueDate
  {
    var r := SortedBills(bills);
    forall b | b in bills && !b.isPaid
      ensures r[0].dueDate <= b.dueDate
    {
      assert b in r;
      var j :| 0 <= j < |r| && r[j] == b;
    }
  }

  /** `bills.reduce((acc, b) => acc + b.amount, 0)`. */
  function BillsTotal(bills: seq<Bill>): int
  {
    if bills == [] then 0 else bills[0].amount + BillsTotal(bills[1..])
  }

  lemma {:induction false} InsertBillTotal(b: Bill, s: seq<Bill>)
    ensures BillsTotal(InsertBill(b, s)) == b.amount + BillsTotal(s)
  {
    if s != [] && b.dueDate > s[0].dueDate {
      InsertBillTotal(b, s[1..]);
    }
  }

  /** Sorting does not change the total. */
  lemma {:induction false} SortByDueTotal(bills: seq<Bill>)
    ensures BillsTotal(SortByDue(bills)) == BillsTotal(bills)
  {
    if bills != [] {
      SortByDueTotal(bills[1..]);
      InsertBillTotal(bills[0], SortByDue(bills[1..]));
    }
  }

  /** `bills.some(b => getDaysDiff(b.dueDate) < 0)`. */
  predicate HasOverdue(bills: seq<Bill>, nowMs: int)
  {
    exists b :: b in bills && DaysDiff(b.dueDate, nowMs) < 0
  }

  /** The savings adjustment. `savingsRatio` is `(income - spent) / income`,
      which is ±Infinity or NaN for a zero income. For a positive income:
      +15 when more than a fifth of it is saved, +5 when more than a tenth,
      −15 when spending exceeds it. For a negative income each comparison
      flips, since the ratio's denominator is negative. */
  function SavingsDelta(income: int, spent: int): (r: int)
    ensures income > 0 ==> (r == 15 <==> 5 * (income - spent) > income)
    ensures income > 0 ==> (r == 5 <==> 5 * (income - spent) <= income < 10 * (income - spent))
    ensures income > 0 ==> (r == -15 <==> spent > income)
    ensures income < 0 ==> (r == 15 <==> 5 * (income - spent) < income)
    ensures income < 0 ==> (r == 5 <==> 10 * (income - spent) < income <= 5 * (income - spent))
    ensures income < 0 ==> (r == -15 <==> spent < income)
    ensures income == 0 ==> r == (if spent < 0 then 15 else if spent > 0 then -15 else 0)
    ensures r == 15 || r == 5 || r == 0 || r == -15
  {
    var n := (income - spent) as real;
    var d := income as real;
    var savingsRatio := Divide(n, d);
    RatioAbove(n, d, 0.2);
    RatioAbove(n, d, 0.1);
    RatioBelow(n, d, 0.0);
    RatioAdjust(savingsRatio)
  }

  /** The savings checks of `calculateScore`, on the ratio itself. */
  function RatioAdjust(savingsRatio: Num): int
  {
    if Gt(savingsRatio, 0.2) then 15
    else if Gt(savingsRatio, 0.1) then 5
    else if Lt(savingsRatio, 0.0) then -15
    else 0
  }

  /** `n / d > c` exactly when `n > c * d` for a positive divisor, and
      exactly when `n < c * d` for a negative one. */
  lemma RatioAbove(n: real, d: real, c: real)
    ensures d > 0.0 ==> (Gt(Divide(n, d), c) <==> n > c * d)
    ensures d < 0.0 ==> (Gt(Divide(n, d), c) <==> n < c * d)
  {
    if d == 0.0 {
    } else if d > 0.0 {
      if Divide(n, d).v > c {
        MulLt(c, Divide(n, d).v, d);
      } else {
        MulLe(Divide(n, d).v, c, d);
      }
    } else {
      if Divide(n, d).v > c {
        MulNegLt(c, Divide(n, d).v, d);
      } else {
        MulNegLe(Divide(n, d).v, c, d);
      }
    }
  }

  /** `n / d < c` exactly when `n < c * d` for a positive divisor, and
      exactly when `n > c * d` for a negative one. */
  lemma RatioBelow(n: real, d: real, c: real)
    ensures d > 0.0 ==> (Lt(Divide(n, d), c) <==> n < c * d)
    ensures d < 0.0 ==> (Lt(Divide(n, d), c) <==> n > c * d)
  {
    if d == 0.0 {
    } else if d > 0.0 {
      if Divide(n, d).v < c {
        MulLt(Divide(n, d).v, c, d);
      } else {
        MulLe(c, Divide(n, d).v, d);
      }
    } else {
      if Divide(n, d).v < c {
        MulNegLt(Divide(n, d).v, c, d);
      } else {
        MulNegLe(c, Divide(n, d).v, d);
      }
    }
  }

  /** The overdue adjustment: −20 when a bill is overdue, +10 when no bill
      is unpaid. */
  function BillsDelta(sortedBills: seq<Bill>, nowMs: int): int
  {
    if HasOverdue(sortedBills, nowMs) then -20 else if |sortedBills| == 0 then 10 else 0
  }

  /** The coverage adjustment: −15 when the balance does not cover the
      unpaid bills, +5 otherwise. */
  function CoverageDelta(balance: int, billsTotal: int): int
  {
    if balance < billsTotal then -15 else 5
  }

  /** `Math.max(0, Math.min(100, score))`. */
  function Clamp(score: int): (r: int)
    ensures 0 <= r <= 100
    ensures 0 <= score <= 100 ==> r == score
  {
    if score > 100 then 100 else if score < 0 then 0 else score
  }

  /** The score before the clamp. */
  function Unclamped(s: UserContext, nowMs: int): int
  {
    var sorted := SortedBills(s.bills);
    70 + SavingsDelta(s.monthlyIncome, TotalSpent(s.transactions))
       + BillsDelta(sorted, nowMs)
       + CoverageDelta(s.currentBalance, BillsTotal(sorted))
  }

  /** `healthScore`. */
  function HealthScore(s: UserContext, nowMs: int): int
  {
    Clamp(Unclamped(s, nowMs))
  }

  /** `calculateScore`: `score` starts at 70 and each check adjusts it. */
  method CalculateScore(s: UserContext, nowMs: int) returns (score: int)
    ensures score == HealthScore(s, nowMs)
  {
    var totalSpent := TotalSpent(s.transactions);
    var sortedBills := SortedBills(s.bills);
    score := 70;
    var savingsRatio := Divide((s.monthlyIncome - totalSpent) as real, s.monthlyIncome as real);
    if Gt(savingsRatio, 0.2) {
      score := score + 15;
    } else if Gt(savingsRatio, 0.1) {
      score := score + 5;
    } else if Lt(savingsRatio, 0.0) {
      score := score - 15;
    }
    assert score == 70 + RatioAdjust(savingsRatio);
    var hasOverdue := HasOverdue(sortedBills, nowMs);
    if hasOverdue {
      score := score - 20;
    } else if |sortedBills| == 0 {
      score := score + 10;
    }
    assert score == 70 + RatioAdjust(savingsRatio) + BillsDelta(sortedBills, nowMs);
    var billsTotal := BillsTotal(sortedBills);
    if s.currentBalance < billsTotal {
      score := score - 15;
    } else {
      score := score + 5;
    }
    assert SavingsDelta(s.monthlyIncome, totalSpent) == RatioAdjust(savingsRatio);
    assert score == Unclamped(s, nowMs);
    score := if score < 100 then score else 100;
    score := if score > 0 then score else 0;
  }

  /** The adjustments keep the sum within [20, 100], so the clamp never
      changes it. */
  lemma ScoreBounds(s: UserContext, nowMs: int)
    ensures 20 <= Unclamped(s, nowMs) <= 100
    ensures HealthScore(s, nowMs) == Unclamped(s, nowMs)
  {
  }

  /** The unpaid bills' total, in ledger order. */
  function UnpaidTotal(bills: seq<Bill>): int
  {
    BillsTotal(UnpaidBills(bills))
  }

  /** The score in terms of the bills themselves, without the sort: −20 when
      an unpaid bill's due day is before today, +10 when every bill is paid,
      and the coverage check against the unpaid total. */
  lemma ScoreByBills(s: UserContext, nowMs: int)
    ensures HealthScore(s, nowMs) ==
      70 + SavingsDelta(s.monthlyIncome, TotalSpent(s.transactions))
         + (if exists b :: b in s.bills && !b.isPaid && b.dueDate < DayOf(nowMs) then -20
            else if forall b :: b in s.bills ==> b.isPaid then 10
            else 0)
         + (if s.currentBalance < UnpaidTotal(s.bills) then -15 else 5)
  {
    var sorted := SortedBills(s.bills);
    SortByDueTotal(UnpaidBills(s.bills));
    if |sorted| != 0 {
      assert sorted[0] in s.bills && !sorted[0].isPaid;
    }
    if exists b :: b in s.bills && !b.isPaid && b.dueDate < DayOf(nowMs) {
      var b :| b in s.bills && !b.isPaid && b.dueDate < DayOf(nowMs);
      assert b in sorted && DaysDiff(b.dueDate, nowMs) < 0;
    }
  }

  /** Bill ids are distinct. */
  predicate UniqueBillIds(bills: seq<Bill>)
  {
    forall i, j :: 0 <= i < j < |bills| ==> bills[i].id != bills[j].id
  }

  lemma {:induction false} PayAbsentBill(bills: seq<Bill>, id: string)
    requires forall i :: 0 <= i < |bills| ==> bills[i].id != id
    ensures PayBills(bills, id) == bills
  {
    if bills != [] {
      PayAbsentBill(bills[1..], id);
    }
  }

  /** Paying an unpaid bill lowers the unpaid total by its amount. */
  lemma {:induction false} PayLowersUnpaidTotal(bills: seq<Bill>, id: string)
    requires UniqueBillIds(bills)
    requires FindBill(bills, id).Some? && !FindBill(bills, id).value.isPaid
    ensures UnpaidTotal(PayBills(bills, id)) == UnpaidTotal(bills) - FindBill(bills, id).value.amount
  {
    var rest := bills[1..];
    var paid := PayBills(bills, id);
    assert paid[1..] == PayBills(rest, id);
    if bills[0].id == id {
      assert FindBill(bills, id).value == bills[0];
      assert forall i :: 0 <= i < |rest| ==> rest[i].id != id by {
        forall i | 0 <= i < |rest|
          ensures rest[i].id != id
        {
          assert rest[i] == bills[i + 1];
        }
      }
      PayAbsentBill(rest, id);
    } else {
      assert FindBill(rest, id) == FindBill(bills, id);
      assert UniqueBillIds(rest) by {
        forall i, j | 0 <= i < j < |rest|
          ensures rest[i].id != rest[j].id
        {
          assert rest[i] == bills[i + 1] && rest[j] == bills[j + 1];
        }
      }
      PayLowersUnpaidTotal(rest, id);
    }
    UnpaidTotalSplit(paid);
    UnpaidTotalSplit(bills);
  }

  lemma UnpaidTotalSplit(bills: seq<Bill>)
    requires bills != []
    ensures UnpaidTotal(bills) == (if bills[0].isPaid then 0 else bills[0].amount) + UnpaidTotal(bills[1..])
  {
    var u := UnpaidBills(bills);
    if !bills[0].isPaid {
      assert u[1..] == UnpaidBills(bills[1..]);
    } else {
      assert u == [] + UnpaidBills(bills[1..]) == UnpaidBills(bills[1..]);
    }
  }

  /** Paying a bill lowers the balance and the unpaid total alike, so the
      coverage adjustment stays as it was. */
  lemma PayingKeepsCoverage(s: UserContext, id: string, txId: string, today: int, hash: string)
    requires UniqueBillIds(s.bills)
    ensures var r := MarkBillPaid(s, id, txId, today, hash);
            CoverageDelta(r.currentBalance, BillsTotal(SortedBills(r.bills)))
            == CoverageDelta(s.currentBalance, BillsTotal(SortedBills(s.bills)))
  {
    var r := MarkBillPaid(s, id, txId, today, hash);
    SortByDueTotal(UnpaidBills(s.bills));
    SortByDueTotal(UnpaidBills(r.bills));
    if FindBill(s.bills, id).Some? && !FindBill(s.bills, id).value.isPaid {
      PayLowersUnpaidTotal(s.bills, id);
    }
  }

  /** `getScoreColor`. */
  function ScoreColor(score: int): string
  {
    if score >= 80 then "#10b981" else if score >= 50 then "#f59e0b" else "#ef4444"
  }

  /** A persona card (the icon is left to rendering). */
  datatype Persona = Persona(title: string, color: string, desc: string)

  /** `getPersona`. */
  function GetPersona(score: int): Persona
  {
    if score >= 80 then Persona("Wealth Wizard", "bg-emerald-500", "Your habits are impeccable.")
    else if score >= 50 then Persona("Balanced Builder", "bg-amber-500", "Good foundation, room to grow.")
    else Persona("Cashflow Cadet", "bg-red-500", "Immediate attention needed.")
  }

  /** Colour and persona use the same thresholds: two scores share a colour
      exactly when they share a persona. */
  lemma ColorMatchesPersona(a: int, b: int)
    ensures ScoreColor(a) == ScoreColor(b) <==> GetPersona(a) == GetPersona(b)
    ensures GetPersona(a).title == "Wealth Wizard" <==> a >= 80
    ensures GetPersona(a).title == "Balanced Builder" <==> 50 <= a < 80
    ensures GetPersona(a).title == "Cashflow Cadet" <==> a < 50
  {
  }
}
