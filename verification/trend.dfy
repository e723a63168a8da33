/** `trendData` of components/Dashboard.tsx: the debit spend of each of the
    last seven days, oldest first, ending today. Days are day numbers; the
    weekday label shown on the chart is left to rendering. */
module Trend {
  import opened Types
  import opened Spending

  /** The debit amounts dated `day`, summed. */
  function DaySpend(txs: seq<Transaction>, day: int): int
  {
    if txs == [] then 0
    else
      var t := txs[|txs| - 1];
      DaySpend(txs[..|txs| - 1], day) + (if t.date == day && t.txType == Debit then t.amount else 0)
  }

  /** One point of the chart: `{date, spend}`. */
  datatype TrendPoint = TrendPoint(day: int, spend: int)

  /** The for-loop `i = 6 … 0`, pushing the spend of `today - i`. */
  method TrendData(txs: seq<Transaction>, today: int) returns (data: seq<TrendPoint>)
    ensures |data| == 7
    ensures forall j :: 0 <= j < 7 ==> data[j] == TrendPoint(today - 6 + j, DaySpend(txs, today - 6 + j))
  {
    data := [];
    var i := 6;
    while i >= 0
      invariant -1 <= i <= 6
      invariant |data| == 6 - i
      invariant forall j :: 0 <= j < |data| ==> data[j] == TrendPoint(today - 6 + j, DaySpend(txs, today - 6 + j))
    {
      var d := today - i;
      var daySpend := DaySpend(txs, d);
      data := data + [TrendPoint(d, daySpend)];
      i := i - 1;
    }
  }

  /** A day without debits shows 0. */
  lemma {:induction false} NoDebitsNoSpend(txs: seq<Transaction>, day: int)
    requires forall i :: 0 <= i < |txs| ==> !(txs[i].date == day && txs[i].txType == Debit)
    ensures DaySpend(txs, day) == 0
  {
    if txs != [] {
      NoDebitsNoSpend(txs[..|txs| - 1], day);
    }
  }

  /** The debit amounts dated in `[lo, hi)`, summed. */
  function RangeSpend(txs: seq<Transaction>, lo: int, hi: int): int
  {
    if txs == [] then 0
    else
      var t := txs[|txs| - 1];
      RangeSpend(txs[..|txs| - 1], lo, hi) + (if lo <= t.date < hi && t.txType == Debit then t.amount else 0)
  }

  /** Widening a range by one day adds that day's spend. */
  lemma {:induction false} RangeSpendExtend(txs: seq<Transaction>, lo: int, hi: int)
    requires lo <= hi
    ensures RangeSpend(txs, lo, hi + 1) == RangeSpend(txs, lo, hi) + DaySpend(txs, hi)
  {
    if txs != [] {
      RangeSpendExtend(txs[..|txs| - 1], lo, hi);
    }
  }

  function SumSpend(data: seq<TrendPoint>): int
  {
    if data == [] then 0 else SumSpend(data[..|data| - 1]) + data[|data| - 1].spend
  }

  /** The chart adds up to the week's debit spend: the seven days are
      distinct, so no debit is counted twice. */
  lemma {:induction false} SeriesSumsToRange(txs: seq<Transaction>, data: seq<TrendPoint>, lo: int)
    requires forall j :: 0 <= j < |data| ==> data[j] == TrendPoint(lo + j, DaySpend(txs, lo + j))
    ensures SumSpend(data) == RangeSpend(txs, lo, lo + |data|)
  {
    if data == [] {
      EmptyRange(txs, lo);
    } else {
      SeriesSumsToRange(txs, data[..|data| - 1], lo);
      RangeSpendExtend(txs, lo, lo + |data| - 1);
    }
  }

  lemma {:induction false} EmptyRange(txs: seq<Transaction>, lo: int)
    ensures RangeSpend(txs, lo, lo) == 0
  {
    if txs != [] {
      EmptyRange(txs[..|txs| - 1], lo);
    }
  }

  /** With non-negative debits, any range's spend lies between 0 and
      `totalSpent`. */
  lemma {:induction false} RangeWithinTotal(txs: seq<Transaction>, lo: int, hi: int)
    requires forall i :: 0 <= i < |txs| ==> txs[i].amount >= 0
    ensures 0 <= RangeSpend(txs, lo, hi) <= TotalSpent(txs)
  {
    if txs != [] {
      RangeWithinTotal(txs[..|txs| - 1], lo, hi);
    }
  }

  /** The seven points of the chart never add up to more than `totalSpent`. */
  lemma WeekWithinTotal(txs: seq<Transaction>, today: int, data: seq<TrendPoint>)
    requires forall i :: 0 <= i < |txs| ==> txs[i].amount >= 0
    requires |data| == 7
    requires forall j :: 0 <= j < 7 ==> data[j] == TrendPoint(today - 6 + j, DaySpend(txs, today - 6 + j))
    ensures SumSpend(data) == RangeSpend(txs, today - 6, today + 1)
    ensures 0 <= SumSpend(data) <= TotalSpent(txs)
  {
    SeriesSumsToRange(txs, data, today - 6);
    RangeWithinTotal(txs, today - 6, today + 1);
  }
}
