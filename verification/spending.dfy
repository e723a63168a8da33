/** Spend aggregation of components/Dashboard.tsx: `categorySpend` (a reduce
    that writes into a dictionary), `pieData` (its entries sorted by value,
    largest first) and `totalSpent`.

    A JavaScript object remembers the order its keys were first written in;
    `Dict` keeps that order in `keys` beside the values. The sums here are
    written as left folds, recursing on the last element, which is the order
    in which `reduce` visits the ledger. */
module Spending {
  import opened Types

  function DebitAmount(t: Transaction): int
  {
    if t.txType == Debit then t.amount else 0
  }

  /** `totalSpent`: the sum of all debit amounts. */
  function TotalSpent(txs: seq<Transaction>): int
  {
    if txs == [] then 0 else TotalSpent(txs[..|txs| - 1]) + DebitAmount(txs[|txs| - 1])
  }

  /** The debits of one category (by name), summed. */
  function CategoryTotal(txs: seq<Transaction>, name: string): int
  {
    if txs == [] then 0
    else
      var t := txs[|txs| - 1];
      CategoryTotal(txs[..|txs| - 1], name) + (if t.txType == Debit && CategoryName(t.category) == name then t.amount else 0)
  }

  /** Some debit of the ledger has the category `name`. */
  predicate HasDebitIn(txs: seq<Transaction>, name: string)
  {
    exists i :: 0 <= i < |txs| && txs[i].txType == Debit && CategoryName(txs[i].category) == name
  }

  /** A JavaScript object with string keys, in insertion order. */
  datatype Dict = Dict(keys: seq<string>, vals: map<string, int>)

  /** Keys are distinct and are exactly the keys of the values. */
  ghost predicate WellFormed(d: Dict)
  {
    && (forall i, j :: 0 <= i < j < |d.keys| ==> d.keys[i] != d.keys[j])
    && (forall k :: k in d.vals <==> k in d.keys)
  }

  /** `acc[key] = (acc[key] || 0) + amount`. */
  function AddTo(d: Dict, key: string, amount: int): Dict
  {
    if key in d.vals then Dict(d.keys, d.vals[key := d.vals[key] + amount])
    else Dict(d.keys + [key], d.vals[key := amount])
  }

  /** The dictionary `categorySpend` holds after the reduce has visited `txs`. */
  function SpendFold(txs: seq<Transaction>): Dict
  {
    if txs == [] then Dict([], map[])
    else
      var d := SpendFold(txs[..|txs| - 1]);
      var t := txs[|txs| - 1];
      if t.txType == Debit then AddTo(d, CategoryName(t.category), t.amount) else d
  }

  /** `categorySpend`: the reduce over the debits, writing into `acc`. */
  method CategorySpend(txs: seq<Transaction>) returns (spend: Dict)
    ensures spend == SpendFold(txs)
  {
    var keys: seq<string> := [];
    var acc: map<string, int> := map[];
    var i := 0;
    while i < |txs|
      invariant 0 <= i <= |txs|
      invariant Dict(keys, acc) == SpendFold(txs[..i])
    {
      var t := txs[i];
      assert txs[..i + 1][..i] == txs[..i];
      if t.txType == Debit {
        var name := CategoryName(t.category);
        if name in acc {
          acc := acc[name := acc[name] + t.amount];
        } else {
          keys := keys + [name];
          acc := acc[name := t.amount];
        }
      }
      i := i + 1;
    }
    assert txs[..|txs|] == txs;
    spend := Dict(keys, acc);
  }

  /** The fold writes each category once, in order of first debit, and its
      value is that category's debit total; credits never create a key. */
  lemma {:induction false} SpendFoldMeaning(txs: seq<Transaction>)
    ensures WellFormed(SpendFold(txs))
    ensures forall k :: k in SpendFold(txs).vals <==> HasDebitIn(txs, k)
    ensures forall k :: k in SpendFold(txs).vals ==> SpendFold(txs).vals[k] == CategoryTotal(txs, k)
  {
    if txs != [] {
      var p := txs[..|txs| - 1];
      SpendFoldMeaning(p);
      forall k
        ensures HasDebitIn(txs, k) <==> HasDebitIn(p, k) || (txs[|txs| - 1].txType == Debit && CategoryName(txs[|txs| - 1].category) == k)
      {
        if HasDebitIn(p, k) {
          var i :| 0 <= i < |p| && p[i].txType == Debit && CategoryName(p[i].category) == k;
          assert txs[i] == p[i];
        }
        if HasDebitIn(txs, k) {
          var i :| 0 <= i < |txs| && txs[i].txType == Debit && CategoryName(txs[i].category) == k;
          if i < |p| {
            assert p[i] == txs[i];
          }
        }
      }
      forall k | k in SpendFold(p).vals && !HasDebitIn(p, k)
        ensures false
      {
      }
      forall k | !HasDebitIn(p, k)
        ensures CategoryTotal(p, k) == 0
      {
        NoDebitNoTotal(p, k);
      }
    }
  }

  lemma {:induction false} NoDebitNoTotal(txs: seq<Transaction>, name: string)
    requires !HasDebitIn(txs, name)
    ensures CategoryTotal(txs, name) == 0
  {
    if txs != [] {
      NoDebitNoTotal(txs[..|txs| - 1], name);
    }
  }

  /** Σ of the values of `keys`, in order. */
  function SumValues(keys: seq<string>, vals: map<string, int>): int
    requires forall i :: 0 <= i < |keys| ==> keys[i] in vals
  {
    if keys == [] then 0 else SumValues(keys[..|keys| - 1], vals) + vals[keys[|keys| - 1]]
  }

  /** Changing the value of a key that is not listed does not change the sum. */
  lemma {:induction false} SumValuesOther(keys: seq<string>, vals: map<string, int>, key: string, v: int)
    requires forall i :: 0 <= i < |keys| ==> keys[i] in vals
    requires key !in keys
    ensures SumValues(keys, vals[key := v]) == SumValues(keys, vals)
  {
    if keys != [] {
      SumValuesOther(keys[..|keys| - 1], vals, key, v);
    }
  }

  /** Raising the value of a key listed exactly once raises the sum by as much. */
  lemma {:induction false} SumValuesRaise(keys: seq<string>, vals: map<string, int>, key: string, a: int)
    requires forall i :: 0 <= i < |keys| ==> keys[i] in vals
    requires forall i, j :: 0 <= i < j < |keys| ==> keys[i] != keys[j]
    requires key in keys
    ensures SumValues(keys, vals[key := vals[key] + a]) == SumValues(keys, vals) + a
  {
    var p := keys[..|keys| - 1];
    if keys[|keys| - 1] == key {
      assert key !in p;
      SumValuesOther(p, vals, key, vals[key] + a);
    } else {
      assert key in p;
      SumValuesRaise(p, vals, key, a);
    }
  }

  /** Appending a new key with its value adds that value to the sum. */
  lemma SumValuesAppend(keys: seq<string>, vals: map<string, int>, key: string, v: int)
    requires forall i :: 0 <= i < |keys| ==> keys[i] in vals
    requires key !in keys
    ensures forall i :: 0 <= i < |keys + [key]| ==> (keys + [key])[i] in vals[key := v]
    ensures SumValues(keys + [key], vals[key := v]) == SumValues(keys, vals) + v
  {
    SumValuesOther(keys, vals, key, v);
    assert (keys + [key])[..|keys|] == keys;
  }

  /** One write `acc[key] = (acc[key] || 0) + amount` raises the sum of the
      values by `amount`. */
  lemma SumAddTo(d: Dict, key: string, amount: int)
    requires WellFormed(d)
    ensures forall i :: 0 <= i < |AddTo(d, key, amount).keys| ==> AddTo(d, key, amount).keys[i] in AddTo(d, key, amount).vals
    ensures SumValues(AddTo(d, key, amount).keys, AddTo(d, key, amount).vals) == SumValues(d.keys, d.vals) + amount
  {
    if key in d.vals {
      assert key in d.keys;
      SumValuesRaise(d.keys, d.vals, key, amount);
    } else {
      assert key !in d.keys;
      SumValuesAppend(d.keys, d.vals, key, amount);
    }
  }

  /** The values of `categorySpend` add up to `totalSpent`. */
  lemma {:induction false} SpendSumsToTotal(txs: seq<Transaction>)
    ensures WellFormed(SpendFold(txs))
    ensures SumValues(SpendFold(txs).keys, SpendFold(txs).vals) == TotalSpent(txs)
  {
    SpendFoldMeaning(txs);
    if txs != [] {
      var p := txs[..|txs| - 1];
      var t := txs[|txs| - 1];
      SpendSumsToTotal(p);
      if t.txType == Debit {
        SumAddTo(SpendFold(p), CategoryName(t.category), t.amount);
      }
    }
  }

  /** One slice of the pie chart: `{name, value}`. */
  datatype Slice = Slice(name: string, value: int)

  /** `Object.keys(categorySpend).map(key => ({name: key, value: categorySpend[key]}))`. */
  function Entries(keys: seq<string>, vals: map<string, int>): (r: seq<Slice>)
    requires forall i :: 0 <= i < |keys| ==> keys[i] in vals
    ensures |r| == |keys|
    ensures forall i :: 0 <= i < |keys| ==> r[i] == Slice(keys[i], vals[keys[i]])
  {
    if keys == [] then [] else Entries(keys[..|keys| - 1], vals) + [Slice(keys[|keys| - 1], vals[keys[|keys| - 1]])]
  }

  predicate SortedDesc(s: seq<Slice>)
  {
    forall i, j :: 0 <= i < j < |s| ==> s[i].value >= s[j].value
  }

  function SumSlices(s: seq<Slice>): int
  {
    if s == [] then 0 else SumSlices(s[..|s| - 1]) + s[|s| - 1].value
  }

  /** Places `x` before the first slice that is not larger. */
  function Insert(x: Slice, s: seq<Slice>): (r: seq<Slice>)
    ensures |r| == |s| + 1
    ensures forall y :: y in r <==> y == x || y in s
    ensures multiset(r) == multiset(s) + multiset{x}
  {
    if s == [] || x.value >= s[0].value then [x] + s
    else
      assert s == [s[0]] + s[1..];
      [s[0]] + Insert(x, s[1..])
  }

  lemma {:induction false} InsertSorted(x: Slice, s: seq<Slice>)
    requires SortedDesc(s)
    ensures SortedDesc(Insert(x, s))
  {
    if s != [] && x.value < s[0].value {
      InsertSorted(x, s[1..]);
      var rest := Insert(x, s[1..]);
      assert forall y :: y in rest ==> y.value <= s[0].value;
    }
  }

  /** `.sort((a, b) => b.value - a.value)`: sorted largest first, a
      permutation of its input. */
  function SortDesc(s: seq<Slice>): (r: seq<Slice>)
    ensures |r| == |s|
    ensures forall y :: y in r <==> y in s
    ensures multiset(r) == multiset(s)
    ensures SortedDesc(r)
  {
    if s == [] then []
    else
      assert s == [s[0]] + s[1..];
      InsertSorted(s[0], SortDesc(s[1..]));
      Insert(s[0], SortDesc(s[1..]))
  }

  lemma {:induction false} SumSlicesFront(x: Slice, s: seq<Slice>)
    ensures SumSlices([x] + s) == x.value + SumSlices(s)
    decreases |s|
  {
    if s != [] {
      assert ([x] + s)[..|s|] == [x] + s[..|s| - 1];
      SumSlicesFront(x, s[..|s| - 1]);
    }
  }

  lemma {:induction false} InsertSum(x: Slice, s: seq<Slice>)
    requires SortedDesc(s)
    ensures SumSlices(Insert(x, s)) == x.value + SumSlices(s)
  {
    if s == [] || x.value >= s[0].value {
      SumSlicesFront(x, s);
    } else {
      InsertSum(x, s[1..]);
      SumSlicesFront(s[0], Insert(x, s[1..]));
      SumSlicesFront(s[0], s[1..]);
      assert s == [s[0]] + s[1..];
    }
  }

  lemma {:induction false} SortSum(s: seq<Slice>)
    ensures SumSlices(SortDesc(s)) == SumSlices(s)
  {
    if s != [] {
      var rest := SortDesc(s[1..]);
      assert SortDesc(s) == Insert(s[0], rest);
      SortSum(s[1..]);
      InsertSum(s[0], rest);
      SumSlicesFront(s[0], s[1..]);
      assert s == [s[0]] + s[1..];
    }
  }

  lemma {:induction false} EntriesSum(keys: seq<string>, vals: map<string, int>)
    requires forall i :: 0 <= i < |keys| ==> keys[i] in vals
    ensures SumSlices(Entries(keys, vals)) == SumValues(keys, vals)
  {
    if keys != [] {
      EntriesSum(keys[..|keys| - 1], vals);
      var e := Entries(keys, vals);
      assert e[..|e| - 1] == Entries(keys[..|keys| - 1], vals);
    }
  }

  /** `pieData`. */
  function PieData(txs: seq<Transaction>): seq<Slice>
  {
    var d := SpendFold(txs);
    SpendFoldMeaning(txs);
    SortDesc(Entries(d.keys, d.vals))
  }

  /** `pieData` holds one slice per category with debits, each with that
      category's total; it is sorted largest first. */
  lemma PieDataMeaning(txs: seq<Transaction>)
    ensures SortedDesc(PieData(txs))
    ensures |PieData(txs)| == |SpendFold(txs).keys|
    ensures forall x :: x in PieData(txs) <==> HasDebitIn(txs, x.name) && x.value == CategoryTotal(txs, x.name)
  {
    var d := SpendFold(txs);
    SpendFoldMeaning(txs);
    var e := Entries(d.keys, d.vals);
    forall x: Slice | HasDebitIn(txs, x.name) && x.value == CategoryTotal(txs, x.name)
      ensures x in e
    {
      var i :| 0 <= i < |d.keys| && d.keys[i] == x.name;
      assert e[i] == x;
    }
  }

  /** The slices of `pieData` add up to `totalSpent`. */
  lemma PieDataSumsToTotal(txs: seq<Transaction>)
    ensures SumSlices(PieData(txs)) == TotalSpent(txs)
  {
    var d := SpendFold(txs);
    SpendSumsToTotal(txs);
    EntriesSum(d.keys, d.vals);
    SortSum(Entries(d.keys, d.vals));
  }
}
