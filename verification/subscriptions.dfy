/** The recurring-charge heuristic of components/Dashboard.tsx
    (`subscriptions`): debits other than transfers are grouped by the key
    `merchant-bucket`, where the bucket is the amount rounded to the nearest
    hundred; every key seen at least twice is reported with the amount and
    date of its first occurrence and the merchant text before the first '-'. */
module Subscriptions {
  import opened Types
  import opened Text

  /** `t.type === 'debit' && t.category !== 'Transfer'`. */
  predicate IsCandidate(t: Transaction)
  {
    t.txType == Debit && t.category != Transfer
  }

  /** `Math.round(amount / 100) * 100`: the multiple of 100 nearest to the
      amount, halves rounding up. */
  function Bucket(amount: int): (r: int)
    ensures r % 100 == 0
    ensures r - 50 <= amount < r + 50
  {
    ((amount + 50) / 100) * 100
  }

  /** `${t.merchant}-${bucket}`. */
  function Key(t: Transaction): string
  {
    t.merchant + "-" + IntToString(Bucket(t.amount))
  }

  /** `{count, amount, lastDate}`. */
  datatype Entry = Entry(count: nat, amount: int, lastDate: int)

  /** The `counts` object: its keys in insertion order and its entries. */
  datatype Tally = Tally(keys: seq<string>, counts: map<string, Entry>)

  /** One step of the forEach: create the entry on first sight, then count. */
  function Bump(c: Tally, t: Transaction): Tally
  {
    var k := Key(t);
    var c0 := if k in c.counts then c else Tally(c.keys + [k], c.counts[k := Entry(0, t.amount, t.date)]);
    Tally(c0.keys, c0.counts[k := c0.counts[k].(count := c0.counts[k].count + 1)])
  }

  /** `counts` after the forEach has visited `txs`. */
  function TallyFold(txs: seq<Transaction>): (r: Tally)
    ensures forall i :: 0 <= i < |r.keys| ==> r.keys[i] in r.counts
  {
    if txs == [] then Tally([], map[])
    else
      var c := TallyFold(txs[..|txs| - 1]);
      var t := txs[|txs| - 1];
      if IsCandidate(t) then Bump(c, t) else c
  }

  /** One reported subscription. */
  datatype Subscription = Subscription(name: string, amount: int, lastDate: int)

  /** `Object.entries(counts).filter(count > 1).map(…)`. */
  function Report(keys: seq<string>, counts: map<string, Entry>): seq<Subscription>
    requires forall i :: 0 <= i < |keys| ==> keys[i] in counts
  {
    if keys == [] then []
    else
      var e := counts[keys[0]];
      (if e.count > 1 then [Subscription(BeforeDash(keys[0]), e.amount, e.lastDate)] else [])
      + Report(keys[1..], counts)
  }

  /** The value of the `subscriptions` memo. */
  function RecurringCharges(txs: seq<Transaction>): seq<Subscription>
  {
    var c := TallyFold(txs);
    Report(c.keys, c.counts)
  }

  /** `subscriptions`: the forEach fills `counts`, then the entries are
      filtered and named. */
  method Subscriptions(txs: seq<Transaction>) returns (subs: seq<Subscription>)
    ensures subs == RecurringCharges(txs)
  {
    var keys: seq<string> := [];
    var counts: map<string, Entry> := map[];
    var i := 0;
    while i < |txs|
      invariant 0 <= i <= |txs|
      invariant Tally(keys, counts) == TallyFold(txs[..i])
    {
      var t := txs[i];
      assert txs[..i + 1][..i] == txs[..i];
      if t.txType == Debit && t.category != Transfer {
        var key := t.merchant + "-" + IntToString(Bucket(t.amount));
        if key !in counts {
          keys := keys + [key];
          counts := counts[key := Entry(0, t.amount, t.date)];
        }
        counts := counts[key := counts[key].(count := counts[key].count + 1)];
      }
      i := i + 1;
    }
    assert txs[..|txs|] == txs;
    subs := Report(keys, counts);
  }

  /** How many candidates of `txs` have key `k`. */
  function KeyCount(txs: seq<Transaction>, k: string): nat
  {
    if txs == [] then 0
    else KeyCount(txs[..|txs| - 1], k) + (if IsCandidate(txs[|txs| - 1]) && Key(txs[|txs| - 1]) == k then 1 else 0)
  }

  /** `txs[i]` is the first candidate with key `k`. */
  predicate FirstWithKey(txs: seq<Transaction>, k: string, i: int)
  {
    && 0 <= i < |txs| && IsCandidate(txs[i]) && Key(txs[i]) == k
    && forall j :: 0 <= j < i ==> !(IsCandidate(txs[j]) && Key(txs[j]) == k)
  }

  lemma {:induction false} NoKeyBefore(txs: seq<Transaction>, k: string)
    requires KeyCount(txs, k) == 0
    ensures forall j :: 0 <= j < |txs| ==> !(IsCandidate(txs[j]) && Key(txs[j]) == k)
  {
    if txs != [] {
      var p := txs[..|txs| - 1];
      NoKeyBefore(p, k);
      forall j | 0 <= j < |txs|
        ensures !(IsCandidate(txs[j]) && Key(txs[j]) == k)
      {
        if j < |p| {
          assert txs[j] == p[j];
        }
      }
    }
  }

  /** The forEach keeps each key once, in order of first sight. */
  lemma {:induction false} TallyKeys(txs: seq<Transaction>)
    ensures forall i, j :: 0 <= i < j < |TallyFold(txs).keys| ==> TallyFold(txs).keys[i] != TallyFold(txs).keys[j]
    ensures forall k :: k in TallyFold(txs).counts <==> k in TallyFold(txs).keys
  {
    if txs != [] {
      TallyKeys(txs[..|txs| - 1]);
    }
  }

  /** The forEach counts every candidate under its key exactly once. */
  lemma {:induction false} TallyCounts(txs: seq<Transaction>)
    ensures forall k :: k in TallyFold(txs).counts <==> KeyCount(txs, k) > 0
    ensures forall k :: k in TallyFold(txs).counts ==> TallyFold(txs).counts[k].count == KeyCount(txs, k)
  {
    if txs != [] {
      TallyCounts(txs[..|txs| - 1]);
    }
  }

  lemma FirstInPrefix(txs: seq<Transaction>, p: seq<Transaction>, k: string, i: int)
    requires |p| <= |txs| && p == txs[..|p|]
    requires FirstWithKey(p, k, i)
    ensures FirstWithKey(txs, k, i)
  {
    assert forall j :: 0 <= j <= i ==> txs[j] == p[j];
  }

  /** `e` holds the amount and date of the first candidate of `txs` with key `k`. */
  ghost predicate RemembersFirst(txs: seq<Transaction>, k: string, e: Entry)
  {
    exists i :: FirstWithKey(txs, k, i) && e.amount == txs[i].amount && e.lastDate == txs[i].date
  }

  /** Each entry holds the amount and date of the first candidate with its key. */
  lemma {:induction false} TallyFirst(txs: seq<Transaction>)
    ensures forall k :: k in TallyFold(txs).counts ==> RemembersFirst(txs, k, TallyFold(txs).counts[k])
  {
    if txs != [] {
      var p := txs[..|txs| - 1];
      var t := txs[|txs| - 1];
      assert txs == p + [t];
      TallyFirst(p);
      TallyCounts(p);
      forall k | k in TallyFold(txs).counts
        ensures RemembersFirst(txs, k, TallyFold(txs).counts[k])
      {
        TallyFirstStep(p, t, k);
      }
    }
  }

  /** The step of `TallyFirst` for one key. */
  lemma TallyFirstStep(p: seq<Transaction>, t: Transaction, k: string)
    requires k in TallyFold(p).counts ==> RemembersFirst(p, k, TallyFold(p).counts[k])
    requires k in TallyFold(p).counts <==> KeyCount(p, k) > 0
    requires k in TallyFold(p + [t]).counts
    ensures RemembersFirst(p + [t], k, TallyFold(p + [t]).counts[k])
  {
    var txs := p + [t];
    assert txs[..|txs| - 1] == p;
    var c := TallyFold(p);
    var r := TallyFold(txs);
    if k in c.counts {
      assert r.counts[k].amount == c.counts[k].amount && r.counts[k].lastDate == c.counts[k].lastDate;
      var i :| FirstWithKey(p, k, i) && c.counts[k].amount == p[i].amount && c.counts[k].lastDate == p[i].date;
      FirstInPrefix(txs, p, k, i);
      assert txs[i] == p[i];
    } else {
      assert IsCandidate(t) && k == Key(t);
      NoKeyBefore(p, k);
      assert FirstWithKey(txs, k, |p|);
    }
  }

  /** A first occurrence is unique. */
  lemma FirstWithKeyUnique(txs: seq<Transaction>, k: string, i: int, j: int)
    requires FirstWithKey(txs, k, i) && FirstWithKey(txs, k, j)
    ensures i == j
  {
  }

  /** The report keeps exactly the keys counted more than once, in order. */
  lemma {:induction false} ReportMeaning(keys: seq<string>, counts: map<string, Entry>)
    requires forall i :: 0 <= i < |keys| ==> keys[i] in counts
    ensures forall s :: s in Report(keys, counts) <==>
      exists i :: 0 <= i < |keys| && counts[keys[i]].count > 1
        && s == Subscription(BeforeDash(keys[i]), counts[keys[i]].amount, counts[keys[i]].lastDate)
  {
    if keys != [] {
      ReportMeaning(keys[1..], counts);
      forall s
        ensures s in Report(keys, counts) <==>
          exists i :: 0 <= i < |keys| && counts[keys[i]].count > 1
            && s == Subscription(BeforeDash(keys[i]), counts[keys[i]].amount, counts[keys[i]].lastDate)
      {
        if s in Report(keys[1..], counts) {
          var i :| 0 <= i < |keys[1..]| && counts[keys[1..][i]].count > 1
            && s == Subscription(BeforeDash(keys[1..][i]), counts[keys[1..][i]].amount, counts[keys[1..][i]].lastDate);
          assert keys[1..][i] == keys[i + 1];
        }
        if exists i :: 0 <= i < |keys| && counts[keys[i]].count > 1
            && s == Subscription(BeforeDash(keys[i]), counts[keys[i]].amount, counts[keys[i]].lastDate) {
          var i :| 0 <= i < |keys| && counts[keys[i]].count > 1
            && s == Subscription(BeforeDash(keys[i]), counts[keys[i]].amount, counts[keys[i]].lastDate);
          if i > 0 {
            assert keys[1..][i - 1] == keys[i];
          }
        }
      }
    }
  }

  /** What a first occurrence reports: the merchant before the first '-',
      and its own amount and date. */
  function Charge(t: Transaction): Subscription
  {
    Subscription(BeforeDash(t.merchant), t.amount, t.date)
  }

  /** A charge is reported exactly when it is the first candidate of a key
      that occurs at least twice. */
  lemma RecurringChargesMeaning(txs: seq<Transaction>)
    ensures forall s :: s in RecurringCharges(txs) ==>
      exists i :: 0 <= i < |txs| && FirstWithKey(txs, Key(txs[i]), i) && KeyCount(txs, Key(txs[i])) >= 2 && s == Charge(txs[i])
    ensures forall i :: 0 <= i < |txs| && FirstWithKey(txs, Key(txs[i]), i) && KeyCount(txs, Key(txs[i])) >= 2 ==>
      Charge(txs[i]) in RecurringCharges(txs)
  {
    var c := TallyFold(txs);
    TallyKeys(txs);
    TallyCounts(txs);
    TallyFirst(txs);
    ReportMeaning(c.keys, c.counts);
    forall s | s in RecurringCharges(txs)
      ensures exists i :: 0 <= i < |txs| && FirstWithKey(txs, Key(txs[i]), i) && KeyCount(txs, Key(txs[i])) >= 2 && s == Charge(txs[i])
    {
      var n :| 0 <= n < |c.keys| && c.counts[c.keys[n]].count > 1
        && s == Subscription(BeforeDash(c.keys[n]), c.counts[c.keys[n]].amount, c.counts[c.keys[n]].lastDate);
      var k := c.keys[n];
      assert RemembersFirst(txs, k, c.counts[k]);
      var i :| FirstWithKey(txs, k, i) && c.counts[k].amount == txs[i].amount && c.counts[k].lastDate == txs[i].date;
      BeforeDashIgnoresTail(txs[i].merchant, IntToString(Bucket(txs[i].amount)));
    }
    forall i | 0 <= i < |txs| && FirstWithKey(txs, Key(txs[i]), i) && KeyCount(txs, Key(txs[i])) >= 2
      ensures Charge(txs[i]) in RecurringCharges(txs)
    {
      var k := Key(txs[i]);
      var n :| 0 <= n < |c.keys| && c.keys[n] == k;
      assert RemembersFirst(txs, k, c.counts[k]);
      var j :| FirstWithKey(txs, k, j) && c.counts[k].amount == txs[j].amount && c.counts[k].lastDate == txs[j].date;
      FirstWithKeyUnique(txs, k, i, j);
      BeforeDashIgnoresTail(txs[i].merchant, IntToString(Bucket(txs[i].amount)));
    }
  }

  /** The reference order: going through `txs` from the front, the charge
      of every first candidate of a key that occurs at least twice. */
  function FirstRecurring(txs: seq<Transaction>, n: nat): seq<Subscription>
    requires n <= |txs|
  {
    if n == 0 then [] else FirstRecurring(txs, n - 1) + ChargeAt(txs, n - 1)
  }

  /** `[Charge(txs[i])]` when `txs[i]` is the first candidate of a key that
      occurs at least twice, and nothing otherwise. */
  function ChargeAt(txs: seq<Transaction>, i: nat): seq<Subscription>
    requires i < |txs|
  {
    if FirstWithKey(txs, Key(txs[i]), i) && KeyCount(txs, Key(txs[i])) >= 2 then [Charge(txs[i])] else []
  }

  /** A key counted at least once has a candidate carrying it. */
  lemma {:induction false} KeyCountWitness(txs: seq<Transaction>, k: string)
    requires KeyCount(txs, k) > 0
    ensures exists j :: 0 <= j < |txs| && IsCandidate(txs[j]) && Key(txs[j]) == k
  {
    var p := txs[..|txs| - 1];
    if !(IsCandidate(txs[|txs| - 1]) && Key(txs[|txs| - 1]) == k) {
      KeyCountWitness(p, k);
      var j :| 0 <= j < |p| && IsCandidate(p[j]) && Key(p[j]) == k;
      assert txs[j] == p[j];
    }
  }

  /** Reporting one more key appends that key's report. */
  lemma {:induction false} ReportAppend(keys: seq<string>, k: string, counts: map<string, Entry>)
    requires forall i :: 0 <= i < |keys| ==> keys[i] in counts
    requires k in counts
    ensures Report(keys + [k], counts) == Report(keys, counts)
      + (if counts[k].count > 1 then [Subscription(BeforeDash(k), counts[k].amount, counts[k].lastDate)] else [])
  {
    if keys != [] {
      assert (keys + [k])[1..] == keys[1..] + [k];
      ReportAppend(keys[1..], k, counts);
    }
  }

  /** Every key the forEach has seen in a prefix is in the final `counts`. */
  lemma {:induction false} TallyGrows(txs: seq<Transaction>, n: nat)
    requires n <= |txs|
    ensures forall k :: k in TallyFold(txs[..n]).counts ==> k in TallyFold(txs).counts
  {
    if n < |txs| {
      var p := txs[..|txs| - 1];
      assert p[..n] == txs[..n];
      TallyGrows(p, n);
    } else {
      assert txs[..n] == txs;
    }
  }

  /** A candidate whose key the forEach has not seen yet is that key's first
      occurrence. */
  lemma NewKeyStep(txs: seq<Transaction>, i: nat)
    requires i < |txs| && IsCandidate(txs[i])
    requires Key(txs[i]) !in TallyFold(txs[..i]).counts
    ensures FirstWithKey(txs, Key(txs[i]), i)
  {
    var p := txs[..i];
    TallyCounts(p);
    NoKeyBefore(p, Key(txs[i]));
    assert forall j :: 0 <= j < i ==> txs[j] == p[j];
  }

  /** The final entry of a key reports its first occurrence, with the
      key's count. */
  lemma FirstEntryCharge(txs: seq<Transaction>, i: nat)
    requires i < |txs| && FirstWithKey(txs, Key(txs[i]), i)
    requires Key(txs[i]) in TallyFold(txs).counts
    ensures var e := TallyFold(txs).counts[Key(txs[i])];
            e.count == KeyCount(txs, Key(txs[i]))
            && Subscription(BeforeDash(Key(txs[i])), e.amount, e.lastDate) == Charge(txs[i])
  {
    var t := txs[i];
    var k := Key(t);
    var c := TallyFold(txs).counts;
    TallyCounts(txs);
    TallyFirst(txs);
    assert RemembersFirst(txs, k, c[k]);
    var j :| FirstWithKey(txs, k, j) && c[k].amount == txs[j].amount && c[k].lastDate == txs[j].date;
    FirstWithKeyUnique(txs, k, i, j);
    BeforeDashIgnoresTail(t.merchant, IntToString(Bucket(t.amount)));
  }

  /** A candidate whose key the forEach has already seen is not a first
      occurrence. */
  lemma SeenKeyStep(txs: seq<Transaction>, i: nat)
    requires i < |txs|
    requires Key(txs[i]) in TallyFold(txs[..i]).counts
    ensures !FirstWithKey(txs, Key(txs[i]), i)
  {
    var p := txs[..i];
    var k := Key(txs[i]);
    TallyCounts(p);
    KeyCountWitness(p, k);
    var j :| 0 <= j < |p| && IsCandidate(p[j]) && Key(p[j]) == k;
    assert txs[j] == p[j];
  }

  /** One step of the forEach adds a key exactly when it is a candidate's
      key not seen before. */
  lemma TallyStepKeys(p: seq<Transaction>, t: Transaction)
    ensures TallyFold(p + [t]).keys ==
      if IsCandidate(t) && Key(t) !in TallyFold(p).counts then TallyFold(p).keys + [Key(t)] else TallyFold(p).keys
  {
    assert (p + [t])[..|p + [t]| - 1] == p;
  }

  /** A transaction that adds no key has no charge of its own. */
  lemma ChargeAtSeen(txs: seq<Transaction>, i: nat)
    requires i < |txs|
    requires !(IsCandidate(txs[i]) && Key(txs[i]) !in TallyFold(txs[..i]).counts)
    ensures ChargeAt(txs, i) == []
  {
    if IsCandidate(txs[i]) {
      SeenKeyStep(txs, i);
    }
  }

  /** A transaction that adds a key has that key's report as its charge. */
  lemma ChargeAtNew(txs: seq<Transaction>, i: nat)
    requires i < |txs|
    requires IsCandidate(txs[i]) && Key(txs[i]) !in TallyFold(txs[..i]).counts
    requires Key(txs[i]) in TallyFold(txs).counts
    ensures var e := TallyFold(txs).counts[Key(txs[i])];
            ChargeAt(txs, i) ==
              if e.count > 1 then [Subscription(BeforeDash(Key(txs[i])), e.amount, e.lastDate)] else []
  {
    NewKeyStep(txs, i);
    FirstEntryCharge(txs, i);
  }

  /** A forEach step that adds a key appends that key's report. */
  lemma ReportAddsKey(p: seq<Transaction>, t: Transaction, counts: map<string, Entry>)
    requires IsCandidate(t) && Key(t) !in TallyFold(p).counts
    requires forall k :: k in TallyFold(p + [t]).counts ==> k in counts
    ensures Key(t) in TallyFold(p + [t]).counts
    ensures forall k :: k in TallyFold(p).counts ==> k in TallyFold(p + [t]).counts
    ensures Report(TallyFold(p + [t]).keys, counts) == Report(TallyFold(p).keys, counts)
      + (if counts[Key(t)].count > 1 then [Subscription(BeforeDash(Key(t)), counts[Key(t)].amount, counts[Key(t)].lastDate)] else [])
  {
    assert (p + [t])[..|p + [t]| - 1] == p;
    TallyStepKeys(p, t);
    ReportAppend(TallyFold(p).keys, Key(t), counts);
  }

  /** The keys seen in the first `n` transactions, reported with the final
      counts, give the reference order up to `n`. */
  lemma {:induction false} ReportPrefix(txs: seq<Transaction>, n: nat)
    requires n <= |txs|
    requires forall k :: k in TallyFold(txs[..n]).counts ==> k in TallyFold(txs).counts
    ensures Report(TallyFold(txs[..n]).keys, TallyFold(txs).counts) == FirstRecurring(txs, n)
  {
    if n > 0 {
      var p := txs[..n - 1];
      var t := txs[n - 1];
      assert txs[..n] == p + [t];
      TallyGrows(txs, n - 1);
      ReportPrefix(txs, n - 1);
      if IsCandidate(t) && Key(t) !in TallyFold(p).counts {
        ReportAddsKey(p, t, TallyFold(txs).counts);
        ChargeAtNew(txs, n - 1);
      } else {
        TallyStepKeys(p, t);
        ChargeAtSeen(txs, n - 1);
      }
    }
  }

  /** The report lists the recurring charges in the order their keys first
      occur, each key once: exactly the reference order. */
  lemma RecurringChargesInOrder(txs: seq<Transaction>)
    ensures RecurringCharges(txs) == FirstRecurring(txs, |txs|)
  {
    assert txs[..|txs|] == txs;
    ReportPrefix(txs, |txs|);
  }

  /** For amounts from -50 up, two candidates share a key exactly when they
      share the merchant and the bucket. */
  lemma KeyInjective(t1: Transaction, t2: Transaction)
    requires t1.amount >= -50 && t2.amount >= -50
    ensures Key(t1) == Key(t2) <==> t1.merchant == t2.merchant && Bucket(t1.amount) == Bucket(t2.amount)
  {
    if Key(t1) == Key(t2) {
      SplitAtLastDash(t1.merchant, IntToString(Bucket(t1.amount)), t2.merchant, IntToString(Bucket(t2.amount)));
      IntToStringInjective(Bucket(t1.amount), Bucket(t2.amount));
    }
  }

  /** Below -50 the bucket's '-' merges with the separator: a refund of -100
      at "A" and a charge of 100 at "A-" share the key "A--100". */
  lemma NegativeBucketsCollide(t1: Transaction, t2: Transaction)
    requires t1.merchant == "A" && t1.amount == -100
    requires t2.merchant == "A-" && t2.amount == 100
    ensures Key(t1) == Key(t2) == "A--100"
    ensures Bucket(t1.amount) != Bucket(t2.amount)
  {
    assert NatToString(1) == "1";
    assert NatToString(10) == NatToString(1) + "0";
    assert NatToString(100) == NatToString(10) + "0";
  }

  /** The decimal texts of the two buckets in the example below. */
  lemma BucketTexts()
    ensures IntToString(600) == "600" && IntToString(700) == "700"
  {
    assert NatToString(600) == NatToString(60) + "0" == NatToString(6) + "00" == "600";
    assert NatToString(700) == NatToString(70) + "0" == NatToString(7) + "00" == "700";
  }

  /** Three Netflix debits of 649, 649 and 650: half rounds up, so 650 lands
      in bucket 700 and forms a key of its own. */
  lemma NetflixTally(a: Transaction, b: Transaction, c: Transaction)
    requires a.merchant == b.merchant == c.merchant == "Netflix"
    requires a.txType == b.txType == c.txType == Debit
    requires a.category == b.category == c.category == Entertainment
    requires a.amount == 649 && b.amount == 649 && c.amount == 650
    ensures Key(a) == Key(b) == "Netflix-600" && Key(c) == "Netflix-700"
    ensures TallyFold([a, b, c]) == Tally(["Netflix-600", "Netflix-700"],
      map["Netflix-600" := Entry(2, 649, a.date), "Netflix-700" := Entry(1, 650, c.date)])
  {
    BucketTexts();
    var k6, k7 := "Netflix-600", "Netflix-700";
    assert Bucket(649) == 600 && Bucket(650) == 700;
    assert Key(a) == k6 && Key(b) == k6 && Key(c) == k7;
    assert [a, b, c][..2] == [a, b] && [a, b][..1] == [a] && [a][..0] == [];
    assert TallyFold([a]) == Tally([k6], map[k6 := Entry(1, 649, a.date)]);
    assert TallyFold([a, b]) == Tally([k6], map[k6 := Entry(2, 649, a.date)]);
  }

  /** Charges of 649, 649 and 650 do not collapse into one group of three;
      the code counts two and one. */
  lemma NetflixCounts(a: Transaction, b: Transaction, c: Transaction)
    requires a.merchant == b.merchant == c.merchant == "Netflix"
    requires a.txType == b.txType == c.txType == Debit
    requires a.category == b.category == c.category == Entertainment
    requires a.amount == 649 && b.amount == 649 && c.amount == 650
    ensures KeyCount([a, b, c], "Netflix-600") == 2 && KeyCount([a, b, c], "Netflix-700") == 1
  {
    NetflixTally(a, b, c);
    TallyCounts([a, b, c]);
  }

  /** Of two keys, only the one counted more than once is reported. */
  lemma ReportFirstOfTwo(k1: string, k2: string, e1: Entry, e2: Entry)
    requires k1 != k2 && e1.count > 1 && e2.count <= 1
    ensures Report([k1, k2], map[k1 := e1, k2 := e2]) == [Subscription(BeforeDash(k1), e1.amount, e1.lastDate)]
  {
    var keys, m := [k1, k2], map[k1 := e1, k2 := e2];
    assert keys[1..] == [k2] && keys[1..][1..] == [];
    assert m[k1] == e1 && m[k2] == e2;
    assert Report([k2], m) == [] + Report([], m) == [];
    assert Report(keys, m) == [Subscription(BeforeDash(k1), e1.amount, e1.lastDate)] + Report([k2], m);
  }

  lemma NetflixName()
    ensures BeforeDash("Netflix-600") == "Netflix"
  {
    BeforeDashIgnoresTail("Netflix", "600");
    assert "Netflix" + "-" + "600" == "Netflix-600";
    BeforeDashNoDash("Netflix");
  }

  /** Of the three, only the two charges of 649 form a subscription, reported
      with the first one's amount and date. */
  lemma NetflixCharges(a: Transaction, b: Transaction, c: Transaction)
    requires a.merchant == b.merchant == c.merchant == "Netflix"
    requires a.txType == b.txType == c.txType == Debit
    requires a.category == b.category == c.category == Entertainment
    requires a.amount == 649 && b.amount == 649 && c.amount == 650
    ensures RecurringCharges([a, b, c]) == [Subscription("Netflix", 649, a.date)]
  {
    NetflixTally(a, b, c);
    NetflixName();
    ReportFirstOfTwo("Netflix-600", "Netflix-700", Entry(2, 649, a.date), Entry(1, 650, c.date));
  }
}
