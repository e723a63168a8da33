/** The ledger reducer of App.tsx (`handleAddTransaction` …
    `handleVaultTransfer`). Every handler in the source hands React an updater
    `prev => ({...prev, …})`; here each one is a function from the previous
    `UserContext` to the next. The transaction id (`Date.now()`), today's day
    number (`new Date()`) and the provenance hash (`Math.random()`) are
    parameters.

    The invariant that ties the handlers together is reconciliation:
    `currentBalance − Σ credits + Σ debits` over the ledger (`Anchor`) never
    changes. */
module Ledger {
  import opened Types

  /** `userContext.walletAddress ? … : …`: a wallet counts as connected only
      when its address is a non-empty string. */
  predicate HasWallet(s: UserContext)
  {
    s.walletAddress.Some? && s.walletAddress.value != ""
  }

  /** The balance change a transaction stands for. */
  function Signed(t: Transaction): int
  {
    if t.txType == Debit then -t.amount else t.amount
  }

  /** Σ credits − Σ debits over a ledger. */
  function Net(txs: seq<Transaction>): int
  {
    if txs == [] then 0 else Signed(txs[0]) + Net(txs[1..])
  }

  /** The balance the ledger reconciles to: `currentBalance − Σ credits + Σ debits`. */
  function Anchor(s: UserContext): int
  {
    s.currentBalance - Net(s.transactions)
  }

  lemma NetPrepend(t: Transaction, txs: seq<Transaction>)
    ensures Net([t] + txs) == Signed(t) + Net(txs)
  {
    assert ([t] + txs)[1..] == txs;
  }

  /** How many transactions of the ledger carry the id `id`. */
  function CountId(txs: seq<Transaction>, id: string): nat
  {
    if txs == [] then 0 else (if txs[0].id == id then 1 else 0) + CountId(txs[1..], id)
  }

  /** Every id occurs at most once. */
  ghost predicate UniqueIds(txs: seq<Transaction>)
  {
    forall id :: CountId(txs, id) <= 1
  }

  /** The new state keeps every field but the ones a handler names. */
  predicate SameExceptLedger(r: UserContext, s: UserContext)
  {
    r.(currentBalance := s.currentBalance, transactions := s.transactions, finTokens := s.finTokens) == s
  }

  // ---------------------------------------------------------------- add

  /** The fields of a `Partial<Transaction>` that `handleAddTransaction` reads. */
  datatype PartialTx = PartialTx(
    merchant: Option<string>,
    amount: Option<int>,
    category: Option<Category>,
    txType: Option<TxType>,
    payMethod: Option<PayMethod>)

  /** The `newTx` literal of `handleAddTransaction`: every missing (falsy)
      field takes its default, and a connected wallet stamps a hash. */
  function FillDefaults(p: PartialTx, id: string, today: int, wallet: bool, hash: string): (t: Transaction)
    ensures t.id == id && t.date == today
    ensures t.merchant != ""
    ensures p.merchant.Some? && p.merchant.value != "" ==> t.merchant == p.merchant.value
    ensures p.merchant.None? || p.merchant == Some("") ==> t.merchant == "Unknown"
    ensures t.amount == (if p.amount.Some? then p.amount.value else 0)
    ensures p.category.Some? ==> t.category == p.category.value
    ensures p.category.None? ==> t.category == Other
    ensures p.txType.Some? ==> t.txType == p.txType.value
    ensures p.txType.None? ==> t.txType == Debit
    ensures p.payMethod.Some? ==> t.payMethod == p.payMethod.value
    ensures p.payMethod.None? ==> t.payMethod == UPI
    ensures t.txHash.Some? <==> wallet
    ensures t.blockStatus.Some? <==> wallet
    ensures t.txHash.Some? ==> t.txHash == Some(hash) && t.blockStatus == Some(Verified)
  {
    Transaction(
      id,
      today,
      match p.merchant case Some(m) => if m != "" then m else "Unknown" case None => "Unknown",
      match p.amount case Some(a) => a case None => 0,
      match p.category case Some(c) => c case None => Other,
      match p.txType case Some(k) => k case None => Debit,
      match p.payMethod case Some(m) => m case None => UPI,
      if wallet then Some(hash) else None,
      if wallet then Some(Verified) else None)
  }

  /** `handleAddTransaction`. */
  function AddTransaction(s: UserContext, p: PartialTx, id: string, today: int, hash: string): (r: UserContext)
    ensures |r.transactions| == |s.transactions| + 1 && r.transactions[1..] == s.transactions
    ensures r.transactions[0] == FillDefaults(p, id, today, HasWallet(s), hash)
    ensures r.transactions[0].txType == Debit ==> r.currentBalance == s.currentBalance - r.transactions[0].amount
    ensures r.transactions[0].txType == Credit ==> r.currentBalance == s.currentBalance + r.transactions[0].amount
    ensures r.finTokens == s.finTokens + 10
    ensures r.transactions[0].txHash.Some? <==> HasWallet(s)
    ensures SameExceptLedger(r, s)
    ensures Anchor(r) == Anchor(s)
  {
    var t := FillDefaults(p, id, today, HasWallet(s), hash);
    NetPrepend(t, s.transactions);
    s.(currentBalance := s.currentBalance + Signed(t),
       transactions := [t] + s.transactions,
       finTokens := s.finTokens + 10)
  }

  // ---------------------------------------------------------------- delete

  /** `i` is the first position of the ledger whose id is `id`. */
  predicate FirstWithId(txs: seq<Transaction>, id: string, i: int)
  {
    0 <= i < |txs| && txs[i].id == id && forall j :: 0 <= j < i ==> txs[j].id != id
  }

  /** `transactions.find(t => t.id === id)`. */
  function FindTx(txs: seq<Transaction>, id: string): (r: Option<Transaction>)
    ensures r.None? <==> CountId(txs, id) == 0
    ensures r.Some? ==> exists i :: FirstWithId(txs, id, i) && txs[i] == r.value
  {
    if txs == [] then None
    else if txs[0].id == id then (assert FirstWithId(txs, id, 0); Some(txs[0]))
    else
      var r := FindTx(txs[1..], id);
      if r.Some? then
        var i :| FirstWithId(txs[1..], id, i) && txs[1..][i] == r.value;
        assert FirstWithId(txs, id, i + 1);
        r
      else r
  }

  /** `transactions.filter(t => t.id !== id)`. */
  function RemoveId(txs: seq<Transaction>, id: string): (r: seq<Transaction>)
    ensures forall t :: t in r <==> t in txs && t.id != id
    ensures forall k :: CountId(r, k) == if k == id then 0 else CountId(txs, k)
    ensures |r| == |txs| - CountId(txs, id)
    ensures Subsequence(r, txs)
    ensures forall t :: multiset(r)[t] == if t.id == id then 0 else multiset(txs)[t]
  {
    if txs == [] then []
    else
      assert txs == [txs[0]] + txs[1..];
      if txs[0].id == id then RemoveId(txs[1..], id)
      else
        var r := [txs[0]] + RemoveId(txs[1..], id);
        assert r[1..] == RemoveId(txs[1..], id);
        r
  }

  /** Filtering out an id nobody carries leaves the ledger as it is. */
  lemma {:induction false} RemoveAbsentId(txs: seq<Transaction>, id: string)
    requires CountId(txs, id) == 0
    ensures RemoveId(txs, id) == txs
  {
    if txs != [] {
      RemoveAbsentId(txs[1..], id);
    }
  }

  /** `handleDeleteTransaction`. */
  function DeleteTransaction(s: UserContext, id: string): (r: UserContext)
    ensures CountId(s.transactions, id) == 0 ==> r == s
    ensures CountId(s.transactions, id) > 0 ==>
      var t := FindTx(s.transactions, id).value;
      && t in s.transactions && t.id == id
      && (t.txType == Debit ==> r.currentBalance == s.currentBalance + t.amount)
      && (t.txType == Credit ==> r.currentBalance == s.currentBalance - t.amount)
      && r.transactions == RemoveId(s.transactions, id)
    ensures CountId(r.transactions, id) == 0
    ensures r.finTokens == s.finTokens
    ensures SameExceptLedger(r, s)
  {
    match FindTx(s.transactions, id)
    case None => s
    case Some(t) =>
      s.(currentBalance := s.currentBalance - Signed(t),
         transactions := RemoveId(s.transactions, id))
  }

  /** Removing the one transaction with a given id removes its signed amount
      from the ledger's net. */
  lemma {:induction false} NetRemoveUnique(txs: seq<Transaction>, id: string)
    requires CountId(txs, id) == 1
    ensures Net(RemoveId(txs, id)) == Net(txs) - Signed(FindTx(txs, id).value)
  {
    if txs[0].id == id {
      RemoveAbsentId(txs[1..], id);
    } else {
      NetRemoveUnique(txs[1..], id);
      assert RemoveId(txs, id) == [txs[0]] + RemoveId(txs[1..], id);
      NetPrepend(txs[0], RemoveId(txs[1..], id));
    }
  }

  /** Deleting keeps the ledger reconciled when ids are unique. */
  lemma DeleteReconciles(s: UserContext, id: string)
    requires CountId(s.transactions, id) <= 1
    ensures Anchor(DeleteTransaction(s, id)) == Anchor(s)
  {
    if CountId(s.transactions, id) == 1 {
      NetRemoveUnique(s.transactions, id);
    }
  }

  /** With two transactions under one id, delete reverses one amount but
      removes both, and the ledger no longer reconciles. */
  lemma DeleteDuplicateIdBreaksReconciliation()
    ensures
      var t := Transaction("1", 0, "Swiggy", 450, Food, Debit, UPI, None, None);
      var s := UserContext(0, 0, 0, [t, t], [], [], None, 0, map[]);
      Anchor(DeleteTransaction(s, "1")) == Anchor(s) - 450
  {
    var t := Transaction("1", 0, "Swiggy", 450, Food, Debit, UPI, None, None);
    assert [t, t][1..] == [t];
    assert RemoveId([t], "1") == [];
  }

  /** Adding under a fresh id and deleting it again restores the balance and
      the ledger; only the 10 tokens of the add remain. */
  lemma AddThenDelete(s: UserContext, p: PartialTx, id: string, today: int, hash: string)
    requires CountId(s.transactions, id) == 0
    ensures DeleteTransaction(AddTransaction(s, p, id, today, hash), id)
         == s.(finTokens := s.finTokens + 10)
  {
    var a := AddTransaction(s, p, id, today, hash);
    assert a.transactions == [a.transactions[0]] + s.transactions;
    RemoveAbsentId(s.transactions, id);
  }

  /** A transaction's fields, fed back to `handleAddTransaction`. */
  function Resubmission(t: Transaction): PartialTx
  {
    PartialTx(Some(t.merchant), Some(t.amount), Some(t.category), Some(t.txType), Some(t.payMethod))
  }

  /** Deleting a transaction and logging the same one again restores the
      balance (under a new id and date). */
  lemma DeleteThenReAdd(s: UserContext, id: string, newId: string, today: int, hash: string)
    requires CountId(s.transactions, id) > 0
    ensures
      var t := FindTx(s.transactions, id).value;
      AddTransaction(DeleteTransaction(s, id), Resubmission(t), newId, today, hash).currentBalance
        == s.currentBalance
  {
  }

  // ---------------------------------------------------------------- bills

  /** `bills.find(b => b.id === id)`. */
  function FindBill(bills: seq<Bill>, id: string): (r: Option<Bill>)
    ensures r.None? <==> forall i :: 0 <= i < |bills| ==> bills[i].id != id
    ensures r.Some? ==> exists i :: 0 <= i < |bills| && bills[i] == r.value && r.value.id == id
                                  && forall j :: 0 <= j < i ==> bills[j].id != id
  {
    if bills == [] then None
    else if bills[0].id == id then Some(bills[0])
    else
      var r := FindBill(bills[1..], id);
      if r.Some? then
        var i :| 0 <= i < |bills[1..]| && bills[1..][i] == r.value && r.value.id == id
                 && forall j :: 0 <= j < i ==> bills[1..][j].id != id;
        assert bills[i + 1] == r.value;
        r
      else r
  }

  /** `bills.map(b => b.id === id ? {...b, isPaid: true} : b)`. */
  function PayBills(bills: seq<Bill>, id: string): (r: seq<Bill>)
    ensures |r| == |bills|
    ensures forall i :: 0 <= i < |bills| ==>
      r[i] == if bills[i].id == id then bills[i].(isPaid := true) else bills[i]
  {
    if bills == [] then []
    else [if bills[0].id == id then bills[0].(isPaid := true) else bills[0]] + PayBills(bills[1..], id)
  }

  /** After paying, the first bill under `id` is the one found before, now paid. */
  lemma {:induction false} FindAfterPay(bills: seq<Bill>, id: string)
    ensures FindBill(PayBills(bills, id), id)
         == if FindBill(bills, id).Some? then Some(FindBill(bills, id).value.(isPaid := true)) else None
  {
    if bills != [] && bills[0].id != id {
      FindAfterPay(bills[1..], id);
      assert PayBills(bills, id)[1..] == PayBills(bills[1..], id);
    }
  }

  /** `handleMarkBillPaid`. */
  function MarkBillPaid(s: UserContext, id: string, txId: string, today: int, hash: string): (r: UserContext)
    ensures FindBill(s.bills, id).None? || FindBill(s.bills, id).value.isPaid ==> r == s
    ensures FindBill(s.bills, id).Some? && !FindBill(s.bills, id).value.isPaid ==>
      var b := FindBill(s.bills, id).value;
      && r.currentBalance == s.currentBalance - b.amount
      && r.finTokens == s.finTokens + 50
      && r.bills == PayBills(s.bills, id)
      && |r.transactions| == |s.transactions| + 1 && r.transactions[1..] == s.transactions
      && r.transactions[0] == Transaction(txId, today, b.name, b.amount, Bills, Debit, UPI,
                                          if HasWallet(s) then Some(hash) else None,
                                          if HasWallet(s) then Some(Verified) else None)
      && r.(currentBalance := s.currentBalance, transactions := s.transactions,
            finTokens := s.finTokens, bills := s.bills) == s
    ensures Anchor(r) == Anchor(s)
  {
    match FindBill(s.bills, id)
    case None => s
    case Some(b) =>
      if b.isPaid then s
      else
        var wallet := HasWallet(s);
        var t := Transaction(txId, today, b.name, b.amount, Bills, Debit, UPI,
                             if wallet then Some(hash) else None,
                             if wallet then Some(Verified) else None);
        NetPrepend(t, s.transactions);
        s.(currentBalance := s.currentBalance - b.amount,
           bills := PayBills(s.bills, id),
           transactions := [t] + s.transactions,
           finTokens := s.finTokens + 50)
  }

  /** Paying a bill twice has the effect of paying it once, whatever ids and
      hashes the second call draws. */
  lemma MarkBillPaidIdempotent(s: UserContext, id: string, txId: string, today: int, hash: string,
                               txId2: string, today2: int, hash2: string)
    ensures var once := MarkBillPaid(s, id, txId, today, hash);
            MarkBillPaid(once, id, txId2, today2, hash2) == once
  {
    FindAfterPay(s.bills, id);
  }

  // ---------------------------------------------------------------- goals

  /** `handleAddGoal`: the goal is appended as given. */
  function AddGoal(s: UserContext, g: Goal): (r: UserContext)
    ensures r.goals == s.goals + [g]
    ensures r.(goals := s.goals) == s
    ensures Anchor(r) == Anchor(s)
  {
    s.(goals := s.goals + [g])
  }

  /** `goals.map(g => g.id === goalId ? {...g, currentAmount: g.currentAmount + amount} : g)`. */
  function StakeGoals(goals: seq<Goal>, goalId: string, amount: int): (r: seq<Goal>)
    ensures |r| == |goals|
    ensures forall i :: 0 <= i < |goals| ==>
      r[i] == if goals[i].id == goalId then goals[i].(currentAmount := goals[i].currentAmount + amount)
              else goals[i]
  {
    if goals == [] then []
    else
      [if goals[0].id == goalId then goals[0].(currentAmount := goals[0].currentAmount + amount) else goals[0]]
      + StakeGoals(goals[1..], goalId, amount)
  }

  /** `handleStakeToGoal`: one Transfer/Crypto debit with a hash; tokens rise
      by ⌊amount/100⌋ (Dafny's `/` by a positive divisor is the floor). No
      check that the goal exists. */
  function StakeToGoal(s: UserContext, goalId: string, amount: int, txId: string, today: int, hash: string): (r: UserContext)
    ensures r.currentBalance == s.currentBalance - amount
    ensures r.goals == StakeGoals(s.goals, goalId, amount)
    ensures (r.finTokens - s.finTokens) * 100 <= amount < (r.finTokens - s.finTokens + 1) * 100
    ensures |r.transactions| == |s.transactions| + 1 && r.transactions[1..] == s.transactions
    ensures r.transactions[0] == Transaction(txId, today, "Smart Contract Deposit", amount, Transfer,
                                             Debit, Crypto, Some(hash), Some(Verified))
    ensures r.(currentBalance := s.currentBalance, transactions := s.transactions,
               finTokens := s.finTokens, goals := s.goals) == s
    ensures Anchor(r) == Anchor(s)
  {
    var t := Transaction(txId, today, "Smart Contract Deposit", amount, Transfer, Debit, Crypto,
                         Some(hash), Some(Verified));
    NetPrepend(t, s.transactions);
    s.(currentBalance := s.currentBalance - amount,
       finTokens := s.finTokens + amount / 100,
       transactions := [t] + s.transactions,
       goals := StakeGoals(s.goals, goalId, amount))
  }

  /** Staking to an id no goal carries still debits the wallet. */
  lemma StakeToMissingGoalStillDebits(s: UserContext, goalId: string, amount: int, txId: string, today: int, hash: string)
    requires forall i :: 0 <= i < |s.goals| ==> s.goals[i].id != goalId
    ensures var r := StakeToGoal(s, goalId, amount, txId, today, hash);
            r.goals == s.goals && r.currentBalance == s.currentBalance - amount
  {
    var r := StakeToGoal(s, goalId, amount, txId, today, hash);
    assert r.goals == s.goals;
  }

  // ---------------------------------------------------------------- income and budgets

  /** `handleUpdateIncome`: `newIncome` is the parsed prompt answer, `None`
      when the prompt was cancelled, empty or not a number. */
  function UpdateIncome(s: UserContext, newIncome: Option<int>): (r: UserContext)
    ensures newIncome.None? ==> r == s
    ensures newIncome.Some? ==> r.monthlyIncome == newIncome.value
    ensures r.(monthlyIncome := s.monthlyIncome) == s
  {
    match newIncome
    case None => s
    case Some(v) => s.(monthlyIncome := v)
  }

  /** `handleUpdateBudget`: only the entry for `category` is set, and it is
      created when missing. */
  function UpdateBudget(s: UserContext, category: string, newLimit: Option<int>): (r: UserContext)
    ensures newLimit.None? ==> r == s
    ensures newLimit.Some? ==> category in r.budgets && r.budgets[category] == newLimit.value
    ensures r.budgets.Keys == s.budgets.Keys + (if newLimit.Some? then {category} else {})
    ensures forall k :: k in s.budgets && k != category ==> r.budgets[k] == s.budgets[k]
    ensures r.(budgets := s.budgets) == s
  {
    match newLimit
    case None => s
    case Some(v) => s.(budgets := s.budgets[category := v])
  }

  // ---------------------------------------------------------------- transfers

  /** `handleP2PTransfer`: a Transfer/Crypto debit to the recipient, 25 tokens. */
  function P2PTransfer(s: UserContext, recipient: string, amount: int, txId: string, today: int, hash: string): (r: UserContext)
    ensures r.currentBalance == s.currentBalance - amount
    ensures r.finTokens == s.finTokens + 25
    ensures |r.transactions| == |s.transactions| + 1 && r.transactions[1..] == s.transactions
    ensures r.transactions[0] == Transaction(txId, today, "Transfer to " + recipient, amount, Transfer,
                                             Debit, Crypto, Some(hash), Some(Verified))
    ensures SameExceptLedger(r, s)
    ensures Anchor(r) == Anchor(s)
  {
    var t := Transaction(txId, today, "Transfer to " + recipient, amount, Transfer, Debit, Crypto,
                         Some(hash), Some(Verified));
    NetPrepend(t, s.transactions);
    s.(currentBalance := s.currentBalance - amount,
       transactions := [t] + s.transactions,
       finTokens := s.finTokens + 25)
  }

  /** The two tabs of the vault: `'deposit' | 'withdraw'`. */
  datatype VaultDirection = Deposit | Withdraw

  /** `handleVaultTransfer`: money moves between wallet and vault; a deposit is
      recorded as a debit, a withdrawal as a credit; no tokens. */
  function VaultTransfer(s: UserContext, amount: int, dir: VaultDirection, txId: string, today: int, hash: string): (r: UserContext)
    ensures r.currentBalance + r.vaultBalance == s.currentBalance + s.vaultBalance
    ensures dir == Deposit ==> r.currentBalance == s.currentBalance - amount
    ensures dir == Withdraw ==> r.vaultBalance == s.vaultBalance - amount
    ensures |r.transactions| == |s.transactions| + 1 && r.transactions[1..] == s.transactions
    ensures r.transactions[0] == Transaction(txId, today,
                                             if dir == Deposit then "FinVault Deposit" else "FinVault Withdrawal",
                                             amount, Transfer, if dir == Deposit then Debit else Credit, Crypto,
                                             Some(hash), Some(Verified))
    ensures r.finTokens == s.finTokens
    ensures r.(currentBalance := s.currentBalance, vaultBalance := s.vaultBalance,
               transactions := s.transactions) == s
    ensures Anchor(r) == Anchor(s)
  {
    var t := Transaction(txId, today,
                         if dir == Deposit then "FinVault Deposit" else "FinVault Withdrawal",
                         amount, Transfer, if dir == Deposit then Debit else Credit, Crypto,
                         Some(hash), Some(Verified));
    NetPrepend(t, s.transactions);
    if dir == Deposit then
      s.(currentBalance := s.currentBalance - amount, vaultBalance := s.vaultBalance + amount,
         transactions := [t] + s.transactions)
    else
      s.(currentBalance := s.currentBalance + amount, vaultBalance := s.vaultBalance - amount,
         transactions := [t] + s.transactions)
  }

  /** A deposit followed by a withdrawal of the same amount restores both balances. */
  lemma VaultRoundTrip(s: UserContext, amount: int, id1: string, id2: string, today: int, h1: string, h2: string)
    ensures var r := VaultTransfer(VaultTransfer(s, amount, Deposit, id1, today, h1), amount, Withdraw, id2, today, h2);
            r.currentBalance == s.currentBalance && r.vaultBalance == s.vaultBalance
            && |r.transactions| == |s.transactions| + 2
  {
  }

  // ---------------------------------------------------------------- sequences of actions

  /** One user action, with the id, day and hash it draws. */
  datatype Action =
    | AddTx(partial: PartialTx, id: string, today: int, hash: string)
    | DeleteTx(target: string)
    | PayBill(billId: string, id: string, today: int, hash: string)
    | NewGoal(goal: Goal)
    | Stake(goalId: string, amount: int, id: string, today: int, hash: string)
    | SetIncome(income: Option<int>)
    | SetBudget(category: string, limit: Option<int>)
    | SendP2P(recipient: string, amount: int, id: string, today: int, hash: string)
    | MoveVault(amount: int, dir: VaultDirection, id: string, today: int, hash: string)

  function Apply(s: UserContext, a: Action): UserContext
  {
    match a
    case AddTx(p, id, today, hash) => AddTransaction(s, p, id, today, hash)
    case DeleteTx(id) => DeleteTransaction(s, id)
    case PayBill(b, id, today, hash) => MarkBillPaid(s, b, id, today, hash)
    case NewGoal(g) => AddGoal(s, g)
    case Stake(g, amount, id, today, hash) => StakeToGoal(s, g, amount, id, today, hash)
    case SetIncome(v) => UpdateIncome(s, v)
    case SetBudget(c, v) => UpdateBudget(s, c, v)
    case SendP2P(to, amount, id, today, hash) => P2PTransfer(s, to, amount, id, today, hash)
    case MoveVault(amount, dir, id, today, hash) => VaultTransfer(s, amount, dir, id, today, hash)
  }

  /** The actions applied one after another, as React applies the updaters. */
  function Run(s: UserContext, actions: seq<Action>): UserContext
    decreases |actions|
  {
    if actions == [] then s else Run(Apply(s, actions[0]), actions[1..])
  }

  /** An action that may prepend a transaction draws an id the ledger does not hold yet. */
  predicate FreshFor(s: UserContext, a: Action)
  {
    match a
    case AddTx(_, id, _, _) => CountId(s.transactions, id) == 0
    case PayBill(_, id, _, _) => CountId(s.transactions, id) == 0
    case Stake(_, _, id, _, _) => CountId(s.transactions, id) == 0
    case SendP2P(_, _, id, _, _) => CountId(s.transactions, id) == 0
    case MoveVault(_, _, id, _, _) => CountId(s.transactions, id) == 0
    case _ => true
  }

  /** Every action of the run draws a fresh id in the state it meets. */
  predicate FreshRun(s: UserContext, actions: seq<Action>)
    decreases |actions|
  {
    actions == [] || (FreshFor(s, actions[0]) && FreshRun(Apply(s, actions[0]), actions[1..]))
  }

  lemma CountIdPrepend(t: Transaction, txs: seq<Transaction>, id: string)
    ensures CountId([t] + txs, id) == (if t.id == id then 1 else 0) + CountId(txs, id)
  {
    assert ([t] + txs)[1..] == txs;
  }

  /** One action keeps ids unique and the ledger reconciled. */
  lemma ApplyReconciles(s: UserContext, a: Action)
    requires UniqueIds(s.transactions) && FreshFor(s, a)
    ensures UniqueIds(Apply(s, a).transactions)
    ensures Anchor(Apply(s, a)) == Anchor(s)
  {
    var r := Apply(s, a);
    if a.DeleteTx? {
      DeleteReconciles(s, a.target);
    } else if |r.transactions| == |s.transactions| + 1 {
      var t := r.transactions[0];
      assert r.transactions == [t] + s.transactions;
      forall id
        ensures CountId(r.transactions, id) <= 1
      {
        CountIdPrepend(t, s.transactions, id);
      }
    }
  }

  /** Reconciliation over any run of actions with fresh ids: the balance is
      always the seed balance plus the credits minus the debits in the ledger. */
  lemma {:induction false} RunReconciles(s: UserContext, actions: seq<Action>)
    requires UniqueIds(s.transactions) && FreshRun(s, actions)
    ensures UniqueIds(Run(s, actions).transactions)
    ensures Anchor(Run(s, actions)) == Anchor(s)
    decreases |actions|
  {
    if actions != [] {
      ApplyReconciles(s, actions[0]);
      RunReconciles(Apply(s, actions[0]), actions[1..]);
    }
  }
}
