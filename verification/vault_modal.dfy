/** The FinVault dialog of components/VaultModal.tsx: a deposit/withdraw
    tab, an amount input ("" is `None`) and a processing flag.
    `handleTransfer` is asynchronous: its check and `setIsProcessing(true)`
    run at once; 1.5 seconds later it calls `onTransfer` with the amount and
    tab of the render it was started from, clears the flag and the amount,
    and calls `onClose`. The model splits it into `HandleTransfer` and
    `ResumeTransfer`; waiting handlers resume oldest first. */
module VaultDialog {
  import opened Types
  import opened Ledger

  /** A `handleTransfer` call waiting for the simulated contract. */
  datatype PendingTransfer = PendingTransfer(amount: int, tab: VaultDirection)

  datatype VaultEffect = OnTransfer(amount: int, dir: VaultDirection) | OnClose

  /** `maxAmount`: the wallet balance on the deposit tab, the vault balance
      on the withdraw tab. */
  function MaxAmount(tab: VaultDirection, walletBalance: int, vaultBalance: int): int
  {
    if tab == Deposit then walletBalance else vaultBalance
  }

  /** The guard of `handleTransfer`: an empty or non-positive amount is
      rejected. It has no upper bound. */
  predicate TransferAccepted(amount: Option<int>)
  {
    amount.Some? && !(amount.value <= 0)
  }

  /** The transfer button's `disabled` condition. */
  predicate TransferDisabled(amount: Option<int>, maxAmount: int, isProcessing: bool)
  {
    amount.None? || amount.value <= 0 || amount.value > maxAmount || isProcessing
  }

  /** The button is enabled exactly for an amount the handler accepts that
      does not exceed `maxAmount`, while nothing is processing. */
  lemma TransferButtonGuard(amount: Option<int>, maxAmount: int, isProcessing: bool)
    ensures !TransferDisabled(amount, maxAmount, isProcessing) <==>
            TransferAccepted(amount) && amount.value <= maxAmount && !isProcessing
  {
  }

  /** The handler alone does not bound the amount: 500 is accepted with
      nothing in the wallet; only the button's condition stops it. */
  lemma HandlerHasNoUpperBound()
    ensures TransferAccepted(Some(500))
    ensures TransferDisabled(Some(500), MaxAmount(Deposit, 0, 1000), false)
  {
  }

  /** A transfer the button allows, applied to the balances it was checked
      against, leaves both balances non-negative and their sum unchanged. */
  lemma EnabledTransferKeepsBalances(s: UserContext, amount: Option<int>, tab: VaultDirection,
                                     txId: string, today: int, hash: string)
    requires s.currentBalance >= 0 && s.vaultBalance >= 0
    requires !TransferDisabled(amount, MaxAmount(tab, s.currentBalance, s.vaultBalance), false)
    ensures var r := VaultTransfer(s, amount.value, tab, txId, today, hash);
            r.currentBalance >= 0 && r.vaultBalance >= 0 &&
            r.currentBalance + r.vaultBalance == s.currentBalance + s.vaultBalance
  {
  }

  class VaultModal {
    var activeTab: VaultDirection
    var amount: Option<int>
    var isProcessing: bool
    /** Handlers waiting for the simulated contract, oldest first. */
    var pending: seq<PendingTransfer>

    constructor()
      ensures activeTab == Deposit && amount == None && !isProcessing && pending == []
    {
      activeTab := Deposit;
      amount := None;
      isProcessing := false;
      pending := [];
    }

    /** Clicking a tab selects it and clears the amount. */
    method SelectTab(tab: VaultDirection)
      modifies this
      ensures activeTab == tab && amount == None
      ensures isProcessing == old(isProcessing) && pending == old(pending)
    {
      activeTab := tab;
      amount := None;
    }

    /** Typing into the amount input. */
    method EnterAmount(v: Option<int>)
      modifies this
      ensures amount == v
      ensures activeTab == old(activeTab) && isProcessing == old(isProcessing) && pending == old(pending)
    {
      amount := v;
    }

    /** The MAX button fills in `maxAmount` for the current tab. */
    method SetMax(walletBalance: int, vaultBalance: int)
      modifies this
      ensures amount == Some(MaxAmount(activeTab, walletBalance, vaultBalance))
      ensures activeTab == old(activeTab) && isProcessing == old(isProcessing) && pending == old(pending)
    {
      amount := Some(MaxAmount(activeTab, walletBalance, vaultBalance));
    }

    /** `handleTransfer` up to its `await`. */
    method HandleTransfer() returns (started: bool)
      modifies this
      ensures started <==> TransferAccepted(old(amount))
      ensures started ==> isProcessing && pending == old(pending) + [PendingTransfer(old(amount).value, old(activeTab))]
      ensures !started ==> isProcessing == old(isProcessing) && pending == old(pending)
      ensures activeTab == old(activeTab) && amount == old(amount)
    {
      if amount.None? || amount.value <= 0 {
        return false;
      }
      isProcessing := true;
      pending := pending + [PendingTransfer(amount.value, activeTab)];
      started := true;
    }

    /** The rest of the oldest waiting `handleTransfer`: `onTransfer` with
        the captured amount and tab, then the dialog resets and closes. */
    method ResumeTransfer() returns (effects: seq<VaultEffect>)
      requires pending != []
      modifies this
      ensures effects == [OnTransfer(old(pending)[0].amount, old(pending)[0].tab), OnClose]
      ensures !isProcessing && amount == None && pending == old(pending)[1..]
      ensures activeTab == old(activeTab)
    {
      var p := pending[0];
      pending := pending[1..];
      effects := [OnTransfer(p.amount, p.tab)];
      isProcessing := false;
      amount := None;
      effects := effects + [OnClose];
    }

    /** The header's close button calls `onClose` and keeps the state. */
    method CloseButton() returns (effects: seq<VaultEffect>)
      ensures effects == [OnClose]
    {
      effects := [OnClose];
    }
  }

  /** A transfer from submit to completion moves the amount shown in the
      input on the tab that was selected, then closes the dialog. */
  method TransferOnce(m: VaultModal) returns (effects: seq<VaultEffect>)
    requires m.pending == [] && TransferAccepted(m.amount)
    modifies m
    ensures effects == [OnTransfer(old(m.amount).value, old(m.activeTab)), OnClose]
    ensures !m.isProcessing && m.amount == None && m.pending == []
  {
    var started := m.HandleTransfer();
    effects := m.ResumeTransfer();
  }
}
