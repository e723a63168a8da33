/** The peer-to-peer dialog of components/SendMoneyModal.tsx: recipient and
    amount inputs, a status `idle → scanning → confirming → success` and the
    last confirmation hash. `handleSend` awaits twice (1 s scanning, 1.5 s
    confirming). The model splits it into `HandleSend`, `ResumeScan` and
    `ResumeConfirm`. Every waiting handler keeps the recipient and amount of
    the render it was started from. Handlers wait equally long, so each
    stage completes oldest first: `pending` lists them oldest first, and the
    first `scanned` of them are past the scanning wait. */
module SendDialog {
  import opened Types
  import opened Ledger

  datatype SendStatus = Idle | Scanning | Confirming | Success

  /** A `handleSend` call still waiting. */
  datatype PendingSend = PendingSend(recipient: string, amount: int)

  datatype SendEffect = OnSend(recipient: string, amount: int) | OnClose

  /** The guard of `handleSend`: `!recipient || !amount` rejects, on the raw
      input strings, so "0" and negative amounts pass. */
  predicate SendAccepted(recipient: string, amount: Option<int>)
  {
    recipient != "" && amount.Some?
  }

  /** The submit button's `disabled` condition. */
  predicate SendDisabled(status: SendStatus, recipient: string, amount: Option<int>, currentBalance: int)
  {
    status != Idle || amount.None? || recipient == "" || amount.value > currentBalance
  }

  /** The inputs are disabled whenever the status is not idle. */
  predicate InputsDisabled(status: SendStatus)
  {
    status != Idle
  }

  /** The button is enabled exactly for an accepted send within the balance
      while idle; it is disabled while a send is scanning or confirming. */
  lemma SendButtonGuard(status: SendStatus, recipient: string, amount: Option<int>, currentBalance: int)
    ensures !SendDisabled(status, recipient, amount, currentBalance) <==>
            status == Idle && SendAccepted(recipient, amount) && amount.value <= currentBalance
    ensures InputsDisabled(status) ==> SendDisabled(status, recipient, amount, currentBalance)
  {
  }

  /** Nothing stops a negative amount: the button lets it through and the
      ledger then credits the sender and still awards 25 tokens. */
  lemma NegativeSendCredits(s: UserContext, recipient: string, amount: int, txId: string, today: int, hash: string)
    requires recipient != "" && amount < 0 && s.currentBalance >= 0
    ensures !SendDisabled(Idle, recipient, Some(amount), s.currentBalance)
    ensures var r := P2PTransfer(s, recipient, amount, txId, today, hash);
            r.currentBalance > s.currentBalance && r.finTokens == s.finTokens + 25
  {
  }

  /** A send the button allows, applied to the balance it was checked
      against, leaves that balance non-negative when the amount is not
      negative. */
  lemma EnabledSendKeepsBalance(s: UserContext, recipient: string, amount: Option<int>,
                                txId: string, today: int, hash: string)
    requires !SendDisabled(Idle, recipient, amount, s.currentBalance) && amount.value >= 0
    ensures P2PTransfer(s, recipient, amount.value, txId, today, hash).currentBalance >= 0
  {
  }

  /** The send form (both inputs and the submit button) is rendered only
      while the status is not success; the success view replaces it. */
  predicate FormShown(status: SendStatus)
  {
    status != Success
  }

  /** What moves the status: a submit, the end of the scanning wait, the
      end of the confirming wait, or a close. */
  datatype SendEvent = Start | ScanDone | ConfirmDone | Close

  /** The status moves each event allows: a submit (only from idle: the
      form is hidden on success, and its inputs and button are disabled
      otherwise) keeps the status or enters scanning, a finished scanning wait shows
      confirming, a finished confirming wait shows success, and a close
      returns to idle. */
  predicate StatusStep(from: SendStatus, ev: SendEvent, to: SendStatus)
  {
    match ev
    case Start => from == Idle && (to == from || to == Scanning)
    case ScanDone => to == Confirming
    case ConfirmDone => to == Success
    case Close => to == Idle
  }

  /** `statuses[i + 1]` follows from `statuses[i]` by `events[i]`. */
  predicate StatusRun(statuses: seq<SendStatus>, events: seq<SendEvent>)
  {
    |statuses| == |events| + 1 &&
    forall i :: 0 <= i < |events| ==> StatusStep(statuses[i], events[i], statuses[i + 1])
  }

  /** Once success is shown, no new send starts: the status stays success
      until the dialog is closed or a send started before an earlier close
      finishes its scanning wait. */
  lemma {:induction false} SuccessHoldsUntilClose(statuses: seq<SendStatus>, events: seq<SendEvent>)
    requires StatusRun(statuses, events) && statuses[0] == Success
    requires forall i :: 0 <= i < |events| ==> events[i] != Close && events[i] != ScanDone
    ensures forall i :: 0 <= i < |statuses| ==> statuses[i] == Success
  {
    if events != [] {
      assert StatusStep(statuses[0], events[0], statuses[1]);
      assert StatusRun(statuses[1..], events[1..]) by {
        forall i | 0 <= i < |events[1..]|
          ensures StatusStep(statuses[1..][i], events[1..][i], statuses[1..][i + 1])
        {
          assert StatusStep(statuses[i + 1], events[i + 1], statuses[i + 2]);
        }
      }
      SuccessHoldsUntilClose(statuses[1..], events[1..]);
      forall i | 0 <= i < |statuses|
        ensures statuses[i] == Success
      {
        if i > 0 {
          assert statuses[i] == statuses[1..][i - 1];
        }
      }
    }
  }

  /** A run that leaves idle and ends in idle contains a close:
      `handleClose` is the only way back to idle. */
  lemma {:induction false} IdleOnlyByClose(statuses: seq<SendStatus>, events: seq<SendEvent>)
    requires StatusRun(statuses, events)
    requires statuses[0] != Idle && statuses[|statuses| - 1] == Idle
    ensures exists i :: 0 <= i < |events| && events[i] == Close
  {
    assert events != [];
    if events[0] != Close {
      assert StatusStep(statuses[0], events[0], statuses[1]);
      assert statuses[1] != Idle;
      assert StatusRun(statuses[1..], events[1..]) by {
        forall i | 0 <= i < |events[1..]|
          ensures StatusStep(statuses[1..][i], events[1..][i], statuses[1..][i + 1])
        {
          assert StatusStep(statuses[i + 1], events[i + 1], statuses[i + 2]);
        }
      }
      IdleOnlyByClose(statuses[1..], events[1..]);
      var i :| 0 <= i < |events[1..]| && events[1..][i] == Close;
      assert events[i + 1] == Close;
    }
  }

  class SendMoneyModal {
    var recipient: string
    var amount: Option<int>
    var status: SendStatus
    var txHash: string
    /** Handlers still waiting, oldest first. */
    var pending: seq<PendingSend>
    /** How many of `pending` (from the front) are past the scanning wait. */
    var scanned: nat

    ghost predicate Valid()
      reads this
    {
      scanned <= |pending|
    }

    constructor()
      ensures Valid()
      ensures recipient == "" && amount == None && status == Idle && txHash == ""
      ensures pending == [] && scanned == 0
    {
      recipient := "";
      amount := None;
      status := Idle;
      txHash := "";
      pending := [];
      scanned := 0;
    }

    /** Typing into the two inputs, which are disabled unless idle. */
    method EnterDetails(r: string, a: Option<int>)
      requires FormShown(status)
      modifies this
      ensures recipient == (if InputsDisabled(old(status)) then old(recipient) else r)
      ensures amount == (if InputsDisabled(old(status)) then old(amount) else a)
      ensures status == old(status) && txHash == old(txHash)
      ensures pending == old(pending) && scanned == old(scanned)
    {
      if !InputsDisabled(status) {
        recipient := r;
        amount := a;
      }
    }

    /** `handleSend` up to its first `await`; the form can submit only
        while idle. */
    method HandleSend() returns (started: bool)
      requires Valid() && status == Idle
      modifies this
      ensures Valid()
      ensures StatusStep(old(status), Start, status)
      ensures started <==> SendAccepted(old(recipient), old(amount))
      ensures started ==> status == Scanning &&
                          pending == old(pending) + [PendingSend(old(recipient), old(amount).value)]
      ensures !started ==> status == old(status) && pending == old(pending)
      ensures recipient == old(recipient) && amount == old(amount)
      ensures txHash == old(txHash) && scanned == old(scanned)
    {
      if recipient == "" || amount.None? {
        return false;
      }
      status := Scanning;
      pending := pending + [PendingSend(recipient, amount.value)];
      started := true;
    }

    /** The oldest handler still scanning moves on to confirming. */
    method ResumeScan()
      requires Valid() && scanned < |pending|
      modifies this
      ensures Valid()
      ensures StatusStep(old(status), ScanDone, status)
      ensures status == Confirming && scanned == old(scanned) + 1
      ensures pending == old(pending) && recipient == old(recipient)
      ensures amount == old(amount) && txHash == old(txHash)
    {
      status := Confirming;
      scanned := scanned + 1;
    }

    /** The oldest handler finishes: the hash is stored, `onSend` is called
        once with its recipient and amount, and the status is success. */
    method ResumeConfirm(hash: string) returns (effects: seq<SendEffect>)
      requires Valid() && scanned > 0
      modifies this
      ensures Valid()
      ensures StatusStep(old(status), ConfirmDone, status)
      ensures effects == [OnSend(old(pending)[0].recipient, old(pending)[0].amount)]
      ensures txHash == hash && status == Success
      ensures pending == old(pending)[1..] && scanned == old(scanned) - 1
      ensures recipient == old(recipient) && amount == old(amount)
    {
      var p := pending[0];
      pending := pending[1..];
      scanned := scanned - 1;
      txHash := hash;
      effects := [OnSend(p.recipient, p.amount)];
      status := Success;
    }

    /** `handleClose`: clears both inputs and returns to idle; the hash is
        kept. */
    method HandleClose() returns (effects: seq<SendEffect>)
      requires Valid()
      modifies this
      ensures Valid()
      ensures StatusStep(old(status), Close, status)
      ensures recipient == "" && amount == None && status == Idle
      ensures txHash == old(txHash) && pending == old(pending) && scanned == old(scanned)
      ensures effects == [OnClose]
    {
      recipient := "";
      amount := None;
      status := Idle;
      effects := [OnClose];
    }
  }

  /** One send from the idle form to completion goes idle → scanning →
      confirming → success, and calls `onSend` once, with the entered
      details. */
  method SendOnce(m: SendMoneyModal, hash: string) returns (statuses: seq<SendStatus>, effects: seq<SendEffect>)
    requires m.Valid() && m.status == Idle && m.pending == [] && SendAccepted(m.recipient, m.amount)
    modifies m
    ensures m.Valid()
    ensures statuses == [Scanning, Confirming, Success]
    ensures StatusRun([Idle] + statuses, [Start, ScanDone, ConfirmDone])
    ensures effects == [OnSend(old(m.recipient), old(m.amount).value)]
    ensures m.txHash == hash && m.pending == [] && m.scanned == 0
  {
    var started := m.HandleSend();
    statuses := [m.status];
    m.ResumeScan();
    statuses := statuses + [m.status];
    effects := m.ResumeConfirm(hash);
    statuses := statuses + [m.status];
  }

  /** A send started before a close keeps running. The first send finishes
      scanning (1 s) and the dialog is closed while it confirms; a second
      send starts from the idle form 1.5 s to 2.5 s after the first. The
      first send then confirms and shows success, and the second one's
      scanning wait ends after that, moving the dialog from success back to
      confirming. The first send's `onSend` follows the close; the second
      send is still waiting to confirm. */
  method SendAcrossClose(m: SendMoneyModal, r: string, a: Option<int>, hash1: string)
    returns (statuses: seq<SendStatus>, effects: seq<SendEffect>)
    requires m.Valid() && m.status == Idle && m.pending == [] && SendAccepted(m.recipient, m.amount)
    requires SendAccepted(r, a)
    modifies m
    ensures statuses == [Scanning, Confirming, Idle, Scanning, Success, Confirming]
    ensures StatusRun([Idle] + statuses, [Start, ScanDone, Close, Start, ConfirmDone, ScanDone])
    ensures effects == [OnClose, OnSend(old(m.recipient), old(m.amount).value)]
    ensures m.pending == [PendingSend(r, a.value)] && m.scanned == 1 && m.txHash == hash1
  {
    var started := m.HandleSend();
    statuses := [m.status];
    m.ResumeScan();
    statuses := statuses + [m.status];
    var closed := m.HandleClose();
    statuses := statuses + [m.status];
    m.EnterDetails(r, a);
    started := m.HandleSend();
    statuses := statuses + [m.status];
    var sent := m.ResumeConfirm(hash1);
    statuses := statuses + [m.status];
    m.ResumeScan();
    statuses := statuses + [m.status];
    effects := closed + sent;
  }
}
