/** The staking dialog of components/SmartGoalModal.tsx. Its state is the
    entered amount (a number input holds "" or a number: `None` or `Some`),
    the status `idle → processing → success` and the confirmation hash.

    `handleStake` is asynchronous: the checks and `setStatus('processing')`
    run at once; two seconds later the rest of the handler sets the hash,
    calls `onStake` and sets 'success'. The model splits it into
    `HandleStake` and `ResumeStake`. A handler still waiting keeps the goal
    and amount it was started with; waiting handlers resume in the order
    they were started (all wait equally long). Callbacks are returned as
    effects, in call order. */
module StakeDialog {
  import opened Types
  import opened Numbers
  import opened Percent
  import opened Ledger

  datatype StakeStatus = Idle | Processing | Success

  /** A `handleStake` call waiting for its confirmation. */
  datatype PendingStake = PendingStake(goalId: string, amount: int)

  datatype StakeEffect = OnStake(goalId: string, amount: int) | OnClose

  /** The guard of `handleStake`: `!amount || amount <= 0 || amount > currentBalance`
      rejects (an empty input parses to NaN, which is falsy, as is 0). */
  predicate StakeAccepted(stakeAmount: Option<int>, currentBalance: int)
  {
    stakeAmount.Some? && stakeAmount.value != 0 && !(stakeAmount.value <= 0) && !(stakeAmount.value > currentBalance)
  }

  /** The submit button's `disabled` condition. */
  predicate SubmitDisabled(stakeAmount: Option<int>, currentBalance: int, status: StakeStatus)
  {
    stakeAmount.None? || stakeAmount.value <= 0 || stakeAmount.value > currentBalance || status == Processing
  }

  /** The handler accepts exactly the amounts in `(0, currentBalance]`, and
      the button is enabled exactly for those while no stake is processing. */
  lemma SubmitMatchesGuard(stakeAmount: Option<int>, currentBalance: int, status: StakeStatus)
    ensures StakeAccepted(stakeAmount, currentBalance) <==>
            stakeAmount.Some? && 0 < stakeAmount.value <= currentBalance
    ensures !SubmitDisabled(stakeAmount, currentBalance, status) <==>
            StakeAccepted(stakeAmount, currentBalance) && status != Processing
  {
  }

  /** A stake the guard accepts against the balance at the time leaves that
      balance non-negative once the ledger applies it, and awards no
      negative tokens. */
  lemma AcceptedStakeKeepsBalance(s: UserContext, goalId: string, stakeAmount: Option<int>,
                                  txId: string, today: int, hash: string)
    requires StakeAccepted(stakeAmount, s.currentBalance)
    ensures var r := StakeToGoal(s, goalId, stakeAmount.value, txId, today, hash);
            0 <= r.currentBalance < s.currentBalance && r.finTokens >= s.finTokens
  {
  }

  /** The dialog's progress bar (`percent`) never shows more than 100, and
      for a positive target and a non-negative saved amount it shows a
      whole number in [0, 100]. */
  lemma DialogProgressCapped(g: Goal)
    ensures GoalPercent(g).Finite? ==> GoalPercent(g).v <= 100.0
    ensures g.targetAmount > 0 && g.currentAmount >= 0 ==>
              GoalPercent(g).Finite? && 0.0 <= GoalPercent(g).v <= 100.0 && GoalPercent(g).v == GoalPercent(g).v.Floor as real
  {
    if g.targetAmount > 0 {
      GoalPercentBounds(g);
    }
  }

  /** The stake form (amount input and submit button) is rendered only
      while the status is not success; the success view replaces it. */
  predicate FormShown(status: StakeStatus)
  {
    status != Success
  }

  /** What moves the status: a submit, the end of a wait, or a close. */
  datatype StakeEvent = Start | Resume | Close

  /** The status moves each event allows: a submit (only from idle: the
      form is hidden on success and its button disabled while processing)
      keeps the status or enters processing, a finished wait shows success,
      and a close returns to idle. */
  predicate StatusStep(from: StakeStatus, ev: StakeEvent, to: StakeStatus)
  {
    match ev
    case Start => from == Idle && (to == from || to == Processing)
    case Resume => to == Success
    case Close => to == Idle
  }

  /** `statuses[i + 1]` follows from `statuses[i]` by `events[i]`. */
  predicate StatusRun(statuses: seq<StakeStatus>, events: seq<StakeEvent>)
  {
    |statuses| == |events| + 1 &&
    forall i :: 0 <= i < |events| ==> StatusStep(statuses[i], events[i], statuses[i + 1])
  }

  /** Once success is shown it stays until the dialog is closed: nothing
      but a close leaves it, and in particular no new stake starts. */
  lemma {:induction false} SuccessHoldsUntilClose(statuses: seq<StakeStatus>, events: seq<StakeEvent>)
    requires StatusRun(statuses, events) && statuses[0] == Success
    requires forall i :: 0 <= i < |events| ==> events[i] != Close
    ensures forall i :: 0 <= i < |statuses| ==> statuses[i] == Success
  {
    if events != [] {
      assert StatusStep(statuses[0], events[0], statuses[1]);
      assert StatusRun(statuses[1..], events[1..]) by {
        forall i | 0 <= i < |events[1..]|
          ensures StatusStep(statuses[1..][i], events[1..][i], statuses[1..][i + 1])
        {
          assert StatusStep(statuses[i + 1], events[i + 1], statuses[i + 2]);
        }
      }
      SuccessHoldsUntilClose(statuses[1..], events[1..]);
      forall i | 0 <= i < |statuses|
        ensures statuses[i] == Success
      {
        if i > 0 {
          assert statuses[i] == statuses[1..][i - 1];
        }
      }
    }
  }

  /** A run that leaves idle and ends in idle contains a close:
      `handleClose` is the only way back to idle. */
  lemma {:induction false} IdleOnlyByClose(statuses: seq<StakeStatus>, events: seq<StakeEvent>)
    requires StatusRun(statuses, events)
    requires statuses[0] != Idle && statuses[|statuses| - 1] == Idle
    ensures exists i :: 0 <= i < |events| && events[i] == Close
  {
    assert events != [];
    if events[0] != Close {
      assert StatusStep(statuses[0], events[0], statuses[1]);
      assert statuses[1] != Idle;
      assert StatusRun(statuses[1..], events[1..]) by {
        forall i | 0 <= i < |events[1..]|
          ensures StatusStep(statuses[1..][i], events[1..][i], statuses[1..][i + 1])
        {
          assert StatusStep(statuses[i + 1], events[i + 1], statuses[i + 2]);
        }
      }
      IdleOnlyByClose(statuses[1..], events[1..]);
      var i :| 0 <= i < |events[1..]| && events[1..][i] == Close;
      assert events[i + 1] == Close;
    }
  }

  class SmartGoalModal {
    var stakeAmount: Option<int>
    var status: StakeStatus
    var txHash: string
    /** Handlers waiting for confirmation, oldest first. */
    var pending: seq<PendingStake>

    constructor()
      ensures stakeAmount == None && status == Idle && txHash == "" && pending == []
    {
      stakeAmount := None;
      status := Idle;
      txHash := "";
      pending := [];
    }

    /** Typing into the amount input, which is disabled while processing. */
    method EnterAmount(v: Option<int>)
      requires FormShown(status)
      modifies this
      ensures stakeAmount == (if old(status) == Processing then old(stakeAmount) else v)
      ensures status == old(status) && txHash == old(txHash) && pending == old(pending)
    {
      if status != Processing {
        stakeAmount := v;
      }
    }

    /** `handleStake` up to its `await`; the form can submit only while
        idle. */
    method HandleStake(goalId: string, currentBalance: int) returns (started: bool)
      requires status == Idle
      modifies this
      ensures StatusStep(old(status), Start, status)
      ensures started <==> StakeAccepted(old(stakeAmount), currentBalance)
      ensures started ==> status == Processing && pending == old(pending) + [PendingStake(goalId, old(stakeAmount).value)]
      ensures !started ==> status == old(status) && pending == old(pending)
      ensures stakeAmount == old(stakeAmount) && txHash == old(txHash)
    {
      var amount := stakeAmount;
      if amount.None? || amount.value == 0 || amount.value <= 0 || amount.value > currentBalance {
        return false;
      }
      status := Processing;
      pending := pending + [PendingStake(goalId, amount.value)];
      started := true;
    }

    /** The rest of the oldest waiting `handleStake`: store the hash, call
        `onStake(goal.id, amount)` once, then show success. */
    method ResumeStake(hash: string) returns (effects: seq<StakeEffect>)
      requires pending != []
      modifies this
      ensures StatusStep(old(status), Resume, status)
      ensures effects == [OnStake(old(pending)[0].goalId, old(pending)[0].amount)]
      ensures txHash == hash && status == Success && pending == old(pending)[1..]
      ensures stakeAmount == old(stakeAmount)
    {
      var p := pending[0];
      pending := pending[1..];
      txHash := hash;
      effects := [OnStake(p.goalId, p.amount)];
      status := Success;
    }

    /** `handleClose`: clears the amount and the hash, returns to idle and
        calls `onClose`. A waiting stake still completes. */
    method HandleClose() returns (effects: seq<StakeEffect>)
      modifies this
      ensures StatusStep(old(status), Close, status)
      ensures stakeAmount == None && status == Idle && txHash == ""
      ensures pending == old(pending)
      ensures effects == [OnClose]
    {
      stakeAmount := None;
      status := Idle;
      txHash := "";
      effects := [OnClose];
    }
  }

  /** A valid stake, from submit to confirmation: `onStake` is called once,
      with the goal and the entered amount, and the dialog shows success. */
  method StakeOnce(m: SmartGoalModal, goalId: string, currentBalance: int, hash: string)
    returns (effects: seq<StakeEffect>)
    requires m.status == Idle && m.pending == [] && StakeAccepted(m.stakeAmount, currentBalance)
    modifies m
    ensures effects == [OnStake(goalId, old(m.stakeAmount).value)]
    ensures m.status == Success && m.txHash == hash && m.pending == []
  {
    var started := m.HandleStake(goalId, currentBalance);
    effects := m.ResumeStake(hash);
  }

  /** A rejected amount changes nothing and calls nothing. */
  method RejectedStake(m: SmartGoalModal, goalId: string, currentBalance: int)
    requires m.status == Idle && !StakeAccepted(m.stakeAmount, currentBalance)
    modifies m
    ensures m.stakeAmount == old(m.stakeAmount) && m.status == old(m.status)
    ensures m.txHash == old(m.txHash) && m.pending == old(m.pending)
  {
    var started := m.HandleStake(goalId, currentBalance);
  }

  /** Closing the dialog while a stake waits: the stake still completes, so
      the dialog goes from idle straight to success and `onStake` follows
      `onClose`. */
  method CloseWhileWaiting(m: SmartGoalModal, goalId: string, currentBalance: int, hash: string)
    returns (statuses: seq<StakeStatus>, effects: seq<StakeEffect>)
    requires m.status == Idle && m.pending == [] && StakeAccepted(m.stakeAmount, currentBalance)
    modifies m
    ensures statuses == [Processing, Idle, Success]
    ensures StatusRun([Idle] + statuses, [Start, Close, Resume])
    ensures effects == [OnClose, OnStake(goalId, old(m.stakeAmount).value)]
    ensures m.stakeAmount == None && m.txHash == hash && m.pending == []
  {
    var started := m.HandleStake(goalId, currentBalance);
    statuses := [m.status];
    var closed := m.HandleClose();
    statuses := statuses + [m.status];
    var staked := m.ResumeStake(hash);
    statuses := statuses + [m.status];
    effects := closed + staked;
  }
}
