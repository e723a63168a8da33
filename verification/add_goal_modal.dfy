/** The new-goal form of components/AddGoalModal.tsx: a name, a target, an
    optional amount already saved and a deadline (a date input; "" is
    `None`, a date is its day number). Submitting a complete form calls
    `onAddGoal` with the new goal, then `onClose`, and empties the form. The
    goal id (`Date.now()`) is a parameter. */
module GoalForm {
  import opened Types
  import opened Numbers
  import opened Percent
  import Ledger

  datatype GoalEffect = OnAddGoal(goal: Goal) | OnClose

  /** The guard of `handleSubmit`: `!name || !targetAmount || !deadline`
      rejects. It tests the raw strings, so a target of "0" passes. */
  predicate FormComplete(name: string, targetAmount: Option<int>, deadline: Option<int>)
  {
    name != "" && targetAmount.Some? && deadline.Some?
  }

  /** The goal built from the entered fields, an empty saved amount read as 0, and no
      contract address or yield. */
  function FormGoal(id: string, name: string, targetAmount: int, currentAmount: Option<int>, deadline: int): (g: Goal)
    ensures g.id == id && g.name == name && g.targetAmount == targetAmount && g.deadline == deadline
    ensures currentAmount.Some? ==> g.currentAmount == currentAmount.value
    ensures currentAmount.None? ==> g.currentAmount == 0
    ensures g.smartContractAddress.None? && g.apy.None?
  {
    Goal(id, name, targetAmount, if currentAmount.Some? then currentAmount.value else 0, deadline, None, None)
  }

  /** A goal created from a positive target and a non-negative saved amount
      shows a progress within [0, 100]. */
  lemma FormGoalProgress(id: string, name: string, targetAmount: int, currentAmount: Option<int>, deadline: int)
    requires targetAmount > 0
    requires currentAmount.Some? ==> currentAmount.value >= 0
    ensures var p := GoalPercent(FormGoal(id, name, targetAmount, currentAmount, deadline));
            p.Finite? && 0.0 <= p.v <= 100.0
  {
    GoalPercentBounds(FormGoal(id, name, targetAmount, currentAmount, deadline));
  }

  /** Nothing requires a positive target: a target of 0 is accepted, and the
      goal then shows 100% as soon as anything is saved. */
  lemma ZeroTargetAccepted(id: string, name: string, saved: int, deadline: int)
    requires name != "" && saved > 0
    ensures FormComplete(name, Some(0), Some(deadline))
    ensures GoalPercent(FormGoal(id, name, 0, Some(saved), deadline)) == Finite(100.0)
  {
    ZeroTargetGoal(FormGoal(id, name, 0, Some(saved), deadline));
  }

  class AddGoalModal {
    var name: string
    var targetAmount: Option<int>
    var currentAmount: Option<int>
    var deadline: Option<int>

    constructor()
      ensures name == "" && targetAmount == None && currentAmount == None && deadline == None
    {
      name := "";
      targetAmount := None;
      currentAmount := None;
      deadline := None;
    }

    /** Typing into the four inputs. */
    method EnterFields(n: string, target: Option<int>, current: Option<int>, due: Option<int>)
      modifies this
      ensures name == n && targetAmount == target && currentAmount == current && deadline == due
    {
      name := n;
      targetAmount := target;
      currentAmount := current;
      deadline := due;
    }

    /** `handleSubmit`: an incomplete form does nothing; a complete one
        calls `onAddGoal` with the new goal, then `onClose`, and empties
        the form. */
    method HandleSubmit(id: string) returns (effects: seq<GoalEffect>)
      modifies this
      ensures !FormComplete(old(name), old(targetAmount), old(deadline)) ==>
                effects == [] && name == old(name) && targetAmount == old(targetAmount) &&
                currentAmount == old(currentAmount) && deadline == old(deadline)
      ensures FormComplete(old(name), old(targetAmount), old(deadline)) ==>
                effects == [OnAddGoal(FormGoal(id, old(name), old(targetAmount).value, old(currentAmount), old(deadline).value)), OnClose] &&
                name == "" && targetAmount == None && currentAmount == None && deadline == None
    {
      if name == "" || targetAmount.None? || deadline.None? {
        return [];
      }
      var goal := FormGoal(id, name, targetAmount.value, currentAmount, deadline.value);
      effects := [OnAddGoal(goal), OnClose];
      name := "";
      targetAmount := None;
      currentAmount := None;
      deadline := None;
    }
  }

  /** Submitting a complete form appends exactly the new goal to the
      ledger's goals, and nothing else in the ledger changes. */
  method SubmitToLedger(m: AddGoalModal, s: UserContext, id: string) returns (r: UserContext)
    requires FormComplete(m.name, m.targetAmount, m.deadline)
    modifies m
    ensures r.goals == s.goals + [FormGoal(id, old(m.name), old(m.targetAmount).value, old(m.currentAmount), old(m.deadline).value)]
    ensures r.(goals := s.goals) == s
    ensures m.name == "" && m.targetAmount == None && m.currentAmount == None && m.deadline == None
  {
    var effects := m.HandleSubmit(id);
    r := Ledger.AddGoal(s, effects[0].goal);
  }
}
