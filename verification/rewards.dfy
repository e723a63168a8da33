/** The gamification badge of App.tsx: the level and progress derived from
    `finTokens`, and the title of a level. */
module Rewards {
  import opened Types
  import opened Ledger

  /** `Math.floor(finTokens / 100) + 1`; Dafny's `/` by a positive divisor
      rounds down like `Math.floor`. */
  function Level(finTokens: int): int
  {
    finTokens / 100 + 1
  }

  /** `finTokens % 100`: JavaScript's remainder takes the sign of the dividend. */
  function Progress(finTokens: int): (r: int)
    ensures finTokens >= 0 ==> 0 <= r < 100
    ensures finTokens < 0 ==> -100 < r <= 0
    ensures (finTokens - r) % 100 == 0
  {
    if finTokens >= 0 then finTokens % 100 else -((-finTokens) % 100)
  }

  /** For a non-negative balance the badge shows the tokens exactly: full
      levels of 100 plus the progress into the current one. */
  lemma LevelAndProgressRecoverTokens(finTokens: int)
    requires finTokens >= 0
    ensures (Level(finTokens) - 1) * 100 + Progress(finTokens) == finTokens
    ensures Level(finTokens) >= 1
  {
  }

  /** `getLevelTitle`. */
  function LevelTitle(level: int): string
  {
    if level >= 10 then "Crypto King"
    else if level >= 5 then "DeFi Degen"
    else if level >= 3 then "Smart Saver"
    else "Novice"
  }

  /** The titles in terms of tokens: 900, 400 and 200 tokens are the thresholds. */
  lemma TitleByTokens(finTokens: int)
    ensures LevelTitle(Level(finTokens)) == "Crypto King" <==> finTokens >= 900
    ensures LevelTitle(Level(finTokens)) == "DeFi Degen" <==> 400 <= finTokens < 900
    ensures LevelTitle(Level(finTokens)) == "Smart Saver" <==> 200 <= finTokens < 400
    ensures LevelTitle(Level(finTokens)) == "Novice" <==> finTokens < 200
  {
  }

  /** More tokens never mean a lower level. */
  lemma LevelMonotone(a: int, b: int)
    requires a <= b
    ensures Level(a) <= Level(b)
  {
  }

  /** An action with a non-negative stake never takes tokens away. */
  predicate NonNegativeStake(a: Action)
  {
    a.Stake? ==> a.amount >= 0
  }

  lemma ApplyKeepsTokens(s: UserContext, a: Action)
    requires NonNegativeStake(a)
    ensures Apply(s, a).finTokens >= s.finTokens
  {
  }

  /** Over a run of actions whose stakes are non-negative, tokens and hence
      the level only grow. */
  lemma {:induction false} RunNeverLowersLevel(s: UserContext, actions: seq<Action>)
    requires forall i :: 0 <= i < |actions| ==> NonNegativeStake(actions[i])
    ensures Run(s, actions).finTokens >= s.finTokens
    ensures Level(Run(s, actions).finTokens) >= Level(s.finTokens)
    decreases |actions|
  {
    if actions != [] {
      ApplyKeepsTokens(s, actions[0]);
      RunNeverLowersLevel(Apply(s, actions[0]), actions[1..]);
      LevelMonotone(s.finTokens, Run(s, actions).finTokens);
    }
  }
}
