/** The cash-out payout of a Mines session.

    The bot computes the multiplier as the float `round(1 + 0.3 * g, 2)` and
    the reward as `int(bet * multiplier)`.  The exact multiplier always has
    two decimals, so here it is kept as an integer number of hundredths,
    `100 + 30 * g`, and the reward is the exact floor of `bet * multiplier`.
    Binary floating point cannot represent most of these multipliers exactly.
    While the exact product `bet * multiplier` stays below 10^13 coins the
    float error is far below the 0.01 gap between the product and the next
    whole number, so the deployed bot pays this exact value, or one coin less
    when the exact product is a whole number and the float lands just below
    it.  Beyond that range (a stake near 2^53 is rounded before it is even
    multiplied) the float reward can miss this value by one coin or more in
    either direction.  From about 1.8 * 10^308 on, the float product
    overflows and the bot raises before crediting anything or closing the
    session; this model still credits `Reward` there.
 */
module Payout {

  /** The multiplier for `gems` revealed gems, in hundredths (130 means 1.3). */
  function MultiplierHundredths(gems: nat): nat {
    100 + 30 * gems
  }

  /** The coins credited when a session with stake `bet` is cashed out after
      `gems` cells were opened.  No gems pays nothing (the stake is forfeit);
      otherwise the reward is the floor of `bet * (1 + 0.3 * gems)`. */
  function Reward(bet: nat, gems: nat): (r: nat)
    ensures gems == 0 ==> r == 0
    ensures gems > 0 ==> 100 * r <= bet * MultiplierHundredths(gems) < 100 * r + 100
  {
    if gems == 0 then 0 else bet * MultiplierHundredths(gems) / 100
  }

  /** A cash-out with at least one gem never pays less than the stake. */
  lemma RewardCoversStake(bet: nat, gems: nat)
    requires gems > 0
    ensures Reward(bet, gems) >= bet
  {
  }

  /** The reward is zero exactly when nothing was opened or nothing was staked. */
  lemma RewardZeroIff(bet: nat, gems: nat)
    ensures Reward(bet, gems) == 0 <==> gems == 0 || bet == 0
  {
  }

  /** Opening more cells never lowers the reward. */
  lemma RewardMonotone(bet: nat, g1: nat, g2: nat)
    requires g1 <= g2
    ensures Reward(bet, g1) <= Reward(bet, g2)
  {
  }

  /** Each further gem adds 0.3 of the stake to within one coin, either way. */
  lemma RewardStep(bet: nat, gems: nat)
    requires gems > 0
    ensures 100 * Reward(bet, gems + 1) > 100 * Reward(bet, gems) + 30 * bet - 100
    ensures 100 * Reward(bet, gems + 1) < 100 * Reward(bet, gems) + 30 * bet + 100
  {
  }

  /** Worked values: stake 20 with one gem pays 26; stake 100 with three gems pays 190. */
  lemma RewardExamples()
    ensures Reward(20, 1) == 26
    ensures Reward(100, 3) == 190
    ensures Reward(50, 0) == 0
  {
  }
}
