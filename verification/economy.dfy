/** The integer formulas of enhancement (script.js:252-258) and the
    passive income of a sword (script.js:10-24), the latter over exact
    reals. */
module Economy {
  import opened Swords

  function Pow2(n: nat): (r: nat)
    ensures r >= 1
  {
    if n == 0 then 1 else 2 * Pow2(n - 1)
  }

  /** Gold paid per enhancement attempt; depends only on the enhancement. */
  function EnhanceCost(sw: Sword): (r: nat)
    ensures r >= 50
  {
    50 * Pow2(sw.enhancement)
  }

  /** The cost starts at 50, doubles with every enhancement step and does
      not depend on the level. */
  lemma EnhanceCostSteps(level: Level, other: Level, e: nat)
    ensures EnhanceCost(Sword(level, 0)) == 50
    ensures EnhanceCost(Sword(level, e + 1)) == 2 * EnhanceCost(Sword(level, e))
    ensures EnhanceCost(Sword(level, e)) == EnhanceCost(Sword(other, e))
  {
  }

  /** Chance of success in percent. */
  function SuccessRate(e: nat): (r: int)
    ensures 30 <= r <= 70
    ensures e >= 4 ==> r == 30
    ensures e <= 4 ==> r == 70 - 10 * e
  {
    if 70 - e * 10 > 30 then 70 - e * 10 else 30
  }

  /** Chance of destruction in percent, whatever the enhancement. */
  const DestroyShare: int := 10

  /** Chance, in percent, that the sword stays as it is: what is left after
      success and destruction. */
  function KeepShare(e: nat): (r: int)
    ensures 20 <= r <= 60
    ensures SuccessRate(e) + r + DestroyShare == 100
  {
    100 - SuccessRate(e) - DestroyShare
  }

  /** More enhancement never makes success likelier. */
  lemma SuccessRateAntitone(e1: nat, e2: nat)
    requires e1 <= e2
    ensures SuccessRate(e1) >= SuccessRate(e2)
    ensures KeepShare(e1) <= KeepShare(e2)
  {
  }

  function RealPow2(n: nat): (r: real)
    ensures r >= 1.0
  {
    if n == 0 then 1.0 else 2.0 * RealPow2(n - 1)
  }

  /** Gold per second of a level-`level` sword before enhancement. */
  function BaseGoldPerSecond(level: Level): (r: real)
    ensures r >= 0.1
  {
    0.1 * RealPow2(level - 1)
  }

  /** Income multiplier of `e` enhancements: 1.2 to the power `e`. */
  function EnhancementBonus(e: nat): (r: real)
    ensures r >= 1.0
    ensures e > 0 ==> r >= 1.2
  {
    if e == 0 then 1.0 else 1.2 * EnhancementBonus(e - 1)
  }

  function SwordGoldPerSecond(sw: Sword): (r: real)
    ensures r >= BaseGoldPerSecond(sw.level)
    ensures sw.enhancement > 0 ==> r > BaseGoldPerSecond(sw.level)
  {
    BaseGoldPerSecond(sw.level) * EnhancementBonus(sw.enhancement)
  }

  /** Income starts at 0.1 gold per second and doubles with each level;
      each enhancement adds a fifth. */
  lemma {:induction false} IncomeSteps(level: Level, e: nat)
    ensures BaseGoldPerSecond(1) == 0.1
    ensures BaseGoldPerSecond(level + 1) == 2.0 * BaseGoldPerSecond(level)
    ensures SwordGoldPerSecond(Sword(level, e + 1)) == 1.2 * SwordGoldPerSecond(Sword(level, e))
    ensures SwordGoldPerSecond(Sword(level, 0)) == BaseGoldPerSecond(level)
  {
    assert RealPow2(level) == 2.0 * RealPow2(level - 1);
  }
}
