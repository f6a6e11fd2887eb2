/** The profit estimate, the relay tip and the profit gate (src/main.ts:96-103). */
module Profit {
  import opened Config

  /** What the round trip returns beyond the stake; negative for a losing cycle. */
  function ProfitLamports(quote1OutAmount: int): (profit: int)
    ensures profit > 0 <==> quote1OutAmount > StakeLamports
    ensures GatePasses(profit) <==> quote1OutAmount > StakeLamports + ProfitThresholdLamports
  {
    quote1OutAmount - StakeLamports
  }

  /** The cycle goes on only when the profit is strictly above the threshold. */
  predicate GatePasses(profit: int)
    ensures GatePasses(profit) ==> profit >= ProfitThresholdLamports + 1
    ensures !GatePasses(profit) ==> profit <= ProfitThresholdLamports
  {
    profit > ProfitThresholdLamports
  }

  /**
   * The tip: half the profit, rounded down. The source computes
   * Math.floor(profit * 0.5) in doubles; for integers below 2^53 in magnitude
   * the product is exact, and its floor is floor division by 2, which is what
   * Dafny's `/` computes for a positive divisor, negative profits included.
   */
  function Tip(profit: int): (tip: int)
    ensures 2 * tip <= profit < 2 * tip + 2
  {
    profit / 2
  }

  /** Once the gate passes the tip is at least 1500 lamports and below the profit. */
  lemma GatedTipBounds(profit: int)
    requires GatePasses(profit)
    ensures 1500 <= Tip(profit) < profit
  {
  }

  /** The tip never takes more than half of the profit: the rest stays with the payer. */
  lemma TipKeepsHalf(profit: int)
    requires profit >= 0
    ensures 0 <= Tip(profit) <= profit - Tip(profit) <= Tip(profit) + 1
  {
  }

  /** The worked cycle: 10,005,000 back for the 10,000,000 stake passes with a 2,500 tip. */
  lemma WorkedCycle()
    ensures ProfitLamports(10_005_000) == 5000
    ensures GatePasses(ProfitLamports(10_005_000))
    ensures Tip(ProfitLamports(10_005_000)) == 2500
  {
  }
}
