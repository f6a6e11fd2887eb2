/**
 * Quote requests and responses of the aggregator, and the in-place merge of
 * the two legs into one round-trip quote (src/main.ts:74-94, 108-114).
 */
module Quotes {
  import opened Config

  /** One hop of a route plan; only its presence and position matter here. */
  datatype RouteHop = RouteHop(swapInfo: string, percent: int)

  /**
   * A quote response. The amounts arrive as decimal strings and are modelled
   * as integers; the fields not listed here are carried like contextSlot.
   */
  datatype Quote = Quote(
    inputMint: Address,
    inAmount: int,
    outputMint: Address,
    outAmount: int,
    otherAmountThreshold: int,
    swapMode: string,
    slippageBps: int,
    priceImpactPct: string,
    routePlan: seq<RouteHop>,
    contextSlot: int)

  /** The query of a quote request. */
  datatype QuoteParams = QuoteParams(
    inputMint: Address,
    outputMint: Address,
    amount: int,
    onlyDirectRoutes: bool,
    slippageBps: int,
    maxAccounts: int)

  /** First leg: sell the stake of WSOL for USDC. */
  function Quote0Params(): (p: QuoteParams)
    ensures p.inputMint == WSolMint && p.outputMint == UsdcMint && p.amount == StakeLamports
    ensures !p.onlyDirectRoutes && p.slippageBps == 0 && p.maxAccounts == 20
  {
    QuoteParams(WSolMint, UsdcMint, StakeLamports, OnlyDirectRoutes, QuoteSlippageBps, QuoteMaxAccounts)
  }

  /** p1 asks for the way back of p0: mints swapped, the given amount, the same routing options. */
  predicate IsReverseLeg(p1: QuoteParams, p0: QuoteParams, amount: int)
  {
    p1.inputMint == p0.outputMint && p1.outputMint == p0.inputMint && p1.amount == amount &&
    p1.onlyDirectRoutes == p0.onlyDirectRoutes && p1.slippageBps == p0.slippageBps &&
    p1.maxAccounts == p0.maxAccounts
  }

  /** Second leg: sell everything the first leg returns back into WSOL. */
  function Quote1Params(quote0OutAmount: int): (p: QuoteParams)
    ensures IsReverseLeg(p, Quote0Params(), quote0OutAmount)
  {
    QuoteParams(UsdcMint, WSolMint, quote0OutAmount, OnlyDirectRoutes, QuoteSlippageBps, QuoteMaxAccounts)
  }

  /** A quote answers a request when it is for the asked mints and the asked input amount. */
  predicate Answers(q: Quote, p: QuoteParams)
  {
    q.inputMint == p.inputMint && q.outputMint == p.outputMint && q.inAmount == p.amount
  }

  /**
   * m is the merge of q0 and q1 for the given tip: four fields overwritten,
   * the route plans concatenated, and every other field still that of q0.
   */
  predicate IsRoundTripMerge(m: Quote, q0: Quote, q1: Quote, tip: int)
  {
    m.outputMint == q1.outputMint &&
    m.outAmount == StakeLamports + tip &&
    m.otherAmountThreshold == StakeLamports + tip &&
    m.priceImpactPct == "0" &&
    m.routePlan == q0.routePlan + q1.routePlan &&
    m.(outputMint := q0.outputMint, outAmount := q0.outAmount,
       otherAmountThreshold := q0.otherAmountThreshold,
       priceImpactPct := q0.priceImpactPct, routePlan := q0.routePlan) == q0
  }

  /**
   * The parsed body of a quote response, which the cycle overwrites in place:
   * the merged quote is the first response object itself.
   */
  class QuoteResponse {
    var inputMint: Address
    var inAmount: int
    var outputMint: Address
    var outAmount: int
    var otherAmountThreshold: int
    var swapMode: string
    var slippageBps: int
    var priceImpactPct: string
    var routePlan: seq<RouteHop>
    var contextSlot: int

    /** The value the object currently holds (what JSON.stringify would show). */
    function Snapshot(): Quote
      reads this
    {
      Quote(inputMint, inAmount, outputMint, outAmount, otherAmountThreshold,
            swapMode, slippageBps, priceImpactPct, routePlan, contextSlot)
    }

    /** A freshly parsed response holding q. */
    constructor (q: Quote)
      ensures Snapshot() == q
    {
      inputMint, inAmount, outputMint, outAmount := q.inputMint, q.inAmount, q.outputMint, q.outAmount;
      otherAmountThreshold, swapMode, slippageBps := q.otherAmountThreshold, q.swapMode, q.slippageBps;
      priceImpactPct, routePlan, contextSlot := q.priceImpactPct, q.routePlan, q.contextSlot;
    }

    /** Turns this first-leg response into the round-trip quote, field by field. */
    method MergeRoundTrip(q1: Quote, tip: int)
      modifies this
      ensures IsRoundTripMerge(Snapshot(), old(Snapshot()), q1, tip)
    {
      outputMint := q1.outputMint;
      outAmount := StakeLamports + tip;
      otherAmountThreshold := StakeLamports + tip;
      priceImpactPct := "0";
      routePlan := routePlan + q1.routePlan;
    }
  }

  /**
   * When both legs answer their requests, the merged quote goes from WSOL back
   * to WSOL, spends exactly the stake, and asks for exactly stake + tip with
   * no slippage allowance. The first leg's hops come first, in their order.
   */
  lemma MergedQuoteClosesLoop(m: Quote, q0: Quote, q1: Quote, tip: int)
    requires Answers(q0, Quote0Params())
    requires Answers(q1, Quote1Params(q0.outAmount))
    requires IsRoundTripMerge(m, q0, q1, tip)
    ensures m.inputMint == WSolMint && m.outputMint == WSolMint
    ensures m.inAmount == StakeLamports
    ensures m.outAmount == m.otherAmountThreshold == StakeLamports + tip
    ensures m.contextSlot == q0.contextSlot
    ensures |m.routePlan| == |q0.routePlan| + |q1.routePlan|
    ensures forall i :: 0 <= i < |q0.routePlan| ==> m.routePlan[i] == q0.routePlan[i]
    ensures forall j :: 0 <= j < |q1.routePlan| ==> m.routePlan[|q0.routePlan| + j] == q1.routePlan[j]
  {
  }
}
