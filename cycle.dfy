/**
 * One iteration of the arbitrage loop, the body of run (src/main.ts:70-208).
 * Network services, the RPC balance read and the library steps
 * (base64 decoding; compiling, signing, serializing and base58-encoding the
 * transaction) are given as functions; the calls the cycle makes are
 * recorded, in order, as effects.
 */
module Cycle {
  import opened Config
  import opened Wrappers
  import opened Profit
  import opened Quotes
  import opened Instructions
  import opened WalletAuth
  import opened Bundle

  /** The body posted to the swap-instruction service. */
  datatype SwapRequest = SwapRequest(
    userPublicKey: Address,
    wrapAndUnwrapSol: bool,
    useSharedAccounts: bool,
    computeUnitPriceMicroLamports: int,
    dynamicComputeUnitLimit: bool,
    skipUserAccountsRpcCalls: bool,
    quoteResponse: Quote)

  /**
   * The posted body: the merged quote for the payer, no SOL wrapping, no
   * shared accounts, a priority price of 1 micro-lamport per compute unit, a
   * dynamic compute-unit limit, and the service's account checks skipped.
   */
  function SwapRequestFor(payer: Address, merged: Quote): (r: SwapRequest)
    ensures r.quoteResponse == merged && r.userPublicKey == payer
    ensures !r.wrapAndUnwrapSol && !r.useSharedAccounts && r.computeUnitPriceMicroLamports == 1
    ensures r.dynamicComputeUnitLimit && r.skipUserAccountsRpcCalls
  {
    SwapRequest(payer, false, false, ComputeUnitPriceMicroLamports, true, true, merged)
  }

  /** What the cycle depends on outside its own code. */
  datatype Collaborators = Collaborators(
    getQuote: QuoteParams -> Quote,
    getBalance: Address -> int,
    getSwapInstructions: SwapRequest -> SwapInstructions,
    decodeBase64: string -> seq<Byte>,
    // resolves the lookup tables, fetches a blockhash, compiles a v0 message,
    // signs it with the payer's key, serializes and base58-encodes it
    signAndEncode: (seq<Instruction>, seq<Address>) -> string)

  /** A call the cycle makes to the outside world. */
  datatype Effect =
    | GetQuote(query: QuoteParams)
    | GetBalance(owner: Address)
    | SendTransaction(instructions: seq<Instruction>)
    | PostSwapInstructions(body: SwapRequest)
    | PostBundle(envelope: BundleRequest)

  datatype CycleOutcome =
    | Skipped(profit: int)
    | Submitted(profit: int, tip: int, merged: Quote, ixs: seq<Instruction>, bundle: BundleRequest)

  function FirstQuote(env: Collaborators): Quote
  {
    env.getQuote(Quote0Params())
  }

  function SecondQuote(env: Collaborators): Quote
  {
    env.getQuote(Quote1Params(FirstQuote(env).outAmount))
  }

  /** The wallet step's calls: the balance read, then the transfer unless it is skipped. */
  function WalletAuthEffects(env: Collaborators, payer: Address): (r: seq<Effect>)
    ensures 1 <= |r| <= 2 && r[0] == GetBalance(payer)
    ensures |r| == 2 <==> env.getBalance(payer) - WalletReserveLamports > 0
    ensures |r| == 2 ==> r[1] == SendTransaction([SystemTransfer(payer, JitoSdkProgramId,
                                                                 env.getBalance(payer) - WalletReserveLamports)])
  {
    [GetBalance(payer)] +
    match WalletAuthTransfer(payer, env.getBalance(payer))
    case None => []
    case Some(ix) => [SendTransaction([ix])]
  }

  /**
   * One cycle. Below the gate only the two quotes are fetched. Above it, the
   * wallet step runs, the first quote is merged in place, the instruction list
   * is assembled and signed, and exactly one envelope carrying that one
   * transaction is posted.
   */
  method RunCycle(env: Collaborators, payer: Address) returns (outcome: CycleOutcome, effects: seq<Effect>)
    ensures outcome.profit == ProfitLamports(SecondQuote(env).outAmount)
    ensures outcome.Skipped? <==> !GatePasses(outcome.profit)
    ensures outcome.Skipped? ==>
              effects == [GetQuote(Quote0Params()), GetQuote(Quote1Params(FirstQuote(env).outAmount))]
    ensures outcome.Submitted? ==>
              outcome.tip == Tip(outcome.profit) &&
              IsRoundTripMerge(outcome.merged, FirstQuote(env), SecondQuote(env), outcome.tip)
    ensures outcome.Submitted? ==>
              var resp := env.getSwapInstructions(SwapRequestFor(payer, outcome.merged));
              IsAssembledFrom(outcome.ixs, resp, payer, outcome.tip, env.decodeBase64) &&
              outcome.bundle == SendBundleRequest(env.signAndEncode(outcome.ixs, resp.addressLookupTableAddresses))
    ensures outcome.Submitted? ==>
              effects == [GetQuote(Quote0Params()), GetQuote(Quote1Params(FirstQuote(env).outAmount))]
                         + WalletAuthEffects(env, payer)
                         + [PostSwapInstructions(SwapRequestFor(payer, outcome.merged)), PostBundle(outcome.bundle)]
  {
    var q0 := env.getQuote(Quote0Params());
    var quote0Data := new QuoteResponse(q0);
    var params1 := Quote1Params(quote0Data.outAmount);
    var q1 := env.getQuote(params1);
    effects := [GetQuote(Quote0Params()), GetQuote(params1)];

    var profit := ProfitLamports(q1.outAmount);
    var tip := Tip(profit);
    if !GatePasses(profit) {
      outcome := Skipped(profit);
      return;
    }

    var balance := env.getBalance(payer);
    effects := effects + [GetBalance(payer)];
    var authIx := WalletAuthTransfer(payer, balance);
    if authIx.Some? {
      effects := effects + [SendTransaction([authIx.value])];
    }

    // the merged quote is the first response object, overwritten
    quote0Data.MergeRoundTrip(q1, tip);
    var merged := quote0Data.Snapshot();
    var request := SwapRequestFor(payer, merged);
    var resp := env.getSwapInstructions(request);
    effects := effects + [PostSwapInstructions(request)];

    var ixs := BuildInstructions(resp, payer, tip, env.decodeBase64);
    var encoded := env.signAndEncode(ixs, resp.addressLookupTableAddresses);
    var bundle := SendBundleRequest(encoded);
    effects := effects + [PostBundle(bundle)];
    outcome := Submitted(profit, tip, merged, ixs, bundle);
  }

  /**
   * The cycle that passes the gate: when both quotes answer their requests,
   * the merged quote is a WSOL-to-WSOL quote for the stake that asks for
   * stake + tip, which lies at least 1500 above the stake and strictly below
   * what the second quote returns.
   */
  lemma SubmittedCycleIsConsistent(env: Collaborators, payer: Address, outcome: CycleOutcome)
    requires Answers(FirstQuote(env), Quote0Params())
    requires Answers(SecondQuote(env), Quote1Params(FirstQuote(env).outAmount))
    requires outcome.Submitted?
    requires outcome.profit == ProfitLamports(SecondQuote(env).outAmount)
    requires GatePasses(outcome.profit) && outcome.tip == Tip(outcome.profit)
    requires IsRoundTripMerge(outcome.merged, FirstQuote(env), SecondQuote(env), outcome.tip)
    ensures outcome.merged.inputMint == outcome.merged.outputMint == WSolMint
    ensures outcome.merged.inAmount == StakeLamports
    ensures StakeLamports + 1500 <= outcome.merged.outAmount < SecondQuote(env).outAmount
    ensures outcome.merged.otherAmountThreshold == outcome.merged.outAmount
  {
  }
}
