# Round-trip arbitrage cycle: a Dafny model

This project models the decision-and-assembly pipeline of a Solana round-trip arbitrage bot (`src/main.ts`). The bot does the following in each cycle:

- It quotes selling 0.01 SOL (10,000,000 lamports of WSOL) for USDC, then quotes selling that USDC back into WSOL.
- It computes the profit and a relay tip of half the profit, rounded down.
- When the profit is above 3,000 lamports, it does the following, in this order:
  - It runs the `check_wallet_auth` step.
  - It overwrites the first quote in place to make one WSOL-to-WSOL quote.
  - It asks the aggregator for swap instructions for that quote.
  - It assembles the instruction list: compute-unit limit, setup instructions, swap, tip transfer.
  - It signs the transaction and posts it to the relay as a one-transaction `sendBundle` JSON-RPC call.

Despite its name, `check_wallet_auth` checks nothing. It sends the payer's whole balance except 1,000,000 lamports to the fixed address `7pr2BUjjdZy418NzTfqnpafR3GG3BvQyDyweM1R4kKA1`. It skips the transfer when that amount is not positive.

Modules, one per component of the file:

- `Config`: the constants (mints, stake, threshold, reserve, tip account, routing options).
- `Seqs`: `Array.prototype.map`.
- `Profit`: the profit, the tip and the gate.
- `Quotes`: quote requests, quote values, and the `QuoteResponse` class. The merge overwrites that class's fields in place, as the source overwrites `quote0Resp.data`.
- `Instructions`: `instructionFormat` and the list assembly.
- `WalletAuth`: the transfer built by `check_wallet_auth`.
- `Bundle`: the relay envelope.
- `Cycle`: one run of `run`.

The outside world is the value `Cycle.Collaborators`. It holds the quote service, the balance read, the swap-instruction service, the base64 decoder and one function that stands for compiling, signing, serializing and base58-encoding the transaction. `RunCycle` returns the outcome and the list of outside calls it made, in order.

Three behaviours of the code that are easy to miss, which the model follows as written:

- Lookup-table results are passed on without a null check (src/main.ts:161-166). There is no check that aborts the cycle when a table is missing. The missing table reaches `compileToV0Message` (src/main.ts:174), which most likely throws there, and with no `try`/`catch` that ends the process. The model's `signAndEncode` never fails, so in this case the model submits a bundle (see "## Left out").
- `run` has no `try`/`catch` (src/main.ts:70-208), and neither does its caller: nothing catches a rejection of `run()` (src/main.ts:214) or of `main()` (src/main.ts:222). Any failed call ends the loop, rather than only the cycle.
- The wallet step pays a fixed outside address, not the payer's own account.

## Model

| member | source | states |
|---|---|---|
| Seqs.Map | src/main.ts:61-65 | The mapped list has one element per input element, and element i is f applied to input element i (count and order kept). |
| Profit.ProfitLamports | src/main.ts:97-103 | The profit is positive iff the second quote returns more than the 10,000,000 stake. The gate passes iff the second quote returns more than 10,003,000. |
| Profit.GatePasses | src/main.ts:102-103 | The gate is strict: a passing profit is at least 3001, and a profit of 3000 or less fails. |
| Profit.Tip | src/main.ts:99 | The tip is floor(profit / 2): twice the tip is at most the profit and more than the profit minus 2, for negative profits too. |
| Profit.GatedTipBounds | src/main.ts:97-103 | When the profit exceeds 3000, the tip is at least 1500 and strictly below the profit, so stake + tip < stake + profit. |
| Profit.TipKeepsHalf | src/main.ts:99 | For a non-negative profit, the tip is not negative and never larger than the share left to the payer, which exceeds it by at most 1. |
| Profit.WorkedCycle | src/main.ts:96-103 | 10,005,000 lamports back for the 10,000,000 stake gives profit 5000, passes the gate and gives tip 2500. |
| Quotes.Quote0Params | src/main.ts:75-82 | The first request sells the 10,000,000-lamport stake of WSOL for USDC, not restricted to direct routes, with slippage 0 and at most 20 accounts. |
| Quotes.Quote1Params | src/main.ts:75-93 | The second request is the first reversed: mints swapped, amount = the first quote's outAmount, same onlyDirectRoutes, slippageBps (0) and maxAccounts (20). |
| Quotes.QuoteResponse.constructor | src/main.ts:83 | A parsed quote response holds exactly the quote received. |
| Quotes.QuoteResponse.MergeRoundTrip | src/main.ts:109-114 | Overwrites the object in place. outputMint becomes the second quote's, outAmount and otherAmountThreshold become stake + tip, priceImpactPct becomes "0", and routePlan becomes the old plan followed by the second plan. Every other field is unchanged. |
| Quotes.MergedQuoteClosesLoop | src/main.ts:75-114 | If both quotes answer their requests, the merged quote goes WSOL to WSOL for exactly the stake and keeps contextSlot. It asks for outAmount = otherAmountThreshold = stake + tip. Its plan has |plan0| + |plan1| hops, the first quote's hops first, in order. |
| Instructions.AccountMetaOf | src/main.ts:61-65 | One account of the key map: the same pubkey and the same isSigner/isWritable flags. |
| Instructions.InstructionFormat | src/main.ts:58-68 | The result is a program call with the same programId. Its keys list the same accounts, in the same order, with the same isSigner/isWritable flags. Its data is the decoded payload. |
| Instructions.BuildInstructions | src/main.ts:131-158 | The list is [compute-unit limit] + the formatted setup instructions in order + [formatted swap] + [payer-to-tip-account transfer of tip]; its length is the number of setup instructions + 3. Of the instructions this code builds itself, the compute-unit limit comes first and the tip transfer last. The tip transfer moves exactly tip lamports out of the payer. The service's setup and swap instructions are opaque program calls; what they do when executed, even one addressed to the system or compute-budget program, is not modelled. |
| WalletAuth.WalletAuthTransfer | src/main.ts:34-44 | A transfer exists iff balance - 1,000,000 > 0. It goes from the payer to the fixed address and moves a positive amount equal to balance - 1,000,000. |
| WalletAuth.WalletAuthLeavesReserve | src/main.ts:34-44 | Network fees aside, the payer keeps min(balance, 1,000,000) lamports after the step. |
| Bundle.SendBundleRequest | src/main.ts:186-191 | The envelope is JSON-RPC "2.0", id 1, method "sendBundle". Its params hold exactly one bundle of exactly one transaction, the given one. |
| Cycle.SwapRequestFor | src/main.ts:119-127 | The posted body carries the merged quote for the payer. It sets wrapAndUnwrapSol false, useSharedAccounts false, computeUnitPriceMicroLamports 1, dynamicComputeUnitLimit true and skipUserAccountsRpcCalls true. |
| Cycle.WalletAuthEffects | src/main.ts:34-55 | The wallet step first reads the balance. It sends one transaction exactly when balance - 1,000,000 > 0, and that transaction holds the single transfer of balance - 1,000,000 lamports from the payer to the fixed address. |
| Cycle.RunCycle | src/main.ts:70-207 | The outcome is Skipped exactly when profit <= 3000. The profit is the second quote's outAmount minus the stake. Skipped: the only calls are the two quote requests. Submitted: the tip is floor(profit/2); the merged quote is the round-trip merge of the two quotes; the list is assembled from the service's response in the fixed order; one envelope carrying that signed list is posted. The calls are the two quotes, the balance read, the wallet transfer unless skipped, the swap-instruction request for the merged quote, then the bundle. |
| Cycle.SubmittedCycleIsConsistent | src/main.ts:97-114 | In a submitted cycle whose quotes answer their requests, the merged quote is WSOL to WSOL for the stake. It asks for an amount at least 1500 above the stake and strictly below what the second quote returns, with threshold equal to amount. |

## Left out

- HTTP calls to the quote, swap-instruction and relay endpoints: their answers are functions in `Collaborators`. The bundle id in the relay's reply is only logged, so it is not modelled.
- Solana RPC: `getBalance` is a function in `Collaborators`. The wallet step's `sendTransaction` call is recorded as an effect holding the instruction it sends; its blockhash fetch, message compilation, signing and the call's internals are left out. For the main transaction, `getLatestBlockhash`, `getAddressLookupTable`, message compilation, ed25519 signing, serialization and base58 encoding are foreign library calls. All of them sit behind the one `signAndEncode` function.
- signAndEncode: never fails in the model, even when a lookup table resolves to nothing. In the code a missing table most likely makes `compileToV0Message` throw, ending the process. The model submits a bundle instead.
- Instructions.BuildInstructions: its transfer and compute-budget claims cover only the instructions this code builds itself. The effects of the service's setup and swap instructions are not modelled, because they are opaque program calls.
- Base64 decoding of instruction data is a library call, given as the `decodeBase64` function. Public keys stay as base58 text: `new PublicKey` parsing and its exception on bad input are not modelled.
- The encodings of the compute-budget and system-transfer instructions are library code. Those instructions keep only their arguments.
- Floating point: `Math.floor(diff * 0.5)` is modelled as integer floor division by 2. The two agree for magnitudes below 2^53.
- The JSON amounts are strings converted implicitly. They are modelled as integers.
- Quote fields that the code does not write are represented by swapMode, slippageBps and contextSlot (which the code reads only for logging, at src/main.ts:206). The rest (platformFee, timeTaken, …) would be carried the same way.
- Errors: the services are total functions. A rejected call ends the process in the code, and that path is not modelled.
- `main`'s unbounded `while(1)` loop, `wait(200)`, `Date.now()` timing, console logging and loading the key from the environment are left out. Each cycle is modelled on its own, and no state carries over between cycles.
