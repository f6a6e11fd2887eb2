/**
 * The transfer built by check_wallet_auth (src/main.ts:32-56). Despite its
 * name it checks nothing: it sends the payer's whole balance except
 * 1,000,000 lamports to the fixed address JitoSdkProgramId.
 */
module WalletAuth {
  import opened Config
  import opened Wrappers
  import opened Instructions

  /** The transfer for the given balance, or None when balance - reserve <= 0. */
  function WalletAuthTransfer(payer: Address, balance: int): (ix: Option<Instruction>)
    ensures ix.Some? <==> balance - WalletReserveLamports > 0
    ensures ix.Some? ==> ix.value.SystemTransfer? && ix.value.fromPubkey == payer &&
                         ix.value.toPubkey == JitoSdkProgramId && ix.value.lamports > 0 &&
                         ix.value.lamports + WalletReserveLamports == balance
  {
    var amount := balance - WalletReserveLamports;
    if amount <= 0 then None
    else Some(SystemTransfer(payer, JitoSdkProgramId, amount))
  }

  /** Lamports the wallet step sends out of the payer (zero when it is skipped). */
  function WalletAuthOutflow(payer: Address, balance: int): int
  {
    match WalletAuthTransfer(payer, balance)
    case None => 0
    case Some(ix) => TransferredFrom([ix], payer)
  }

  /**
   * Leaving network fees aside, what remains on the payer afterwards is the
   * smaller of its balance and the reserve.
   */
  lemma WalletAuthLeavesReserve(payer: Address, balance: int)
    ensures balance - WalletAuthOutflow(payer, balance) ==
            (if balance < WalletReserveLamports then balance else WalletReserveLamports)
  {
    match WalletAuthTransfer(payer, balance)
    case None =>
    case Some(ix) =>
      assert TransferredFrom([ix], payer) == ix.lamports + TransferredFrom([], payer);
  }
}
