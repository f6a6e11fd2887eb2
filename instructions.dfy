/**
 * Instruction formatting and the assembly of the transaction's instruction
 * list (src/main.ts:58-68, 131-158).
 */
module Instructions {
  import opened Config
  import opened Seqs

  newtype Byte = x: int | 0 <= x < 256

  /** An account entry of an instruction as the swap-instruction service sends it. */
  datatype AccountJson = AccountJson(pubkey: Address, isSigner: bool, isWritable: bool)

  /** An instruction as the swap-instruction service sends it; data is base64 text. */
  datatype InstructionJson = InstructionJson(programId: Address, accounts: seq<AccountJson>, data: string)

  /** The response of the swap-instruction service. */
  datatype SwapInstructions = SwapInstructions(
    computeUnitLimit: int,
    setupInstructions: seq<InstructionJson>,
    swapInstruction: InstructionJson,
    addressLookupTableAddresses: seq<Address>)

  /** An account entry of a native instruction. */
  datatype AccountMeta = AccountMeta(pubkey: Address, isSigner: bool, isWritable: bool)

  /**
   * A native instruction. The compute-budget and system-transfer instructions
   * are built by library helpers whose encodings are not modelled, so they
   * keep their arguments; every other instruction is a program call.
   */
  datatype Instruction =
    | SetComputeUnitLimit(units: int)
    | SystemTransfer(fromPubkey: Address, toPubkey: Address, lamports: int)
    | ProgramCall(programId: Address, keys: seq<AccountMeta>, data: seq<Byte>)

  /** keys lists the same accounts as accounts, in the same order, with the same flags. */
  predicate SameAccounts(accounts: seq<AccountJson>, keys: seq<AccountMeta>)
  {
    |keys| == |accounts| &&
    forall i :: 0 <= i < |keys| ==>
      keys[i].pubkey == accounts[i].pubkey &&
      keys[i].isSigner == accounts[i].isSigner &&
      keys[i].isWritable == accounts[i].isWritable
  }

  /** One account of instructionFormat's key map: the pubkey and both flags carried over. */
  function AccountMetaOf(a: AccountJson): (m: AccountMeta)
    ensures SameAccounts([a], [m])
  {
    AccountMeta(a.pubkey, a.isSigner, a.isWritable)
  }

  /**
   * instructionFormat: the program id and the account list carried over, the
   * base64 payload decoded by the given decoder (a library call).
   */
  function InstructionFormat(ix: InstructionJson, decodeBase64: string -> seq<Byte>): (r: Instruction)
    ensures r.ProgramCall?
    ensures r.programId == ix.programId
    ensures SameAccounts(ix.accounts, r.keys)
    ensures r.data == decodeBase64(ix.data)
  {
    ProgramCall(ix.programId, Map(AccountMetaOf, ix.accounts), decodeBase64(ix.data))
  }

  /**
   * Lamports that the system transfers this code builds itself (the
   * SystemTransfer instructions of ixs) move out of owner. Instructions from
   * the swap-instruction service are opaque program calls and count for
   * nothing here, whatever program they address.
   */
  function TransferredFrom(ixs: seq<Instruction>, owner: Address): int
  {
    if ixs == [] then 0
    else
      (if ixs[0].SystemTransfer? && ixs[0].fromPubkey == owner then ixs[0].lamports else 0)
      + TransferredFrom(ixs[1..], owner)
  }

  lemma {:induction false} TransferredFromAppend(a: seq<Instruction>, b: seq<Instruction>, owner: Address)
    ensures TransferredFrom(a + b, owner) == TransferredFrom(a, owner) + TransferredFrom(b, owner)
  {
    if a == [] {
      assert a + b == b;
    } else {
      assert (a + b)[1..] == a[1..] + b;
      TransferredFromAppend(a[1..], b, owner);
    }
  }

  /** Program calls are not SystemTransfer instructions: they count for nothing here. */
  lemma {:induction false} ProgramCallsTransferNothing(ixs: seq<Instruction>, owner: Address)
    requires forall i :: 0 <= i < |ixs| ==> ixs[i].ProgramCall?
    ensures TransferredFrom(ixs, owner) == 0
  {
    if ixs != [] {
      ProgramCallsTransferNothing(ixs[1..], owner);
    }
  }

  /**
   * ixs is the list the cycle signs: the compute-unit limit, every setup
   * instruction in the order received, the swap, and the tip transfer last.
   */
  predicate IsAssembledFrom(ixs: seq<Instruction>, resp: SwapInstructions, payer: Address, tip: int,
                            decodeBase64: string -> seq<Byte>)
  {
    var n := |resp.setupInstructions|;
    |ixs| == n + 3 &&
    ixs[0] == SetComputeUnitLimit(resp.computeUnitLimit) &&
    (forall i :: 0 <= i < n ==> ixs[i + 1] == InstructionFormat(resp.setupInstructions[i], decodeBase64)) &&
    ixs[n + 1] == InstructionFormat(resp.swapInstruction, decodeBase64) &&
    ixs[n + 2] == SystemTransfer(payer, JitoTipAccount, tip)
  }

  /**
   * Builds the instruction list by appending, as the source grows its array.
   * Of the instructions this code builds itself, the compute-unit limit comes
   * first and the tip transfer last, and the tip transfer moves exactly tip
   * lamports out of the payer. What the service's setup and swap instructions
   * do when executed is not modelled: they are opaque program calls, so a
   * service instruction addressed to the system or compute-budget program is
   * not seen by the last three ensures.
   */
  method BuildInstructions(resp: SwapInstructions, payer: Address, tip: int,
                           decodeBase64: string -> seq<Byte>)
    returns (ixs: seq<Instruction>)
    ensures IsAssembledFrom(ixs, resp, payer, tip, decodeBase64)
    ensures forall i :: 1 <= i < |ixs| ==> !ixs[i].SetComputeUnitLimit?
    ensures forall i :: 0 <= i < |ixs| - 1 ==> !ixs[i].SystemTransfer?
    ensures TransferredFrom(ixs, payer) == tip
  {
    ixs := [];
    ixs := ixs + [SetComputeUnitLimit(resp.computeUnitLimit)];
    var setup := Map((ix: InstructionJson) => InstructionFormat(ix, decodeBase64), resp.setupInstructions);
    ixs := ixs + setup;
    var swap := InstructionFormat(resp.swapInstruction, decodeBase64);
    ixs := ixs + [swap];
    var tipTransfer := SystemTransfer(payer, JitoTipAccount, tip);
    ixs := ixs + [tipTransfer];

    ProgramCallsTransferNothing(setup + [swap], payer);
    TransferredFromAppend([SetComputeUnitLimit(resp.computeUnitLimit)], setup + [swap], payer);
    TransferredFromAppend([SetComputeUnitLimit(resp.computeUnitLimit)] + (setup + [swap]), [tipTransfer], payer);
    assert ixs == [SetComputeUnitLimit(resp.computeUnitLimit)] + (setup + [swap]) + [tipTransfer];
  }
}
