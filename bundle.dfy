/** The JSON-RPC envelope that submits the signed transaction to the relay (src/main.ts:182-191). */
module Bundle {
  /**
   * A JSON-RPC request. The member the source calls `method` is rpcMethod here,
   * since `method` is a keyword of Dafny; params is a list of bundles, each a
   * list of encoded transactions.
   */
  datatype BundleRequest = BundleRequest(jsonrpc: string, id: int, rpcMethod: string, params: seq<seq<string>>)

  /** Every transaction of every bundle of the request, in order. */
  function BundledTransactions(params: seq<seq<string>>): seq<string>
  {
    if params == [] then [] else params[0] + BundledTransactions(params[1..])
  }

  /** The envelope for one signed, base58-encoded transaction. */
  function SendBundleRequest(encodedTx: string): (b: BundleRequest)
    ensures b.jsonrpc == "2.0" && b.id == 1 && b.rpcMethod == "sendBundle"
    ensures |b.params| == 1 && |b.params[0]| == 1
    ensures BundledTransactions(b.params) == [encodedTx]
  {
    BundleRequest("2.0", 1, "sendBundle", [[encodedTx]])
  }
}
