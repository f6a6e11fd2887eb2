/** Sequence helpers the source gets from JavaScript's Array. */
module Seqs {
  /**
   * Array.prototype.map: one result per element, in the same order.
   * The contract is what callers rely on; it needs the recursive call's contract.
   */
  function Map<A, B>(f: A -> B, s: seq<A>): (r: seq<B>)
    ensures |r| == |s|
    ensures forall i :: 0 <= i < |s| ==> r[i] == f(s[i])
  {
    if s == [] then [] else [f(s[0])] + Map(f, s[1..])
  }
}
