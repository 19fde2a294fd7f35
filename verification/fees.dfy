/**
 The fee quote computed fresh before every transaction: the priority fee is
 the configured constant, and the fee cap bids two priority steps above the
 observed gas price, never beyond the configured ceiling. The two values fill
 the `maxPriorityFeePerGas` / `maxFeePerGas` fields of an EIP-1559 transaction.
 All amounts are in wei.
 */
module Fees {
  import opened Chain

  datatype FeeQuote = FeeQuote(maxFeePerGas: nat, maxPriorityFeePerGas: nat)

  /** The quote for one transaction, from the gas price observed just before it. */
  function Quote(gasPrice: nat, priorityFee: nat, feeCap: nat): (q: FeeQuote)
    ensures q.maxPriorityFeePerGas == priorityFee
    ensures q.maxFeePerGas <= feeCap
    ensures q.maxFeePerGas <= gasPrice + 2 * priorityFee
    ensures q.maxFeePerGas == feeCap || q.maxFeePerGas == gasPrice + 2 * priorityFee
  {
    FeeQuote(Min(feeCap, Max(gasPrice + 2 * priorityFee, 2 * priorityFee)), priorityFee)
  }

  /** A gas price is never negative, so the `max` with the bare double priority
      never wins: the fee cap is the ceiling or the doubled-priority bid, and it
      is at least the smaller of the ceiling and twice the priority fee. */
  lemma QuoteIsCappedBid(gasPrice: nat, priorityFee: nat, feeCap: nat)
    ensures Quote(gasPrice, priorityFee, feeCap).maxFeePerGas == Min(feeCap, gasPrice + 2 * priorityFee)
    ensures Quote(gasPrice, priorityFee, feeCap).maxFeePerGas >= Min(feeCap, 2 * priorityFee)
  {
  }

  /** EIP-1559 rejects a transaction whose priority fee exceeds its fee cap. */
  predicate Eip1559Consistent(q: FeeQuote) {
    q.maxPriorityFeePerGas <= q.maxFeePerGas
  }

  /** The quote is consistent exactly when the configured priority fee does not
      exceed the configured ceiling; nothing in the quote guards the other case. */
  lemma QuoteConsistentIffPriorityWithinCap(gasPrice: nat, priorityFee: nat, feeCap: nat)
    ensures Eip1559Consistent(Quote(gasPrice, priorityFee, feeCap)) <==> priorityFee <= feeCap
  {
  }

  /** A concrete quote whose priority fee exceeds its fee cap: ceiling 5 wei,
      priority 10 wei. */
  lemma QuoteCanUndercutPriority()
    ensures !Eip1559Consistent(Quote(0, 10, 5))
  {
  }
}
