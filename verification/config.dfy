/**
 The process-wide configuration, fixed at startup and never changed. Fee
 amounts are already converted to wei and the threshold to an exact decimal.
 */
module BotConfig {
  import opened Chain
  import opened Threshold

  /** How many shares one redemption takes: the whole balance, or at most a
      fixed number of base units. */
  datatype SharePolicy = All | Fixed(quantity: nat)

  datatype Config = Config(
    wallet: Address,
    vault: Address,
    chainId: nat,
    threshold: Decimal,
    policy: SharePolicy,
    priorityFee: nat,
    feeCap: nat,
    redeemGasLimit: nat)
}
