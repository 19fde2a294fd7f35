/**
 The poll loop, cut to a finite run: the bot resolved at startup performs one
 cycle per observation, in order. The interface is fixed before the first
 cycle and nothing in a cycle can change it, so every redemption across the
 run has the call shape the startup probe chose.
 */
module Polling {
  import opened Chain
  import opened Capability
  import opened BotConfig
  import opened Redemption

  /** One cycle per observation, in order. */
  function Run(bot: Bot, observations: seq<Observed>): (rs: seq<CycleResult>)
    ensures |rs| == |observations|
    ensures forall i :: 0 <= i < |observations| ==> rs[i] == RunCycle(bot, observations[i])
  {
    if |observations| == 0 then []
    else [RunCycle(bot, observations[0])] + Run(bot, observations[1..])
  }

  /** Every transaction a run writes, in submission order. */
  function RunWrites(rs: seq<CycleResult>): seq<Tx> {
    if |rs| == 0 then [] else Writes(rs[0].outcome) + RunWrites(rs[1..])
  }

  /** No transaction of a whole run bids above the fee ceiling or changes the
      priority fee. */
  lemma {:induction false} RunFeesCapped(bot: Bot, observations: seq<Observed>)
    ensures forall tx | tx in RunWrites(Run(bot, observations)) ::
              tx.maxFeePerGas <= bot.config.feeCap && tx.maxPriorityFeePerGas == bot.config.priorityFee
  {
    if |observations| > 0 {
      var rs := Run(bot, observations);
      assert rs[1..] == Run(bot, observations[1..]);
      CycleFeesCapped(bot, observations[0]);
      RunFeesCapped(bot, observations[1..]);
    }
  }

  /** The startup probe decides the redemption shape for the whole run: the
      three-argument `redeem(shares, wallet, wallet)` when `asset()` answered,
      the one-argument `redeem(shares)` when it failed. */
  lemma {:induction false} ProbeFixesRedeemShape(cfg: Config, probe: Probe, assetDecimals: nat, observations: seq<Observed>)
    ensures forall tx | tx in RunWrites(Run(Startup(cfg, probe, assetDecimals), observations)) && tx.call.IsRedeem() ::
              && (probe.AssetAnswered? <==> tx.call.RedeemStandard?)
              && (tx.call.RedeemStandard? ==> tx.call.receiver == cfg.wallet && tx.call.owner == cfg.wallet)
              && tx.call.Arity() == (if probe.AssetAnswered? then 3 else 1)
  {
    var bot := Startup(cfg, probe, assetDecimals);
    if |observations| > 0 {
      var rs := Run(bot, observations);
      assert rs[1..] == Run(bot, observations[1..]);
      CycleRedeemsWithinBalance(bot, observations[0]);
      RedeemShapeOfCycle(bot, observations[0]);
      ProbeFixesRedeemShape(cfg, probe, assetDecimals, observations[1..]);
    }
  }

  /** A redemption written by one cycle is built by the mode's redeem call. */
  lemma RedeemShapeOfCycle(bot: Bot, obs: Observed)
    ensures forall tx | tx in Writes(RunCycle(bot, obs).outcome) && tx.call.IsRedeem() ::
              tx.call == RedeemCall(bot.mode, tx.call.shares, bot.config.wallet)
  {
  }

  /** Cycles that skip contribute nothing: a run in which every cycle sees the
      vault below the threshold writes no transaction at all. */
  lemma {:induction false} IdleRunWritesNothing(bot: Bot, observations: seq<Observed>)
    requires forall i :: 0 <= i < |observations| ==> !VaultFunded(bot, observations[i])
    ensures RunWrites(Run(bot, observations)) == []
  {
    if |observations| > 0 {
      var rs := Run(bot, observations);
      assert rs[1..] == Run(bot, observations[1..]);
      BelowThresholdSkips(bot, observations[0]);
      IdleRunWritesNothing(bot, observations[1..]);
    }
  }
}
