/**
 One cycle of the poll loop: gate on the vault's settlement-asset balance,
 gate on the wallet's share balance, pick the share quantity, (Standard mode
 only) gate on the previewed output, make sure of the allowance, and redeem.
 The ledger is abstracted into the values the cycle observes; the cycle
 returns what it decided, the transactions it writes, and the ordered list of
 ledger reads it made.
 */
module Redemption {
  import opened Chain
  import opened Threshold
  import opened Fees
  import opened Capability
  import opened BotConfig
  import opened Allowance

  /** The running bot: its configuration, the interface fixed by the startup
      probe, and the settlement asset's decimals, read once at startup. */
  datatype Bot = Bot(config: Config, mode: Mode, assetDecimals: nat)

  function Startup(cfg: Config, probe: Probe, assetDecimals: nat): (bot: Bot)
    ensures bot.config == cfg && bot.assetDecimals == assetDecimals
    ensures bot.mode.Standard? <==> probe.AssetAnswered?
  {
    Bot(cfg, ResolveMode(probe), assetDecimals)
  }

  /** The gas price read behind each fee quote of a cycle. */
  datatype GasReadings = GasReadings(approvePriority: nat, approveFee: nat, redeem: nat)

  /** What the ledger answers during one cycle. */
  datatype Observed = Observed(
    vaultAssets: Uint256,         // settlement-asset balance held by the vault
    shares: Uint256,              // the wallet's share balance
    previewRedeem: nat -> nat,    // the vault's previewRedeem estimate (Standard mode)
    allowance: Uint256,           // the share token's allowance from the wallet to the vault
    gas: GasReadings,
    approveNonce: nat,
    redeemNonce: nat,
    approvalConfirmed: bool)      // the approval's receipt arrived before the wait timed out

  /** A ledger read made by the cycle, in order. */
  datatype Read =
    | ReadVaultAssets
    | ReadShares
    | ReadPreview(shares: nat)
    | ReadAllowance
    | ReadNonce
    | ReadGasPrice

  datatype SkipReason = BelowThreshold | NoShares | PreviewTooSmall

  datatype Outcome =
    | Skipped(reason: SkipReason)
      /** The approval (if one was needed), then the redemption. */
    | Submitted(plan: seq<Tx>)
      /** The approval was sent but its receipt did not arrive in time; the
          cycle ends without a redemption. */
    | ApprovalUnconfirmed(approval: Tx)

  datatype CycleResult = CycleResult(outcome: Outcome, trace: seq<Read>)

  /** Every transaction the outcome writes, in submission order. */
  function Writes(o: Outcome): seq<Tx> {
    match o
    case Skipped(_) => []
    case Submitted(plan) => plan
    case ApprovalUnconfirmed(approval) => [approval]
  }

  /** The number of shares one redemption takes from an observed balance. */
  function RedeemQuantity(policy: SharePolicy, balance: nat): (q: nat)
    ensures q <= balance
    ensures policy.All? ==> q == balance
    ensures policy.Fixed? ==> q <= policy.quantity && (q == policy.quantity || q == balance)
  {
    match policy
    case All => balance
    case Fixed(n) => Min(balance, n)
  }

  /** The redemption transaction, in the call shape of the bot's mode. */
  function RedeemTx(bot: Bot, shares: nat, nonce: nat, gasPrice: nat): (tx: Tx)
    ensures tx.to == Vault && tx.from == bot.config.wallet && tx.nonce == nonce
    ensures tx.call.IsRedeem() && tx.call.shares == shares && ModeOf(tx.call) == bot.mode
    ensures tx.gas == bot.config.redeemGasLimit && tx.chainId == bot.config.chainId
    ensures tx.maxFeePerGas == Quote(gasPrice, bot.config.priorityFee, bot.config.feeCap).maxFeePerGas
    ensures tx.maxFeePerGas <= bot.config.feeCap
    ensures tx.maxPriorityFeePerGas == bot.config.priorityFee
  {
    var cfg := bot.config;
    var fee := Quote(gasPrice, cfg.priorityFee, cfg.feeCap);
    RedeemCallRevealsMode(bot.mode, shares, cfg.wallet);
    Tx(cfg.wallet, Vault, RedeemCall(bot.mode, shares, cfg.wallet), nonce, cfg.chainId,
       cfg.redeemGasLimit, fee.maxFeePerGas, fee.maxPriorityFeePerGas)
  }

  /** The vault holds enough settlement asset to be worth watching. */
  predicate VaultFunded(bot: Bot, obs: Observed) {
    MeetsThreshold(obs.vaultAssets, bot.assetDecimals, bot.config.threshold)
  }

  /** The share quantity a cycle that passes the first two gates works with. */
  function Candidate(bot: Bot, obs: Observed): nat {
    RedeemQuantity(bot.config.policy, obs.shares)
  }

  /** The preview gate: only Standard mode asks, and it passes when the
      previewed output meets the threshold. */
  predicate PreviewPasses(bot: Bot, obs: Observed) {
    bot.mode.Simple? || MeetsThreshold(obs.previewRedeem(Candidate(bot, obs)), bot.assetDecimals, bot.config.threshold)
  }

  /** All three gates pass: the cycle goes on to the allowance and the redemption. */
  predicate Proceeds(bot: Bot, obs: Observed) {
    VaultFunded(bot, obs) && obs.shares > 0 && PreviewPasses(bot, obs)
  }

  /** The approval a cycle that passes every gate sends for its candidate quantity, if any. */
  function PlannedApproval(bot: Bot, obs: Observed): Option<Tx> {
    EnsureAllowance(bot.config, obs.allowance, Candidate(bot, obs), obs.approveNonce,
                    obs.gas.approvePriority, obs.gas.approveFee)
  }

  /** One cycle of the loop. */
  function RunCycle(bot: Bot, obs: Observed): (c: CycleResult)
    ensures c.outcome.Skipped? <==> !Proceeds(bot, obs)
    ensures |c.trace| >= 1 && c.trace[0] == ReadVaultAssets
  {
    var cfg := bot.config;
    if !MeetsThreshold(obs.vaultAssets, bot.assetDecimals, cfg.threshold) then
      CycleResult(Skipped(BelowThreshold), [ReadVaultAssets])
    else if obs.shares == 0 then
      CycleResult(Skipped(NoShares), [ReadVaultAssets, ReadShares])
    else
      var q := RedeemQuantity(cfg.policy, obs.shares);
      var gateReads := [ReadVaultAssets, ReadShares] + (if bot.mode.Standard? then [ReadPreview(q)] else []);
      if bot.mode.Standard? && !MeetsThreshold(obs.previewRedeem(q), bot.assetDecimals, cfg.threshold) then
        CycleResult(Skipped(PreviewTooSmall), gateReads)
      else
        var approval := PlannedApproval(bot, obs);
        var allowanceReads := [ReadAllowance] + (if approval.Some? then [ReadNonce, ReadGasPrice, ReadGasPrice] else []);
        if approval.Some? && !obs.approvalConfirmed then
          CycleResult(ApprovalUnconfirmed(approval.value), gateReads + allowanceReads)
        else
          var redeem := RedeemTx(bot, q, obs.redeemNonce, obs.gas.redeem);
          var approvals := if approval.Some? then [approval.value] else [];
          CycleResult(Submitted(approvals + [redeem]), gateReads + allowanceReads + [ReadGasPrice, ReadNonce])
  }

  // ---------------------------------------------------------------------
  // Properties of one cycle
  // ---------------------------------------------------------------------

  /** Below the threshold the cycle skips, writes nothing and reads nothing
      beyond the vault's balance (in particular not the share balance). */
  lemma BelowThresholdSkips(bot: Bot, obs: Observed)
    ensures RunCycle(bot, obs).outcome == Skipped(BelowThreshold) <==> !VaultFunded(bot, obs)
    ensures !VaultFunded(bot, obs) ==>
              Writes(RunCycle(bot, obs).outcome) == [] && RunCycle(bot, obs).trace == [ReadVaultAssets]
  {
  }

  /** A wallet without shares skips and writes nothing, whatever the vault holds. */
  lemma NoSharesSkips(bot: Bot, obs: Observed)
    ensures RunCycle(bot, obs).outcome == Skipped(NoShares) <==> VaultFunded(bot, obs) && obs.shares == 0
    ensures obs.shares == 0 ==> Writes(RunCycle(bot, obs).outcome) == []
  {
  }

  /** The preview gate skips exactly when Standard mode previews too little,
      and Simple mode never reads a preview. */
  lemma PreviewGate(bot: Bot, obs: Observed)
    ensures RunCycle(bot, obs).outcome == Skipped(PreviewTooSmall) <==>
              && bot.mode.Standard? && VaultFunded(bot, obs) && obs.shares > 0
              && !MeetsThreshold(obs.previewRedeem(Candidate(bot, obs)), bot.assetDecimals, bot.config.threshold)
    ensures bot.mode.Simple? ==> forall i :: 0 <= i < |RunCycle(bot, obs).trace| ==> !RunCycle(bot, obs).trace[i].ReadPreview?
  {
  }

  /** A cycle writes nothing exactly when it skips. */
  lemma SkipIffNoWrites(bot: Bot, obs: Observed)
    ensures RunCycle(bot, obs).outcome.Skipped? <==> Writes(RunCycle(bot, obs).outcome) == []
  {
  }

  /** Every transaction a cycle writes carries a fee cap within the ceiling
      and exactly the configured priority fee. */
  lemma CycleFeesCapped(bot: Bot, obs: Observed)
    ensures forall tx | tx in Writes(RunCycle(bot, obs).outcome) ::
              tx.maxFeePerGas <= bot.config.feeCap && tx.maxPriorityFeePerGas == bot.config.priorityFee
  {
  }

  /** Each transaction a cycle writes bids exactly the quote computed from the
      gas price read just before it: the redemption from its own reading, the
      approval's fee cap from the second of its two readings. */
  lemma CycleBidsFreshQuotes(bot: Bot, obs: Observed)
    ensures forall tx | tx in Writes(RunCycle(bot, obs).outcome) && tx.call.IsRedeem() ::
              tx.maxFeePerGas == Quote(obs.gas.redeem, bot.config.priorityFee, bot.config.feeCap).maxFeePerGas
              && tx.gas == bot.config.redeemGasLimit
    ensures forall tx | tx in Writes(RunCycle(bot, obs).outcome) && tx.call.Approve? ::
              tx.maxFeePerGas == Quote(obs.gas.approveFee, bot.config.priorityFee, bot.config.feeCap).maxFeePerGas
              && tx.gas == APPROVE_GAS_LIMIT
  {
  }

  /** Every redemption a cycle writes takes the policy's quantity, which never
      exceeds the observed share balance, in the mode's call shape. */
  lemma CycleRedeemsWithinBalance(bot: Bot, obs: Observed)
    ensures forall tx | tx in Writes(RunCycle(bot, obs).outcome) && tx.call.IsRedeem() ::
              && tx.call.shares == Candidate(bot, obs)
              && tx.call.shares <= obs.shares
              && ModeOf(tx.call) == bot.mode
  {
  }

  /** An approval is written exactly when the cycle proceeds and the allowance
      falls short of the quantity; it is the maximal approval of the vault. */
  lemma ApprovalIffInsufficientAllowance(bot: Bot, obs: Observed)
    ensures (exists tx :: tx in Writes(RunCycle(bot, obs).outcome) && tx.call.Approve?) <==>
              Proceeds(bot, obs) && obs.allowance < Candidate(bot, obs)
    ensures forall tx | tx in Writes(RunCycle(bot, obs).outcome) && tx.call.Approve? ::
              tx.call == Approve(bot.config.vault, MAX_UINT256) && tx.to == ShareToken
  {
    var c := RunCycle(bot, obs);
    if Proceeds(bot, obs) && obs.allowance < Candidate(bot, obs) {
      var approval := PlannedApproval(bot, obs);
      assert Writes(c.outcome)[0] == approval.value;
    }
  }

  /** A submitted plan ends with the single redemption; an approval, when
      there is one, comes first; and the redemption is only written after the
      approval it needs has been confirmed. */
  lemma ApprovalPrecedesRedeem(bot: Bot, obs: Observed)
    ensures RunCycle(bot, obs).outcome.Submitted? ==>
              var plan := RunCycle(bot, obs).outcome.plan;
              && (|plan| == 1 || |plan| == 2)
              && plan[|plan| - 1].call.IsRedeem()
              && (|plan| == 2 <==> obs.allowance < Candidate(bot, obs))
              && (|plan| == 2 ==> plan[0].call.Approve? && obs.approvalConfirmed)
    ensures RunCycle(bot, obs).outcome.ApprovalUnconfirmed? <==>
              Proceeds(bot, obs) && obs.allowance < Candidate(bot, obs) && !obs.approvalConfirmed
  {
  }

  // ---------------------------------------------------------------------
  // Worked scenarios (threshold 10 units of a 6-decimal settlement asset)
  // ---------------------------------------------------------------------

  function ScenarioConfig(policy: SharePolicy): Config {
    Config(Address(1), Address(2), 43114, Decimal(10, 0), policy, 2_000_000_000, 40_000_000_000, 300000)
  }

  function ScenarioObserved(vaultAssets: Uint256, shares: Uint256, preview: nat, allowance: Uint256): Observed {
    Observed(vaultAssets, shares, _ => preview, allowance, GasReadings(25_000_000_000, 25_000_000_000, 25_000_000_000), 7, 8, true)
  }

  /** Vault 15 units, 1000 shares, Standard mode, preview 12 units, allowance
      already granted: one redemption of all 1000 shares. */
  lemma ScenarioStandardRedeemsAll()
    ensures var c := RunCycle(Bot(ScenarioConfig(All), Standard, 6), ScenarioObserved(15_000_000, 1000, 12_000_000, MAX_UINT256));
            c.outcome.Submitted? && |c.outcome.plan| == 1
            && c.outcome.plan[0].call == RedeemStandard(1000, Address(1), Address(1))
  {
  }

  /** Vault 5 units, below the threshold of 10: skipped, nothing written. */
  lemma ScenarioBelowThreshold(shares: Uint256)
    ensures var c := RunCycle(Bot(ScenarioConfig(All), Standard, 6), ScenarioObserved(5_000_000, shares, 0, 0));
            c.outcome == Skipped(BelowThreshold) && Writes(c.outcome) == []
  {
  }

  /** Simple mode, vault 20 units, 500 shares, allowance 0: the maximal
      approval, then the one-argument redemption, and no preview read. */
  lemma ScenarioSimpleApprovesThenRedeems()
    ensures var c := RunCycle(Bot(ScenarioConfig(All), Simple, 6), ScenarioObserved(20_000_000, 500, 0, 0));
            && c.outcome.Submitted? && |c.outcome.plan| == 2
            && c.outcome.plan[0].call == Approve(Address(2), MAX_UINT256)
            && c.outcome.plan[1].call == RedeemSimple(500)
            && ReadPreview(500) !in c.trace
  {
  }
}
