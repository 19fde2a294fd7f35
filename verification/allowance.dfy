/**
 Before a redemption the vault must be allowed to move the wallet's shares.
 If the observed ERC-20 allowance already covers the shares nothing is sent;
 otherwise one `approve(vault, 2^256 - 1)` is planned on the share token.
 */
module Allowance {
  import opened Chain
  import opened Fees
  import opened BotConfig

  /** Gas limit of the approval transaction. */
  const APPROVE_GAS_LIMIT: nat := 70000

  /** The approval transaction. Its priority fee and its fee cap come from two
      separate quotes, each from its own gas-price reading. */
  function ApproveTx(cfg: Config, nonce: nat, priorityGasPrice: nat, feeGasPrice: nat): (tx: Tx)
    ensures tx.call == Approve(cfg.vault, MAX_UINT256)
    ensures tx.to == ShareToken && tx.from == cfg.wallet && tx.nonce == nonce
    ensures tx.gas == APPROVE_GAS_LIMIT && tx.chainId == cfg.chainId
    ensures tx.maxFeePerGas == Quote(feeGasPrice, cfg.priorityFee, cfg.feeCap).maxFeePerGas
    ensures tx.maxPriorityFeePerGas == Quote(priorityGasPrice, cfg.priorityFee, cfg.feeCap).maxPriorityFeePerGas
    ensures tx.maxFeePerGas <= cfg.feeCap
    ensures tx.maxPriorityFeePerGas == cfg.priorityFee
  {
    Tx(cfg.wallet, ShareToken, Approve(cfg.vault, MAX_UINT256), nonce, cfg.chainId, APPROVE_GAS_LIMIT,
       Quote(feeGasPrice, cfg.priorityFee, cfg.feeCap).maxFeePerGas,
       Quote(priorityGasPrice, cfg.priorityFee, cfg.feeCap).maxPriorityFeePerGas)
  }

  /** The approval to send so that the vault may move `required` shares, if any. */
  function EnsureAllowance(cfg: Config, allowance: nat, required: nat, nonce: nat,
                           priorityGasPrice: nat, feeGasPrice: nat): (r: Option<Tx>)
    ensures r.None? <==> allowance >= required
    ensures r.Some? ==> r.value.call == Approve(cfg.vault, MAX_UINT256) && r.value.to == ShareToken
    ensures r.Some? ==> r.value.maxFeePerGas <= cfg.feeCap && r.value.maxPriorityFeePerGas == cfg.priorityFee
  {
    if allowance >= required then None
    else Some(ApproveTx(cfg, nonce, priorityGasPrice, feeGasPrice))
  }

  /** The share token's allowance for the vault once `approval` (if any) is
      mined: an ERC-20 `approve` sets the allowance to its amount. */
  function AllowanceAfter(cfg: Config, allowance: nat, approval: Option<Tx>): nat {
    match approval
    case Some(tx) =>
      if tx.to == ShareToken && tx.call.Approve? && tx.call.spender == cfg.vault then tx.call.amount else allowance
    case None => allowance
  }

  /** Once the planned approval (if any) is mined, checking again for the same
      or a smaller uint256 requirement plans nothing. */
  lemma EnsureAllowanceIdempotent(cfg: Config, allowance: nat, required: Uint256, later: nat,
                                  nonce: nat, g1: nat, g2: nat, nonce': nat, g1': nat, g2': nat)
    requires later <= required
    ensures var after := AllowanceAfter(cfg, allowance, EnsureAllowance(cfg, allowance, required, nonce, g1, g2));
            EnsureAllowance(cfg, after, later, nonce', g1', g2').None?
  {
  }

  /** After the maximal approval, no uint256 requirement needs another one. */
  lemma MaxApprovalCoversEverything(cfg: Config, allowance: nat, required: nat, later: Uint256,
                                    nonce: nat, g1: nat, g2: nat)
    requires allowance < required
    ensures var after := AllowanceAfter(cfg, allowance, EnsureAllowance(cfg, allowance, required, nonce, g1, g2));
            after == MAX_UINT256 && EnsureAllowance(cfg, after, later, nonce, g1, g2).None?
  {
  }
}
