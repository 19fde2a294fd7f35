# eUSDt-3 redeemer: the per-cycle redemption decision

The redeemer is a bot that watches an on-chain vault. When the vault's
settlement asset (USDT) balance crosses a threshold, it redeems the operator's
vault shares (eUSDt-3 LP tokens). This project models the decision the bot
makes on each poll cycle, as pure functions over natural numbers. It proves
what the bot promises about its fees, quantities, approvals and call shapes.

- `Chain` (`chain.dfy`): uint256 quantities, addresses, and the three calls
  the bot writes: ERC-20 `approve` on the share token, and the vault `redeem`
  in the three-argument ERC-4626 shape or the bare one-argument shape. It
  also holds the EIP-1559 dynamic-fee transaction that carries each call.
- `Threshold` (`threshold.dfy`): the float comparison `balance / 10^decimals
  >= MIN_REDEEM_USDT`, made exact over integers, with a proof that it agrees
  with exact real division.
- `Fees` (`fees.dfy`): `now_base_fees`. The priority fee is the configured
  constant. The fee cap is `min(cap, max(gasPrice + 2·prio, 2·prio))`.
- `Capability` (`capability.dfy`): the startup `asset()` probe. Success picks
  the Standard (ERC-4626) interface; any failure picks the Simple interface.
  The module also builds the redeem call in the chosen shape.
- `BotConfig` (`config.dfy`): the immutable configuration. Fees are in wei, the
  threshold is an exact decimal, and the share policy is `All` or `Fixed(q)`.
- `Allowance` (`allowance.dfy`): `ensure_allowance`. Nothing is sent when the
  allowance covers the shares. Otherwise the module plans
  `approve(vault, 2^256 - 1)`.
- `Redemption` (`redemption.dfy`): one pass through the body of `loop`,
  including `redeem_once`. The ledger is abstracted into an `Observed` record
  holding balances, the preview function, the allowance, gas-price readings,
  nonces, and whether the approval receipt arrived. The cycle returns an
  `Outcome`, which is one of three things. `Skipped(reason)` means the cycle
  skipped with reason `BelowThreshold`, `NoShares` or `PreviewTooSmall`.
  `Submitted(plan)` is an optional approve followed by the redeem.
  `ApprovalUnconfirmed` means the approval was sent, its receipt wait timed
  out, and no redeem followed. The cycle also returns the ordered trace of
  ledger reads it made.
- `Polling` (`polling.dfy`): a finite run of cycles by the bot resolved at
  startup. It shows that the fee bounds and the redeem call shape hold across
  the whole run.

Two behaviours of the code are modelled as written:
- Any exception from `asset()`, including a transient RPC error, selects the
  Simple interface (bot.py:54-56). The process stops at startup only if one of
  the `decimals()` reads at bot.py:58-59 also fails.
- "Confirmed" means only that the approval's receipt arrived within the wait
  (bot.py:93). The receipt's status is never inspected. A reverted approval
  is therefore still followed by the redeem.

## Model

| member | source | states |
|---|---|---|
| Fees.Quote | bot.py:61-68 | the priority fee is exactly the configured constant; the fee cap never exceeds the configured ceiling and is either the ceiling or the gas price plus two priority steps |
| Fees.QuoteIsCappedBid | bot.py:67 | since a gas price is non-negative, the fee cap equals `min(cap, gasPrice + 2·prio)` and is at least `min(cap, 2·prio)` |
| Fees.QuoteConsistentIffPriorityWithinCap | bot.py:63-67 | the quote satisfies EIP-1559's `maxPriorityFeePerGas <= maxFeePerGas` if and only if the configured priority fee is within the configured ceiling; nothing guards the other case |
| Fees.QuoteCanUndercutPriority | bot.py:67 | with a 5 wei ceiling and a 10 wei priority fee, the quoted fee cap is below the priority fee |
| Threshold.MeetsThreshold | bot.py:70-72 | the threshold test on `balance / 10^USDT_DEC` is decided exactly over integers, and it holds if and only if `balance / 10^decimals >= m / 10^s` in real arithmetic; the cycle uses it for the vault gate (bot.py:127) and, negated, for the preview gate (bot.py:138-139) |
| Capability.ResolveMode | bot.py:50-56 | the interface is Standard, with a preview, exactly when the `asset()` probe answered; any probe failure gives Simple |
| Capability.RedeemCall | bot.py:99-116 | a redeem of exactly the given shares: three arguments with the wallet as receiver and owner in Standard mode, one argument in Simple mode |
| Capability.RedeemCallRevealsMode | bot.py:99-116 | the mode and the share amount can be read back from the built redeem call |
| Allowance.ApproveTx | bot.py:82-89 | the approval is `approve(vault, 2^256 - 1)` sent to the share token from the wallet with the given nonce, the configured chain id and a 70000 gas limit; its fee cap is the quote from the second gas-price reading and its priority fee the quote from the first, so the cap is within the ceiling and the priority fee is the constant |
| Allowance.EnsureAllowance | bot.py:77-82 | an approval is planned if and only if the allowance is below the requirement, and it is always the maximal approval of the vault |
| Allowance.EnsureAllowanceIdempotent | bot.py:78-82 | once the planned approval (if any) is mined, a second check for the same or a smaller uint256 requirement plans nothing |
| Allowance.MaxApprovalCoversEverything | bot.py:82 | after an approval, the allowance is `2^256 - 1` and no uint256 requirement needs another approval |
| Redemption.Startup | bot.py:50-59 | the bot's mode is Standard exactly when the probe answered; its configuration and the asset decimals read at startup are kept unchanged |
| Redemption.RedeemQuantity | bot.py:129-134 | the quantity never exceeds the observed share balance; it is the whole balance under `ALL`, and under `Fixed(q)` it is at most `q` and equals `q` or the balance |
| Redemption.RedeemTx | bot.py:96-116 | the redeem is sent to the vault from the wallet with the given nonce, the configured chain id and the configured redeem gas limit, in the mode's call shape, for the given shares; its fee cap is exactly the quote from the gas price read before it, so it is within the ceiling, and its priority fee is the constant |
| Redemption.RunCycle | bot.py:126-144 | a cycle skips exactly when one of the three gates (vault funded, shares held, preview large enough) fails, and its first ledger read is always the vault's balance |
| Redemption.BelowThresholdSkips | bot.py:126-127 | below the threshold, and only then, the cycle skips with `BelowThreshold`; it writes nothing, and the vault balance is its only read (the share balance is not read) |
| Redemption.NoSharesSkips | bot.py:129-132 | a funded vault and a zero share balance skip with `NoShares`, and only they do; a zero share balance writes nothing, whatever the vault holds |
| Redemption.PreviewGate | bot.py:137-141 | `PreviewTooSmall` happens exactly in Standard mode when the preview of the candidate quantity is below the threshold; Simple mode never reads a preview |
| Redemption.SkipIffNoWrites | bot.py:126-144 | a cycle writes no transaction if and only if it skips |
| Redemption.CycleBidsFreshQuotes | bot.py:87-106 | every redeem a cycle writes bids the quote from the redeem's own gas-price reading with the redeem gas limit; every approval bids the quote from its second gas-price reading with the 70000 gas limit |
| Redemption.CycleFeesCapped | bot.py:82-116 | every transaction a cycle writes has a fee cap within the ceiling and exactly the configured priority fee |
| Redemption.CycleRedeemsWithinBalance | bot.py:129-144 | every redeem a cycle writes takes the policy's quantity, never more than the observed share balance, in the mode's shape |
| Redemption.ApprovalIffInsufficientAllowance | bot.py:80-82 | a cycle writes an approval if and only if it passes every gate and the allowance is below the quantity; the approval is always the maximal approval of the vault on the share token |
| Redemption.ApprovalPrecedesRedeem | bot.py:143-144 | a submitted plan is the redeem alone or an approval followed by the redeem; it has two steps exactly when the allowance is short, and only after the approval's receipt arrived; a missing receipt ends the cycle with the approval alone |
| Redemption.ScenarioStandardRedeemsAll | bot.py:126-144 | vault 15, threshold 10, 1000 shares, Standard mode, preview 12, allowance granted: one three-argument redeem of 1000 shares |
| Redemption.ScenarioBelowThreshold | bot.py:126-127 | vault 5 against threshold 10: `Skipped(BelowThreshold)` and no writes, whatever the share balance |
| Redemption.ScenarioSimpleApprovesThenRedeems | bot.py:137-144 | Simple mode, vault 20, 500 shares, allowance 0: the maximal approval, then a one-argument redeem of 500, and no preview read |
| Polling.Run | bot.py:124-154 | a run has one result per observation, and each is exactly the cycle of that observation by the one bot resolved at startup: cycles are independent and nothing carries over between them |
| Polling.RunFeesCapped | bot.py:124-154 | no transaction written in any cycle of a run bids above the ceiling or changes the priority fee |
| Polling.ProbeFixesRedeemShape | bot.py:50-56 | every redeem in every cycle of a run has the shape the startup probe chose: three arguments (wallet as receiver and owner) if `asset()` answered, one argument otherwise |
| Polling.RedeemShapeOfCycle | bot.py:99-116 | a redeem written by a cycle is exactly the mode's redeem call for its share amount |
| Polling.IdleRunWritesNothing | bot.py:124-127 | a run in which the vault stays below the threshold in every cycle writes no transaction |

## Left out

- Provider setup, ABI construction and checksum addresses are left out (bot.py:22-47). So are `build_transaction`, signing, `send_raw_transaction` and the receipt waits (bot.py:82-92, 94, 117-120, 146-152). These are library calls and network I/O. A planned `Tx` stands for the transaction that would be signed and sent. Only the timeout of the approval's receipt wait (bot.py:93) is modelled, by `Observed.approvalConfirmed`.
- Nonce sourcing is left out (bot.py:84, 98). Nonces are observed inputs carried into each `Tx`. The claim that consecutive nonces rise by one depends on the chain, not on this code.
- The model takes the chain id as a configuration value. The source reads it for every transaction (bot.py:85, 103, 112), and the read trace leaves those lookups out.
- Float handling is left out (bot.py:12, 17-18, 72, 138). The threshold is an exact `Decimal(mantissa, scale)`. The comparison is exact, so Python float rounding is abstracted away. Fee settings are naturals already in wei, so the float gwei-to-wei conversion is left out too.
- The two gas-price reads inside `ensure_allowance` (bot.py:87-88) are two independent observations. Each quote meets the fee bounds on its own.
- The redeem receipt wait after submission (bot.py:146-152) is left out. It only logs, and its result does not affect the next cycle.
- Exceptions from ledger reads in the middle of a cycle are left out. These are RPC errors, and in the source they are caught and followed by a backoff (bot.py:155-157). The model assumes every read answers. The only failure it models is the approval receipt wait timing out (bot.py:93).
- The `while True` driver, `time.sleep` and `print` are left out (bot.py:122-157). A finite `Polling.Run` stands in for the loop.
- Environment reading and the startup `assert` are left out (bot.py:6-19, 160). So is parsing `SHARES_TO_REDEEM`. The policy arrives as `All` or `Fixed(q)` with `q` a natural. In the source, a bad value raises only in cycles that pass the first two gates. A non-numeric value raises at `int(...)` (bot.py:134). A negative value parses, and raises when web3 encodes it as a uint256: at `previewRedeem` in Standard mode (bot.py:138), or at the redeem call in Simple mode (bot.py:109).
- The share token's decimals read (bot.py:59) is left out because the code never uses it.
