/**
 The vault is probed once at startup with the ERC-4626 `asset()` accessor. An
 answer fixes the Standard interface (`previewRedeem` plus the three-argument
 `redeem(shares, receiver, owner)`); any failure fixes the Simple interface
 (a bare `redeem(shares)` and no preview).
 */
module Capability {
  import opened Chain

  /** What the startup `asset()` call produced. */
  datatype Probe = AssetAnswered(asset: Address) | ProbeFailed

  datatype Mode = Standard | Simple {
    /** Only the Standard interface offers `previewRedeem`. */
    predicate HasPreview() {
      Standard?
    }
  }

  function ResolveMode(probe: Probe): (m: Mode)
    ensures m.Standard? <==> probe.AssetAnswered?
    ensures m.HasPreview() <==> probe.AssetAnswered?
  {
    match probe
    case AssetAnswered(_) => Standard
    case ProbeFailed => Simple
  }

  /** The redeem call for `shares`, in the shape the mode binds; in the
      Standard shape the wallet is both the receiver and the owner. */
  function RedeemCall(mode: Mode, shares: nat, wallet: Address): (c: Call)
    ensures c.IsRedeem()
    ensures c.shares == shares
    ensures c.Arity() == (if mode.Standard? then 3 else 1)
    ensures c.RedeemStandard? ==> c.receiver == wallet && c.owner == wallet
  {
    match mode
    case Standard => RedeemStandard(shares, wallet, wallet)
    case Simple => RedeemSimple(shares)
  }

  /** Reads the interface back from the shape of a redeem call. */
  function ModeOf(c: Call): Mode
    requires c.IsRedeem()
  {
    if c.RedeemStandard? then Standard else Simple
  }

  /** The call shape determines the mode and the amount: building a redeem call
      and reading it back loses nothing. */
  lemma RedeemCallRevealsMode(mode: Mode, shares: nat, wallet: Address)
    ensures ModeOf(RedeemCall(mode, shares, wallet)) == mode
    ensures RedeemCall(mode, shares, wallet).shares == shares
  {
  }
}
