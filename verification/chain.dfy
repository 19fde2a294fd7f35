/**
 The ledger vocabulary the bot speaks: 256-bit unsigned quantities, account
 addresses, the three contract calls it ever writes (ERC-20 `approve` on the
 share token, and the two shapes of vault `redeem`), and the EIP-1559
 dynamic-fee transaction that carries each call.
 */
module Chain {

  /** 2^256: every on-chain balance, allowance and share amount is below it. */
  const UINT256_LIMIT: nat := 0x1_0000_0000_0000_0000_0000_0000_0000_0000_0000_0000_0000_0000_0000_0000_0000_0000

  /** The largest uint256, 2^256 - 1: the "unlimited" ERC-20 allowance. */
  const MAX_UINT256: nat := UINT256_LIMIT - 1

  type Uint256 = x: nat | x < UINT256_LIMIT

  function Min(a: nat, b: nat): nat {
    if a <= b then a else b
  }

  function Max(a: nat, b: nat): nat {
    if a >= b then a else b
  }

  datatype Option<T> = None | Some(value: T)

  datatype Address = Address(value: nat)

  /** The contract a transaction is sent to. */
  datatype Target = ShareToken | Vault

  /** The calls the bot writes, with their ABI argument lists. */
  datatype Call =
    | Approve(spender: Address, amount: nat)
    | RedeemStandard(shares: nat, receiver: Address, owner: Address)
    | RedeemSimple(shares: nat)
  {
    predicate IsRedeem() {
      RedeemStandard? || RedeemSimple?
    }

    /** Number of ABI arguments the call is encoded with. */
    function Arity(): nat {
      match this
      case Approve(_, _) => 2
      case RedeemStandard(_, _, _) => 3
      case RedeemSimple(_) => 1
    }
  }

  /** A dynamic-fee (EIP-1559) transaction as the bot builds it, before signing. */
  datatype Tx = Tx(
    from: Address,
    to: Target,
    call: Call,
    nonce: nat,
    chainId: nat,
    gas: nat,
    maxFeePerGas: nat,
    maxPriorityFeePerGas: nat)
}
