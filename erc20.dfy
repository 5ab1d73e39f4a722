/**
 * The shapes shared by the components that read ERC-20 token contracts
 * (EIP-20 `balanceOf`, `decimals`, `symbol`) through one batched
 * multicall, and the exact decimal conversion of viem's `formatUnits`.
 */
module Erc20 {
  import opened Options

  type Address = string

  /** One read in a multicall batch: an EIP-20 view function on a token contract. */
  datatype Call =
    | BalanceOf(token: Address, owner: Address)
    | Decimals(token: Address)
    | Symbol(token: Address)

  /** What the batched read gives back for one call: `{status: 'success', result}` or `{status: 'failure'}`. */
  datatype CallResult<+T> = Success(result: T) | Failure

  /** `results[k]` in JavaScript: `undefined` (here `None`) past the end of the array. */
  function ResultAt<T>(results: seq<CallResult<T>>, k: nat): (r: Option<CallResult<T>>)
    ensures r.Some? <==> k < |results|
    ensures r.Some? ==> r.value == results[k]
  {
    if k < |results| then Some(results[k]) else None
  }

  function Pow10(n: nat): (p: nat)
    ensures p >= 1
  {
    if n == 0 then 1 else 10 * Pow10(n - 1)
  }

  /**
   * `formatUnits(value, decimals)`, taken as the exact rational it prints:
   * no decimals leave the integer as it is, and the sign is kept.
   */
  function FormatUnits(value: int, decimals: nat): (amount: real)
    ensures decimals == 0 ==> amount == value as real
    ensures (amount > 0.0 <==> value > 0) && (amount == 0.0 <==> value == 0)
  {
    value as real / Pow10(decimals) as real
  }
}
