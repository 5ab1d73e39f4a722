/**
 * The TotalBalance component: one token, many wallets. One batch reads
 * every wallet's balance, then the token's `decimals` and `symbol`; the
 * balances are summed exactly as integers and scaled once at the end.
 */
module TotalBalance {
  import opened Options
  import opened Erc20

  /** A decoded return value: an unsigned integer (`balanceOf`, `decimals`) or a string (`symbol`). */
  datatype AbiValue = Uint(n: int) | Str(s: string)

  /** What the component shows. */
  datatype Display =
    | Computing                                    // "Calcul en cours..."
    | LoadError                                    // "Erreur chargement"
    | Total(raw: int, decimals: nat, symbol: string)

  /** `wallets.map(...)`: one `balanceOf` per wallet, in wallet order. */
  function BalanceCalls(token: Address, wallets: seq<Address>): (calls: seq<Call>)
    ensures |calls| == |wallets|
    ensures forall i :: 0 <= i < |wallets| ==> calls[i] == BalanceOf(token, wallets[i])
  {
    if wallets == [] then [] else [BalanceOf(token, wallets[0])] + BalanceCalls(token, wallets[1..])
  }

  /** `[...contracts, ...extraCalls]`: the balances, then `decimals`, then `symbol`. */
  function TotalBalanceCalls(token: Address, wallets: seq<Address>): (calls: seq<Call>)
    ensures |calls| == |wallets| + 2
    ensures forall i :: 0 <= i < |wallets| ==> calls[i] == BalanceOf(token, wallets[i])
    ensures calls[|wallets|] == Decimals(token) && calls[|wallets| + 1] == Symbol(token)
  {
    BalanceCalls(token, wallets) + [Decimals(token), Symbol(token)]
  }

  /** The query runs only when there is at least one wallet. */
  predicate QueryEnabled(wallets: seq<Address>) {
    |wallets| > 0
  }

  /** Whether `v` has the return type of the EIP-20 function `call` (uint256, uint8, string). */
  predicate Returns(call: Call, v: AbiValue) {
    match call
    case BalanceOf(_, _) => v.Uint? && v.n >= 0
    case Decimals(_) => v.Uint? && 0 <= v.n < 256
    case Symbol(_) => v.Str?
  }

  /** The batch answers `calls` one for one and in order, each success decoded by its function's return type. */
  predicate Answers(calls: seq<Call>, data: seq<CallResult<AbiValue>>) {
    |data| == |calls| && forall k :: 0 <= k < |data| && data[k].Success? ==> Returns(calls[k], data[k].result)
  }

  /** What one read adds to the sum: its balance when it succeeded, nothing when it failed. */
  function Amount(r: CallResult<AbiValue>): int {
    match r
    case Success(Uint(n)) => n
    case _ => 0
  }

  /** The exact integer sum of the successful balance reads in `data`. */
  function SuccessSum(data: seq<CallResult<AbiValue>>): int
    decreases |data|
  {
    if data == [] then 0 else SuccessSum(data[..|data| - 1]) + Amount(data[|data| - 1])
  }

  /**
   * The component's render for the batch `reply` (None while pending; a
   * disabled query never gets one). The metadata comes from the last two
   * results; only results `0 .. |wallets| - 1` are summed.
   */
  method Render(token: Address, wallets: seq<Address>, reply: Option<seq<CallResult<AbiValue>>>) returns (d: Display)
    requires reply.Some? ==> Answers(TotalBalanceCalls(token, wallets), reply.value)
    ensures !QueryEnabled(wallets) || reply.None? ==> d == Computing
    ensures QueryEnabled(wallets) && reply.Some? ==>
              var data := reply.value;
              if data[|wallets|].Failure? || data[|wallets| + 1].Failure? then d == LoadError
              else d == Total(SuccessSum(data[..|wallets|]), data[|wallets|].result.n, data[|wallets| + 1].result.s)
  {
    var data := if QueryEnabled(wallets) then reply else None;
    if data.None? {
      return Computing;
    }
    var results := data.value;
    var decimalsResult := results[|results| - 2];
    var symbolResult := results[|results| - 1];
    if decimalsResult.Failure? || symbolResult.Failure? {
      return LoadError;
    }
    assert Returns(Decimals(token), decimalsResult.result) && Returns(Symbol(token), symbolResult.result);
    var decimals := decimalsResult.result.n;
    var symbol := symbolResult.result.s;
    var totalBigInt := SumBalances(token, wallets, results);
    return Total(totalBigInt, decimals, symbol);
  }

  /** The `for` loop over the balance results: `totalBigInt += result` for each success. */
  method SumBalances(token: Address, wallets: seq<Address>, results: seq<CallResult<AbiValue>>) returns (totalBigInt: int)
    requires Answers(TotalBalanceCalls(token, wallets), results)
    ensures totalBigInt == SuccessSum(results[..|wallets|])
  {
    totalBigInt := 0;
    for i := 0 to |wallets|
      invariant totalBigInt == SuccessSum(results[..i])
    {
      var balanceResult := results[i];
      assert results[..i + 1][..i] == results[..i];
      if balanceResult.Success? {
        assert Returns(BalanceOf(token, wallets[i]), balanceResult.result);
        totalBigInt := totalBigInt + balanceResult.result.n;
      }
    }
  }

  /** The sum over a concatenation is the sum of the sums. */
  lemma {:induction false} SuccessSumAppend(a: seq<CallResult<AbiValue>>, b: seq<CallResult<AbiValue>>)
    ensures SuccessSum(a + b) == SuccessSum(a) + SuccessSum(b)
    decreases |b|
  {
    if b != [] {
      var b' := b[..|b| - 1];
      assert (a + b)[..|a + b| - 1] == a + b';
      SuccessSumAppend(a, b');
    } else {
      assert a + b == a;
    }
  }

  /** A batch whose every read failed sums to 0; one whose balances are all non-negative sums to at least 0. */
  lemma {:induction false} SuccessSumBounds(data: seq<CallResult<AbiValue>>)
    ensures (forall k :: 0 <= k < |data| ==> data[k].Failure?) ==> SuccessSum(data) == 0
    ensures (forall k :: 0 <= k < |data| ==> Amount(data[k]) >= 0) ==> SuccessSum(data) >= 0
    decreases |data|
  {
    if data != [] {
      var init := data[..|data| - 1];
      assert forall k :: 0 <= k < |init| ==> init[k] == data[k];
      SuccessSumBounds(init);
    }
  }

  /** A failed balance read, wherever it sits, adds nothing to the sum. */
  lemma FailedReadAddsNothing(a: seq<CallResult<AbiValue>>, b: seq<CallResult<AbiValue>>)
    ensures SuccessSum(a + [Failure] + b) == SuccessSum(a + b)
  {
    SuccessSumAppend(a + [Failure], b);
    SuccessSumAppend(a, [Failure]);
    SuccessSumAppend(a, b);
    assert SuccessSum([Failure]) == SuccessSum([]) + Amount(Failure);
  }

  /** The sum of every read scaled on its own. */
  function ScaledSum(data: seq<CallResult<AbiValue>>, decimals: nat): real
    decreases |data|
  {
    if data == [] then 0.0
    else ScaledSum(data[..|data| - 1], decimals) + FormatUnits(Amount(data[|data| - 1]), decimals)
  }

  /** Scaling the exact sum once gives the sum of the individually scaled balances. */
  lemma {:induction false} ScaledOnce(data: seq<CallResult<AbiValue>>, decimals: nat)
    ensures FormatUnits(SuccessSum(data), decimals) == ScaledSum(data, decimals)
    decreases |data|
  {
    if data != [] {
      var init := data[..|data| - 1];
      ScaledOnce(init, decimals);
      DivideSum(SuccessSum(init) as real, Amount(data[|data| - 1]) as real, Pow10(decimals) as real);
    }
  }

  lemma DivideSum(a: real, b: real, p: real)
    requires p > 0.0
    ensures (a + b) / p == a / p + b / p
  {
  }
}
