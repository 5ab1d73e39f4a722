/**
 * The portfolio valuation of the PortfolioValue component: the price-feed
 * ids it asks for, the wallet-major grid of `balanceOf` reads, and the
 * fold of the positionally correlated results into one USD total.
 */
module PortfolioValue {
  import opened Options
  import opened Erc20

  /** A tracked token as the component receives it. */
  datatype Asset = Asset(address: Address, symbol: string, coingeckoId: string)

  // ---------------------------------------------------------------------
  // Price-feed ids
  // ---------------------------------------------------------------------

  /** The price-feed id of each chain's native coin. */
  const NativeIdMap: map<int, string> :=
    map[1 := "ethereum", 56 := "binancecoin", 137 := "matic-network", 11155111 := "ethereum"]

  /** The native coin's feed id; a chain missing from the table (or with an empty entry) falls back to "ethereum". */
  function NativeId(chainId: int): (id: string)
    ensures chainId in NativeIdMap ==> id == NativeIdMap[chainId]
    ensures chainId !in NativeIdMap ==> id == "ethereum"
    ensures id != ""
  {
    if chainId in NativeIdMap && NativeIdMap[chainId] != "" then NativeIdMap[chainId] else "ethereum"
  }

  predicate NoDuplicates(s: seq<string>) {
    forall i, j :: 0 <= i < j < |s| ==> s[i] != s[j]
  }

  /** Adds `rest` one element at a time to a JavaScript `Set` whose contents, in insertion order, are `seen`. */
  function InsertAll(seen: seq<string>, rest: seq<string>): (r: seq<string>)
    requires NoDuplicates(seen)
    ensures NoDuplicates(r)
    ensures forall x :: x in r <==> x in seen || x in rest
    ensures |seen| <= |r| && r[..|seen|] == seen
    decreases |rest|
  {
    if rest == [] then seen
    else if rest[0] in seen then InsertAll(seen, rest[1..])
    else InsertAll(seen + [rest[0]], rest[1..])
  }

  /** The position of the first occurrence of `x` in `s`. */
  function FirstIndex(s: seq<string>, x: string): (k: nat)
    requires x in s
    ensures k < |s| && s[k] == x
    ensures forall i :: 0 <= i < k ==> s[i] != x
    decreases |s|
  {
    if s[0] == x then 0 else 1 + FirstIndex(s[1..], x)
  }

  /** A position holding `x` with no `x` before it is the first occurrence. */
  lemma FirstIndexAt(s: seq<string>, x: string, k: nat)
    requires k < |s| && s[k] == x
    requires forall i :: 0 <= i < k ==> s[i] != x
    ensures x in s && FirstIndex(s, x) == k
  {
  }

  /** Every element of `r` occurs in `s`, and `r` lists them in the order of their first occurrences in `s`. */
  predicate InFirstOccurrenceOrder(r: seq<string>, s: seq<string>) {
    (forall x :: x in r ==> x in s)
    && forall i, j :: 0 <= i < j < |r| ==> FirstIndex(s, r[i]) < FirstIndex(s, r[j])
  }

  /**
   * Dropping an element `y` that already occurs earlier, in `a`, moves the
   * first occurrence of every other value after it down by one.
   */
  lemma DropRepeatShift(a: seq<string>, y: string, b: seq<string>, x: string)
    requires y in a && x in a + b
    ensures x in a + [y] + b
    ensures var k := FirstIndex(a + b, x);
            FirstIndex(a + [y] + b, x) == if k < |a| then k else k + 1
  {
    var s1, s2 := a + [y] + b, a + b;
    var k := FirstIndex(s2, x);
    assert forall i :: 0 <= i < |a| ==> s1[i] == a[i] == s2[i];
    if k < |a| {
      FirstIndexAt(s1, x, k);
    } else {
      assert s1[k + 1] == s2[k];
      forall i | 0 <= i < k + 1
        ensures s1[i] != x
      {
        if i < |a| {
        } else if i == |a| {
          assert s1[i] == y;
        } else {
          assert s1[i] == s2[i - 1];
        }
      }
      FirstIndexAt(s1, x, k + 1);
    }
  }

  /** A sequence without repetition lists its elements in the order of their first occurrences in itself. */
  lemma OwnOrder(s: seq<string>)
    requires NoDuplicates(s)
    ensures InFirstOccurrenceOrder(s, s)
  {
    forall i | 0 <= i < |s|
      ensures FirstIndex(s, s[i]) == i
    {
      FirstIndexAt(s, s[i], i);
    }
  }

  /** Re-inserting an element that occurs earlier does not change the order of first occurrences. */
  lemma OrderIgnoresRepeat(a: seq<string>, y: string, b: seq<string>, r: seq<string>)
    requires y in a
    requires InFirstOccurrenceOrder(r, a + b)
    ensures InFirstOccurrenceOrder(r, a + [y] + b)
  {
    forall x | x in a + b
      ensures x in a + [y] + b
      ensures var k := FirstIndex(a + b, x);
              FirstIndex(a + [y] + b, x) == if k < |a| then k else k + 1
    {
      DropRepeatShift(a, y, b, x);
    }
  }

  /** A `Set` keeps its elements in insertion order: the result follows the first occurrences in `seen + rest`. */
  lemma {:induction false} InsertAllFirstOccurrenceOrder(seen: seq<string>, rest: seq<string>)
    requires NoDuplicates(seen)
    ensures InFirstOccurrenceOrder(InsertAll(seen, rest), seen + rest)
    decreases |rest|
  {
    if rest == [] {
      assert seen + rest == seen;
      OwnOrder(seen);
    } else if rest[0] in seen {
      InsertAllFirstOccurrenceOrder(seen, rest[1..]);
      OrderIgnoresRepeat(seen, rest[0], rest[1..], InsertAll(seen, rest[1..]));
      assert seen + rest == seen + [rest[0]] + rest[1..];
    } else {
      assert (seen + [rest[0]]) + rest[1..] == seen + rest;
      InsertAllFirstOccurrenceOrder(seen + [rest[0]], rest[1..]);
    }
  }

  /** `Array.from(new Set(ids))`: each id once, in order of first occurrence. */
  function Distinct(ids: seq<string>): (r: seq<string>)
    ensures NoDuplicates(r)
    ensures forall x :: x in r <==> x in ids
    ensures InFirstOccurrenceOrder(r, ids)
    ensures |ids| > 0 ==> |r| > 0 && r[0] == ids[0]
  {
    if ids == [] then []
    else
      assert [ids[0]] + ids[1..] == ids;
      InsertAllFirstOccurrenceOrder([ids[0]], ids[1..]);
      InsertAll([ids[0]], ids[1..])
  }

  /** `tokens.map(t => t.coingeckoId)` */
  function FeedIds(assets: seq<Asset>): (ids: seq<string>)
    ensures |ids| == |assets|
    ensures forall j :: 0 <= j < |assets| ==> ids[j] == assets[j].coingeckoId
  {
    seq(|assets|, j requires 0 <= j < |assets| => assets[j].coingeckoId)
  }

  /** The ids of one price request: the native coin's first, then every token's, without repetition. */
  function RequestedIds(chainId: int, assets: seq<Asset>): (ids: seq<string>)
    ensures NoDuplicates(ids)
    ensures |ids| > 0 && ids[0] == NativeId(chainId)
    ensures forall j :: 0 <= j < |assets| ==> assets[j].coingeckoId in ids
    ensures forall x :: x in ids ==> x == NativeId(chainId) || exists j :: 0 <= j < |assets| && assets[j].coingeckoId == x
    ensures InFirstOccurrenceOrder(ids, [NativeId(chainId)] + FeedIds(assets))
  {
    var feed := FeedIds(assets);
    var all := [NativeId(chainId)] + feed;
    assert forall x :: x in all <==> x == NativeId(chainId) || x in feed;
    assert forall x :: x in feed ==> exists j :: 0 <= j < |assets| && assets[j].coingeckoId == x;
    assert forall j :: 0 <= j < |assets| ==> feed[j] in all;
    Distinct(all)
  }

  // ---------------------------------------------------------------------
  // The price snapshot
  // ---------------------------------------------------------------------

  /** Feed id to `value.usd`; `None` stands for an entry that came back without a usd field. */
  type PriceMap = map<string, Option<real>>

  /** The map that assigning every entry of the reply, in order, produces. */
  function PricesOf(entries: seq<(string, Option<real>)>): (m: PriceMap)
    ensures m.Keys == set i | 0 <= i < |entries| :: entries[i].0
    decreases |entries|
  {
    if entries == [] then map[]
    else
      var last := entries[|entries| - 1];
      var m := PricesOf(entries[..|entries| - 1])[last.0 := last.1];
      assert forall i :: 0 <= i < |entries| - 1 ==> entries[..|entries| - 1][i] == entries[i];
      m
  }

  /** The price kept for a key is the one of the last entry with that key. */
  lemma {:induction false} LastEntryWins(entries: seq<(string, Option<real>)>, i: nat)
    requires i < |entries|
    requires forall j :: i < j < |entries| ==> entries[j].0 != entries[i].0
    ensures entries[i].0 in PricesOf(entries) && PricesOf(entries)[entries[i].0] == entries[i].1
    decreases |entries|
  {
    if i < |entries| - 1 {
      var init := entries[..|entries| - 1];
      assert init[i] == entries[i];
      LastEntryWins(init, i);
    }
  }

  /** The `for` loop that fills `priceMap` from `Object.entries(data)`. */
  method BuildPriceMap(entries: seq<(string, Option<real>)>) returns (priceMap: PriceMap)
    ensures priceMap == PricesOf(entries)
  {
    priceMap := map[];
    for i := 0 to |entries|
      invariant priceMap == PricesOf(entries[..i])
    {
      assert entries[..i + 1][..i] == entries[..i];
      priceMap := priceMap[entries[i].0 := entries[i].1];
    }
    assert entries[..|entries|] == entries;
  }

  /** The component's price state and its loading flag. */
  class PriceFeed {
    var prices: PriceMap
    var isLoadingPrice: bool

    constructor ()
      ensures prices == map[] && !isLoadingPrice
    {
      prices := map[];
      isLoadingPrice := false;
    }

    /**
     * One run of `fetchPrices`. `service` stands for the price service:
     * given the requested ids it returns the reply's entries, or `None`
     * when the fetch or the parse threw. A failed run keeps the old prices.
     */
    method FetchPrices(chainId: int, assets: seq<Asset>, service: seq<string> -> Option<seq<(string, Option<real>)>>)
      modifies this
      ensures !isLoadingPrice
      ensures service(RequestedIds(chainId, assets)).Some? ==> prices == PricesOf(service(RequestedIds(chainId, assets)).value)
      ensures service(RequestedIds(chainId, assets)).None? ==> prices == old(prices)
    {
      isLoadingPrice := true;
      var reply := service(RequestedIds(chainId, assets));
      if reply.Some? {
        var priceMap := BuildPriceMap(reply.value);
        prices := priceMap;
      }
      isLoadingPrice := false;
    }
  }

  // ---------------------------------------------------------------------
  // The balance reads
  // ---------------------------------------------------------------------

  /** `calls[i * |assets| + j]` reads the balance of `wallets[i]` on token `assets[j]`, and there is nothing else. */
  predicate IsCallGrid(calls: seq<Call>, wallets: seq<Address>, assets: seq<Asset>) {
    && |calls| == |wallets| * |assets|
    && forall i, j :: 0 <= i < |wallets| && 0 <= j < |assets| ==>
         calls[GridIndex(i, j, |wallets|, |assets|)] == BalanceOf(assets[j].address, wallets[i])
  }

  /** The position `i * cols + j` of the pair (wallet i, token j) in a wallet-major grid of `rows` wallets. */
  function GridIndex(i: nat, j: nat, rows: nat, cols: nat): (k: nat)
    requires i < rows && j < cols
    ensures k == i * cols + j && k < rows * cols
  {
    GridBound(i, j, rows, cols);
    i * cols + j
  }

  lemma GridBound(i: nat, j: nat, rows: nat, cols: nat)
    requires i < rows && j < cols
    ensures i * cols + j < rows * cols
  {
    assert i * cols + j < i * cols + cols == (i + 1) * cols;
    assert (i + 1) * cols <= rows * cols;
  }

  /** The batch is queried only when there are wallets and tokens. */
  predicate BalanceQueryEnabled(wallets: seq<Address>, assets: seq<Asset>) {
    |wallets| > 0 && |assets| > 0
  }

  /** `contractCalls`: the nested `forEach` loops pushing one `balanceOf` per (wallet, token). */
  method BuildContractCalls(wallets: seq<Address>, assets: seq<Asset>) returns (calls: seq<Call>)
    ensures IsCallGrid(calls, wallets, assets)
  {
    calls := [];
    for i := 0 to |wallets|
      invariant |calls| == i * |assets|
      invariant forall i', j' :: 0 <= i' < i && 0 <= j' < |assets| ==>
                  calls[GridIndex(i', j', i, |assets|)] == BalanceOf(assets[j'].address, wallets[i'])
    {
      for j := 0 to |assets|
        invariant |calls| == i * |assets| + j
        invariant forall i', j' :: 0 <= i' < i && 0 <= j' < |assets| ==>
                    calls[GridIndex(i', j', i, |assets|)] == BalanceOf(assets[j'].address, wallets[i'])
        invariant forall j' :: 0 <= j' < j ==> calls[i * |assets| + j'] == BalanceOf(assets[j'].address, wallets[i])
      {
        calls := calls + [BalanceOf(assets[j].address, wallets[i])];
      }
      assert |calls| == (i + 1) * |assets|;
    }
  }

  lemma MulBound(x: int, c: int)
    requires c > 0
    ensures x >= 1 ==> x * c >= c
    ensures x <= -1 ==> x * c <= -c
  {
    if x >= 1 {
      assert x * c == (x - 1) * c + c;
    } else if x <= -1 {
      assert x * c == (x + 1) * c - c;
    }
  }

  /** Splitting a grid position into its row and column. */
  lemma GridDivMod(i: nat, j: nat, cols: nat)
    requires j < cols
    ensures (i * cols + j) / cols == i && (i * cols + j) % cols == j
  {
    var k := i * cols + j;
    var q, r := k / cols, k % cols;
    assert k == q * cols + r;
    assert (i - q) * cols == r - j;
    MulBound(i - q, cols);
  }

  /** Read `k` of the grid is the balance of wallet `k / |assets|` on token `k % |assets|`. */
  lemma {:induction false} CallAt(calls: seq<Call>, wallets: seq<Address>, assets: seq<Asset>, k: nat)
    requires IsCallGrid(calls, wallets, assets)
    requires k < |calls|
    ensures |assets| > 0 && k / |assets| < |wallets|
    ensures calls[k] == BalanceOf(assets[k % |assets|].address, wallets[k / |assets|])
  {
    var n := |assets|;
    assert n > 0;
    var i, j := k / n, k % n;
    assert k == i * n + j;
    MulBound(i - |wallets| + 1, n);
    assert (i - |wallets| + 1) * n == i * n - |wallets| * n + n;
    assert 0 <= i < |wallets| && 0 <= j < n;
  }

  // ---------------------------------------------------------------------
  // The total
  // ---------------------------------------------------------------------

  /** The decimals heuristic: 6 for the symbols USDT and USDC (case-sensitive), 18 for every other symbol. */
  function DecimalsFor(symbol: string): (d: nat)
    ensures d == 6 <==> (symbol == "USDT" || symbol == "USDC")
    ensures d == 6 || d == 18
  {
    if symbol == "USDT" || symbol == "USDC" then 6 else 18
  }

  /** `prices[id] || 0`: an id with no price is priced 0. */
  function PriceOf(prices: PriceMap, id: string): (price: real)
    ensures id in prices && prices[id].Some? ==> price == prices[id].value
    ensures id !in prices || prices[id].None? ==> price == 0.0
  {
    if id in prices && prices[id].Some? then prices[id].value else 0.0
  }

  /** Whether a read contributes: it exists, succeeded and holds a positive balance. */
  predicate Counts(r: Option<CallResult<int>>) {
    r.Some? && r.value.Success? && r.value.result > 0
  }

  /** What one read adds to the total when priced as `asset`. */
  function PairValue(asset: Asset, r: Option<CallResult<int>>, prices: PriceMap): (v: real)
    ensures !Counts(r) ==> v == 0.0
    ensures PriceOf(prices, asset.coingeckoId) == 0.0 ==> v == 0.0
  {
    if Counts(r) then FormatUnits(r.value.result, DecimalsFor(asset.symbol)) * PriceOf(prices, asset.coingeckoId)
    else 0.0
  }

  /** A read that counts is worth its amount in tokens times the token's price. */
  lemma CountedPairValue(asset: Asset, r: Option<CallResult<int>>, prices: PriceMap, amount: real, price: real)
    requires Counts(r)
    requires amount == FormatUnits(r.value.result, DecimalsFor(asset.symbol)) && price == PriceOf(prices, asset.coingeckoId)
    ensures PairValue(asset, r, prices) == amount * price
  {
  }

  /** The value of results `0 .. n-1`, result `k` priced as token `k % |assets|`, the token of call `k`. */
  function FlatValue(assets: seq<Asset>, results: seq<CallResult<int>>, prices: PriceMap, n: nat): real
    requires |assets| > 0 || n == 0
  {
    if n == 0 then 0.0
    else FlatValue(assets, results, prices, n - 1) + PairValue(assets[(n - 1) % |assets|], ResultAt(results, n - 1), prices)
  }

  /** The total USD value the component displays. */
  function PortfolioTotal(wallets: seq<Address>, assets: seq<Asset>, balances: Option<seq<CallResult<int>>>, prices: PriceMap): (total: real)
    ensures balances.None? || |prices| == 0 ==> total == 0.0
    ensures |wallets| == 0 || |assets| == 0 ==> total == 0.0
  {
    if balances.None? || |prices| == 0 then 0.0
    else FlatValue(assets, balances.value, prices, |wallets| * |assets|)
  }

  /** `calculateTotal`: nested loops over wallets and tokens, advancing `index` by one per pair. */
  method CalculateTotal(wallets: seq<Address>, assets: seq<Asset>, balances: Option<seq<CallResult<int>>>, prices: PriceMap)
    returns (totalUSD: real)
    ensures totalUSD == PortfolioTotal(wallets, assets, balances, prices)
    ensures balances.None? || |prices| == 0 ==> totalUSD == 0.0
  {
    if balances.None? || |prices| == 0 {
      return 0.0;
    }
    var tokenBalances := balances.value;
    totalUSD := 0.0;
    var index := 0;
    for i := 0 to |wallets|
      invariant index == i * |assets|
      invariant totalUSD == FlatValue(assets, tokenBalances, prices, index)
    {
      totalUSD, index := AddWalletRow(assets, tokenBalances, prices, i, totalUSD, index);
    }
  }

  /** The inner `tokens.forEach` of `calculateTotal` for wallet `i`: reads `index .. index + |assets| - 1`. */
  method AddWalletRow(assets: seq<Asset>, tokenBalances: seq<CallResult<int>>, prices: PriceMap, ghost i: nat,
                      totalIn: real, indexIn: nat)
    returns (totalUSD: real, index: nat)
    requires indexIn == i * |assets|
    requires totalIn == FlatValue(assets, tokenBalances, prices, indexIn)
    ensures index == (i + 1) * |assets|
    ensures totalUSD == FlatValue(assets, tokenBalances, prices, index)
  {
    totalUSD, index := totalIn, indexIn;
    for j := 0 to |assets|
      invariant index == i * |assets| + j
      invariant totalUSD == FlatValue(assets, tokenBalances, prices, index)
    {
      var result := ResultAt(tokenBalances, index);
      ghost var pairValue := PairValue(assets[j], result, prices);
      FlatValueStep(assets, tokenBalances, prices, i, j);
      assert FlatValue(assets, tokenBalances, prices, index + 1) == totalUSD + pairValue;
      index := index + 1;
      if result.Some? && result.value.Success? {
        var balance := result.value.result;
        if balance > 0 {
          var decimals := DecimalsFor(assets[j].symbol);
          var amount := FormatUnits(balance, decimals);
          var price := PriceOf(prices, assets[j].coingeckoId);
          CountedPairValue(assets[j], result, prices, amount, price);
          totalUSD := totalUSD + amount * price;
        } else {
          assert pairValue == 0.0;
        }
      } else {
        assert pairValue == 0.0;
      }
    }
  }

  /** Advancing `index` past the pair (wallet i, token j) adds that pair's read, priced as token j. */
  lemma FlatValueStep(assets: seq<Asset>, results: seq<CallResult<int>>, prices: PriceMap, i: nat, j: nat)
    requires j < |assets|
    ensures FlatValue(assets, results, prices, i * |assets| + j + 1)
         == FlatValue(assets, results, prices, i * |assets| + j) + PairValue(assets[j], ResultAt(results, i * |assets| + j), prices)
  {
    var n := i * |assets| + j;
    GridDivMod(i, j, |assets|);
    assert assets[n % |assets|] == assets[j];
    assert FlatValue(assets, results, prices, n + 1)
        == FlatValue(assets, results, prices, n) + PairValue(assets[n % |assets|], ResultAt(results, n), prices);
  }

  // ---------------------------------------------------------------------
  // Properties of the total
  // ---------------------------------------------------------------------

  /** Two result lists (or price maps) whose every pair is worth the same give the same flat value. */
  lemma {:induction false} FlatValueAgrees(assets: seq<Asset>, r1: seq<CallResult<int>>, r2: seq<CallResult<int>>,
                                           p1: PriceMap, p2: PriceMap, n: nat)
    requires |assets| > 0 || n == 0
    requires forall k :: 0 <= k < n ==>
               PairValue(assets[k % |assets|], ResultAt(r1, k), p1) == PairValue(assets[k % |assets|], ResultAt(r2, k), p2)
    ensures FlatValue(assets, r1, p1, n) == FlatValue(assets, r2, p2, n)
  {
    if n > 0 {
      FlatValueAgrees(assets, r1, r2, p1, p2, n - 1);
    }
  }

  /** A failed, missing, zero or negative read adds nothing: replacing it with a failure leaves the total unchanged. */
  lemma SkippedReadAddsNothing(wallets: seq<Address>, assets: seq<Asset>, balances: seq<CallResult<int>>, prices: PriceMap, k: nat)
    requires k < |balances|
    requires !Counts(Some(balances[k]))
    ensures PortfolioTotal(wallets, assets, Some(balances[k := Failure]), prices)
         == PortfolioTotal(wallets, assets, Some(balances), prices)
  {
    var n := |wallets| * |assets|;
    forall m | 0 <= m < n
      ensures PairValue(assets[m % |assets|], ResultAt(balances[k := Failure], m), prices)
           == PairValue(assets[m % |assets|], ResultAt(balances, m), prices)
    {
    }
    FlatValueAgrees(assets, balances[k := Failure], balances, prices, prices, n);
  }

  /**
   * The price of an id that no token uses never reaches the total, whether
   * it replaces an entry or adds one: the native coin's price is fetched but
   * not counted.
   */
  lemma UnusedPriceIgnored(wallets: seq<Address>, assets: seq<Asset>, balances: Option<seq<CallResult<int>>>,
                           prices: PriceMap, id: string, p: Option<real>)
    requires forall j :: 0 <= j < |assets| ==> assets[j].coingeckoId != id
    ensures PortfolioTotal(wallets, assets, balances, prices[id := p]) == PortfolioTotal(wallets, assets, balances, prices)
  {
    assert id in prices[id := p];
    if balances.Some? {
      var n := |wallets| * |assets|;
      forall m | 0 <= m < n
        ensures PairValue(assets[m % |assets|], ResultAt(balances.value, m), prices[id := p])
             == PairValue(assets[m % |assets|], ResultAt(balances.value, m), prices)
      {
      }
      FlatValueAgrees(assets, balances.value, balances.value, prices[id := p], prices, n);
      if |prices| == 0 {
        FlatValueUnpriced(assets, balances.value, prices, n);
      }
    }
  }

  /** Without any price every read is worth 0, and so is the flat value. */
  lemma {:induction false} FlatValueUnpriced(assets: seq<Asset>, results: seq<CallResult<int>>, prices: PriceMap, n: nat)
    requires |assets| > 0 || n == 0
    requires |prices| == 0
    ensures FlatValue(assets, results, prices, n) == 0.0
  {
    if n > 0 {
      FlatValueUnpriced(assets, results, prices, n - 1);
      assert PriceOf(prices, assets[(n - 1) % |assets|].coingeckoId) == 0.0;
    }
  }

  /** The balance query is enabled exactly when the grid has a read in it; a disabled portfolio is worth 0. */
  lemma QueryEnabledIffReads(calls: seq<Call>, wallets: seq<Address>, assets: seq<Asset>,
                             balances: Option<seq<CallResult<int>>>, prices: PriceMap)
    requires IsCallGrid(calls, wallets, assets)
    ensures BalanceQueryEnabled(wallets, assets) <==> |calls| > 0
    ensures !BalanceQueryEnabled(wallets, assets) ==> PortfolioTotal(wallets, assets, balances, prices) == 0.0
  {
    if BalanceQueryEnabled(wallets, assets) {
      GridBound(0, 0, |wallets|, |assets|);
    }
  }
}
