# Portfolio logic of a multi-wallet crypto dashboard

A Dafny model of the computations behind a Next.js/React dashboard that
tracks several EVM wallets and shows their worth, together with the
Bitcoin helpers of its utilities:

- **PortfolioValue** values every (wallet, token) pair in USD. It builds the
  list of price-feed ids (the chain's native coin first, then each token's,
  without repetition, like a JavaScript `Set`). It fills a price map from the
  price service's reply and keeps the old map when the fetch fails. It lays out
  one `balanceOf` read per (wallet, token) in wallet-major order. Its
  `calculateTotal` walks the results with a running `index` and prices result
  `k` as token `k % |tokens|`. That is the token of call `k`, so results and
  their pairs stay correlated. Only successful, positive reads count, with
  6 decimals for the symbols `USDT`/`USDC` and 18 for every other symbol.
- **TotalBalance** reads one token's balance for every wallet, then the
  token's `decimals` and `symbol`, in a single batch. It sums the successful
  balance reads exactly, as integers, and scales once at the end.
- **Bitcoin helpers**: a loose address check (prefix `1`, `3` or `bc1`,
  length 26 to 64 as JavaScript counts it, in UTF-16 code units) and a balance made of the confirmed plus the mempool
  funded-minus-spent satoshis. A failed lookup gives 0.
- **TokenScanner** turns the scan endpoint's token list into descriptors. It
  drops entries flagged as spam. The price-feed id is the lowercased name with
  every whitespace run replaced by one `-`.
- **ImportToken** validates a typed address, reads `symbol` and `name`, and
  hands a descriptor to the parent. Its price-feed id replaces only the first
  space. An invalid address or a failed read shows one error message;
  without a chain client it stops silently, with no error.
- **The scan endpoint** checks its query parameters and the server's API key,
  converts the decimal chain id to the `0x…` hexadecimal form Moralis expects,
  forwards the request, and relays the parsed reply.

Amounts are exact: balances are integers and `formatUnits` is a rational.
Network requests, the checksumming validator, the chain client and the
environment variable are parameters of the functions and methods that use
them.

Two behaviours of the code that the model keeps:

- A failed price fetch keeps the previous price map, because the `catch`
  only logs. It does not reset the total to 0.
- The scan endpoint relays whatever Moralis answers with status 200,
  including an error body. It does not check `response.ok`.

## Model

| member | source | states |
|---|---|---|
| Erc20.ResultAt | Components/PortfolioValue.tsx:89-92 | reading result `k` gives a value exactly when `k` is inside the results array, and then it is that element (JavaScript `undefined` past the end otherwise) |
| Erc20.FormatUnits | Components/PortfolioValue.tsx:101 | `formatUnits` as an exact rational: with no decimals it is the integer itself, and it is positive, zero or negative exactly when the integer is |
| PortfolioValue.NativeId | Components/PortfolioValue.tsx:8-30 | the native coin's feed id is the table's entry for a listed chain and "ethereum" for any other chain; it is never empty |
| PortfolioValue.InsertAll | Components/PortfolioValue.tsx:31 | inserting into an insertion-ordered set keeps what was there as a prefix, adds exactly the new elements, and never repeats one |
| PortfolioValue.InsertAllFirstOccurrenceOrder | Components/PortfolioValue.tsx:31 | the set lists its elements in the order of their first occurrences in what was there followed by what was inserted |
| PortfolioValue.Distinct | Components/PortfolioValue.tsx:31 | each id appears once, the same ids as the input, in the order of their first occurrences in the input (so the first id stays first) |
| PortfolioValue.FeedIds | Components/PortfolioValue.tsx:31 | the j-th id is the j-th token's feed id |
| PortfolioValue.RequestedIds | Components/PortfolioValue.tsx:30-31 | the request has no duplicate id, starts with the native coin's id, covers every token's id, asks for nothing else, and lists the ids in the order they first occur among the native id and the tokens' ids |
| PortfolioValue.PricesOf | Components/PortfolioValue.tsx:36-40 | the price map's keys are exactly the keys of the reply's entries |
| PortfolioValue.LastEntryWins | Components/PortfolioValue.tsx:37-40 | the price stored for a key is the one of the last entry with that key |
| PortfolioValue.BuildPriceMap | Components/PortfolioValue.tsx:36-40 | the loop over the reply's entries produces the price map defined by the entries |
| PortfolioValue.PriceFeed.constructor | Components/PortfolioValue.tsx:22-23 | prices start empty and not loading |
| PortfolioValue.PriceFeed.FetchPrices | Components/PortfolioValue.tsx:27-47 | after a run the flag is down; a reply replaces the prices with the map of its entries; a failed fetch or parse leaves the old prices |
| PortfolioValue.GridIndex | Components/PortfolioValue.tsx:56-69 | the pair (wallet i, token j) sits at `i * |tokens| + j`, inside the batch |
| PortfolioValue.BuildContractCalls | Components/PortfolioValue.tsx:56-69 | the batch has exactly `|wallets| * |tokens|` reads, and position `i * |tokens| + j` reads wallet i's balance on token j |
| PortfolioValue.CallAt | Components/PortfolioValue.tsx:86-90 | read k of the batch is wallet `k / |tokens|`'s balance on token `k % |tokens|`, so a running index over the batch pairs each result with its own token |
| PortfolioValue.DecimalsFor | Components/PortfolioValue.tsx:100 | 6 decimals exactly for the symbols USDT and USDC (case-sensitive), 18 otherwise |
| PortfolioValue.CalculateTotal | Components/PortfolioValue.tsx:81-110 | the nested loops return the flat value of the first `|wallets| * |tokens|` results with the current prices, and 0 when there are no balances or no prices yet |
| PortfolioValue.AddWalletRow | Components/PortfolioValue.tsx:88-106 | one wallet's row advances the index by `|tokens|` and adds exactly the value of those reads |
| PortfolioValue.FlatValueStep | Components/PortfolioValue.tsx:89-103 | the read at the pair (wallet i, token j) is priced as token j |
| PortfolioValue.PriceOf | Components/PortfolioValue.tsx:102 | a token's price is its entry's usd value, and 0 when the id has no entry or the entry has no usd value |
| PortfolioValue.Counts | Components/PortfolioValue.tsx:92-97 | a read contributes exactly when it exists, succeeded and holds a positive balance |
| PortfolioValue.PairValue | Components/PortfolioValue.tsx:92-103 | a read that does not count, or a token without a price, adds nothing; by definition a read that counts adds its amount in tokens times the token's price |
| PortfolioValue.FlatValue | Components/PortfolioValue.tsx:86-107 | the value of the first n results, result k being priced as token `k % |tokens|` |
| PortfolioValue.PortfolioTotal | Components/PortfolioValue.tsx:81-110 | the total is 0 without balances, without prices, without wallets or without tokens; otherwise it is the flat value of the whole grid |
| PortfolioValue.FlatValueAgrees | Components/PortfolioValue.tsx:87-107 | two result lists or price maps that value every pair the same give the same total |
| PortfolioValue.SkippedReadAddsNothing | Components/PortfolioValue.tsx:92-97 | a failed, zero or negative read contributes nothing: turning it into a failure leaves the total unchanged |
| PortfolioValue.UnusedPriceIgnored | Components/PortfolioValue.tsx:102 | the price of an id that no token uses (the native coin's) never changes the total, whether it replaces an entry or adds one to the map |
| PortfolioValue.FlatValueUnpriced | Components/PortfolioValue.tsx:102-103 | with no price at all every read is priced 0, so the flat value is 0 |
| PortfolioValue.BalanceQueryEnabled | Components/PortfolioValue.tsx:75 | the balance query runs only when there is at least one wallet and at least one token |
| PortfolioValue.QueryEnabledIffReads | Components/PortfolioValue.tsx:75 | the balance query is enabled exactly when the batch holds a read; without one the portfolio is worth 0 |
| TotalBalance.BalanceCalls | Components/TotalBalance.tsx:14-19 | one `balanceOf` of the token per wallet, in wallet order |
| TotalBalance.TotalBalanceCalls | Components/TotalBalance.tsx:14-28 | the batch is the wallets' balance reads, then `decimals`, then `symbol`, and nothing else |
| TotalBalance.QueryEnabled | Components/TotalBalance.tsx:30 | the batch is read only when there is at least one wallet |
| TotalBalance.SuccessSum | Components/TotalBalance.tsx:50-58 | the integer sum of the balances of the successful reads, failures adding nothing |
| TotalBalance.SumBalances | Components/TotalBalance.tsx:50-58 | the loop over the first `|wallets|` results returns the exact sum of their successful balances |
| TotalBalance.SuccessSumBounds | Components/TotalBalance.tsx:50-58 | an all-failed batch sums to 0, and non-negative balances sum to at least 0 |
| TotalBalance.Render | Components/TotalBalance.tsx:27-58 | computing while disabled or pending; a load error when `decimals` or `symbol` failed; otherwise the exact sum of the successful balance reads among the first `|wallets|` results, with the read decimals and symbol |
| TotalBalance.SuccessSumAppend | Components/TotalBalance.tsx:53-58 | the sum over a concatenation is the sum of the two sums |
| TotalBalance.FailedReadAddsNothing | Components/TotalBalance.tsx:55-57 | a failed balance read anywhere adds nothing to the sum |
| TotalBalance.ScaledOnce | Components/TotalBalance.tsx:66 | scaling the exact integer sum once equals summing the individually scaled balances |
| Bitcoin.CodeUnits | utils/bitcoin.ts:5 | a character takes two UTF-16 code units exactly when it lies outside the Basic Multilingual Plane, one otherwise |
| Bitcoin.Utf16Length | utils/bitcoin.ts:5 | JavaScript's `length` lies between the number of characters and twice it |
| Bitcoin.BmpLengthIsCount | utils/bitcoin.ts:5 | for text within the Basic Multilingual Plane, such as any ASCII address, `length` is the number of characters |
| Bitcoin.AstralLengthIsDouble | utils/bitcoin.ts:5 | text made only of characters outside the Basic Multilingual Plane has twice as many code units as characters |
| Bitcoin.IsValidBitcoinAddress | utils/bitcoin.ts:3-6 | accepted exactly when the UTF-16 length is 26 to 64 and the address starts with `1`, `3` or `bc1` |
| Bitcoin.BmpAddressBounds | utils/bitcoin.ts:5 | for an address within the Basic Multilingual Plane the bounds are on its number of characters |
| Bitcoin.AstralAddressRejected | utils/bitcoin.ts:5 | a `1` followed by 40 characters outside the Basic Multilingual Plane has 41 characters but 81 code units, and is rejected |
| Bitcoin.BoundaryLengthsRejected | utils/bitcoin.ts:5 | UTF-16 lengths 25 and 65 are rejected whatever the characters |
| Bitcoin.UpperCaseBech32Rejected | utils/bitcoin.ts:5 | the prefix test is case-sensitive: `BC1…` is rejected |
| Bitcoin.OnlyPrefixAndLengthMatter | utils/bitcoin.ts:5 | two addresses with the same UTF-16 length and first three characters are judged alike |
| Bitcoin.Satoshis | utils/bitcoin.ts:18-19 | the balance is all funded outputs minus all spent outputs, confirmed and mempool together |
| Bitcoin.BitcoinBalance | utils/bitcoin.ts:8-25 | a failed lookup gives 0; otherwise the balance times 10^8 is the satoshi balance |
| Bitcoin.OneBitcoin | utils/bitcoin.ts:21 | 10^8 confirmed satoshis is one bitcoin |
| Bitcoin.MempoolSpendCancelsConfirmed | utils/bitcoin.ts:18-19 | spending in the mempool what was funded on chain leaves a zero balance |
| Tokens.ToLowerCase | Components/TokenScanner.tsx:35 | same length, each character lowercased on its own |
| Tokens.IsJsWhitespace | Components/TokenScanner.tsx:35 | the characters `\s` matches: the ECMAScript WhiteSpace and LineTerminator characters |
| Tokens.LowerCaseKeepsWhitespace | Components/TokenScanner.tsx:35 | lowercasing keeps every whitespace character and every space where it was |
| TokenScanner.WithoutSpam | Components/TokenScanner.tsx:30 | the filter never lengthens the list |
| TokenScanner.WithoutSpamKeeps | Components/TokenScanner.tsx:30 | the kept entries are exactly the entries not flagged as spam |
| TokenScanner.WithoutSpamAppend | Components/TokenScanner.tsx:30 | the filter works part by part, so survivors keep their order |
| TokenScanner.NoSpamKeepsAll | Components/TokenScanner.tsx:30 | a list without spam passes unchanged |
| TokenScanner.CollapseWhitespace | Components/TokenScanner.tsx:35 | the result is no longer than the input |
| TokenScanner.CollapseLeavesNoWhitespace | Components/TokenScanner.tsx:35 | the result contains no whitespace character |
| TokenScanner.ScannerId | Components/TokenScanner.tsx:35 | the scanner's feed id contains no whitespace |
| TokenScanner.Describe | Components/TokenScanner.tsx:31-36 | a descriptor carries the entry's address, symbol and name, and a feed id without whitespace |
| TokenScanner.NewTokens | Components/TokenScanner.tsx:29-36 | one descriptor per non-spam entry, in order, carrying its address, symbol and name and the scanner's id of its name |
| TokenScanner.CollapseAppend | Components/TokenScanner.tsx:35 | the replacement splits at any point, carrying whether a whitespace run is open |
| TokenScanner.RunCollapses | Components/TokenScanner.tsx:35 | a whitespace run becomes one `-`, or nothing when it continues a run |
| TokenScanner.RunBoundaryInvisible | Components/TokenScanner.tsx:35 | text starting with a non-whitespace character is treated the same whether a run just ended or not |
| TokenScanner.MaximalRunBecomesOneHyphen | Components/TokenScanner.tsx:35 | each maximal whitespace run becomes exactly one `-`, and the text on both sides is treated on its own |
| TokenScanner.NoWhitespaceUnchanged | Components/TokenScanner.tsx:35 | text without whitespace is left unchanged |
| TokenScanner.HyphenateIdempotent | Components/TokenScanner.tsx:35 | applying the replacement again to an id changes nothing |
| TokenScanner.Connected | Components/TokenScanner.tsx:16 | a scan needs a non-empty account address and a non-zero chain id |
| TokenScanner.HandleScan | Components/TokenScanner.tsx:15-51 | nothing is requested exactly when no account or chain is connected; tokens are found exactly when the reply parsed with a result holding a non-spam entry, and then they are that result's descriptors |
| TokenScanner.NothingScannedWhenDisconnected | Components/TokenScanner.tsx:16 | without a connected account the outcome does not depend on the endpoint |
| ImportToken.ReplaceFirstSpace | Components/ImportToken.tsx:54 | the replacement keeps the length, and changes at most spaces, into `-` |
| ImportToken.ImportId | Components/ImportToken.tsx:54 | the import id is as long as the name, and each character is the name's character lowercased or, for a space, `-` |
| ImportToken.NoSpaceUnchanged | Components/ImportToken.tsx:54 | a string without a space is left unchanged |
| ImportToken.OnlyFirstSpaceReplaced | Components/ImportToken.tsx:54 | only the first space becomes `-`; every other character, later spaces included, stays |
| ImportToken.ImportIdShape | Components/ImportToken.tsx:54 | the import id is as long as the name, and is the lowercased name when the name has no space |
| ImportToken.ImportIdReplacesFirstSpace | Components/ImportToken.tsx:54 | the import id is the lowercased name with its first space turned into `-` |
| ImportToken.ImportAndScanIdsDiffer | Components/ImportToken.tsx:54 | for every name with a second space, the import id keeps that space and so differs from the scanner's id |
| ImportToken.IdsAgreeWithoutWhitespace | Components/ImportToken.tsx:54 | for a name without whitespace both ids are the lowercased name |
| ImportToken.LidoIdsDiffer | Components/ImportToken.tsx:54 | the two ids of "Lido DAO Token" differ |
| ImportToken.ImportOutcome | Components/ImportToken.tsx:25-66 | the import returns silently exactly when the address is valid and there is no client; it imports exactly when the address is valid, there is a client and both reads succeed, and the descriptor then holds the checksummed address, the read symbol and name, and the import id of the name |
| ImportToken.ImportForm.constructor | Components/ImportToken.tsx:19-21 | the form starts with an empty input, no error and not loading |
| ImportToken.ImportForm.SetAddressInput | Components/ImportToken.tsx:77 | typing replaces the input and changes nothing else |
| ImportToken.ImportForm.HandleImport | Components/ImportToken.tsx:25-66 | the loading flag is down afterwards; a successful import appends the descriptor and clears the input and the error; a missing client leaves everything but the cleared error; any failure keeps the input and sets the error message |
| ScanRoute.NumberOf | app/api/scan/route.ts:13 | a non-empty string of decimal digits converts to its decimal value, and anything else to NaN |
| ScanRoute.LeadingZeroIgnored | app/api/scan/route.ts:13 | a leading zero does not change the converted chain id |
| ScanRoute.ToHex | app/api/scan/route.ts:13 | the hexadecimal form is non-empty, lower-case, and has no leading zero except for 0 itself |
| ScanRoute.HexRoundTrip | app/api/scan/route.ts:13 | reading the hexadecimal form back gives the number |
| ScanRoute.ToHexInjective | app/api/scan/route.ts:13 | two chain ids have the same hexadecimal form exactly when they are equal |
| ScanRoute.ChainHex | app/api/scan/route.ts:13 | the chain parameter is sent as `0x` followed by exactly `toString(16)` of its number, which reads back as its decimal value, or as `0xNaN` when it is not a number |
| ScanRoute.KnownChainHexes | app/api/scan/route.ts:13 | chains 1, 56 and 137 are sent as `0x1`, `0x38` and `0x89` |
| ScanRoute.MoralisRequestFor | app/api/scan/route.ts:22-30 | the forwarded URL is the API base, the wallet address, `/erc20?chain=` and the hexadecimal chain id, in that order; the key is sent as it is |
| ScanRoute.Present | app/api/scan/route.ts:8-16 | a parameter or the key passes a guard exactly when it is present and not empty |
| ScanRoute.Scan | app/api/scan/route.ts:3-37 | 400 "Missing params" exactly when a parameter is missing or empty; 500 with the configuration error exactly when both parameters are present and the key is missing; 500 "Scan failed" exactly when the forwarded request throws; otherwise 200 with exactly what Moralis answered for the request built from the parameters and the key |
| ScanRoute.GuardsPrecedeFetch | app/api/scan/route.ts:8-18 | when a guard fails the reply does not depend on Moralis and is not a success |
| ScanRoute.MissingParamsBeforeKey | app/api/scan/route.ts:8-18 | missing parameters are reported before a missing key |

## Left out

- Network requests (the price service, the batched contract reads, the mempool.space lookup, the scan endpoint, Moralis) are parameters that give a parsed reply or nothing. HTTP status codes, headers and JSON parsing are not modelled.
- React state timing is not modelled: effects, re-renders, `useMemo`, the 120 s price refresh, the 30 s balance refetch, and the 3 s reset of the scanner's status.
- Floating point is not modelled. `Number(formatUnits(...))`, `toFixed(2)`, `toLocaleString` and the JavaScript number division of satoshis are exact rationals here.
- PortfolioValue.CalculateTotal: the order of the floating-point additions is not modelled. The total is the exact sum.
- Tokens.ToLowerCase: lowercases the ASCII letters only. JavaScript's full Unicode case mapping (including mappings that change the length) is not modelled.
- ScanRoute.NumberOf: accepts plain decimal digit strings only. JavaScript's wider `Number` grammar (surrounding whitespace, signs, fractions, exponents, `0x` literals, `Infinity`) is treated as NaN, and chain ids beyond 2^53 are not rounded.
- The status messages of the token scanner (`setStatus`) and its `isScanning` flag are not modelled. `HandleScan` models which callback, if any, is called, and with what.
- TotalBalance.Render: assumes the chain client answers the batch with one result per call, in order, each success decoded by its function's ABI return type (`requires Answers`). A shorter or mistyped reply is not modelled.
- TotalBalance.SumBalances: assumes the same well-formed batch as `Render`.
- ImportToken.ImportForm.HandleImport: the intermediate `isLoading = true` is observable only while the reads are pending, so it is not stated.
- Token names that are not strings (a `null` name makes `toLowerCase` throw in the scanner) are not modelled: names are strings.
- `getAddress` (EIP-55 checksumming) is a parameter that accepts or rejects an input. Its algorithm is not modelled.
- The `usd` field of a price entry is optional (`None` when absent). Non-numeric values are not modelled.
- PortfolioValue.PriceOf: the price map is a finite map here, while the component keeps prices in a plain JavaScript object. Ids that name `Object.prototype` members ("constructor", "__proto__", "toString", …) are not modelled. Without an own entry for such an id, `prices[id] || 0` yields the inherited member, which is truthy, so that pair's `amount * price` and the displayed total become NaN. The model prices such an id 0. A token named "Constructor" produces the id "constructor".
- PortfolioValue.PricesOf: a reply key "__proto__" is not modelled. In the component, `priceMap[key] = value.usd` with that key goes to the prototype setter and adds no own key, so it does not count in `Object.keys(prices).length` either. The model adds it as an ordinary key.
- The rendering (JSX, class names, loading spinners) is not modelled. Neither are the other components: gas, transaction history, transfers and wallet rows.
- None of the modelled components calls `isValidBitcoinAddress` or `fetchBitcoinBalance`, and the portfolio total holds no Bitcoin or native-coin balance.
- The history endpoint is not part of this model. Its chain conversion is the same as the scan endpoint's `ChainHex`.
