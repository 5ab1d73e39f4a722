/**
 * The scan endpoint: `GET /api/scan?address=…&chain=…` checks its query
 * parameters and the server's Moralis key, converts the decimal chain id
 * to the `0x…` lower-case hexadecimal form Moralis expects, forwards the
 * request and relays the parsed reply.
 */
module ScanRoute {
  import opened Options

  /** A JavaScript number as `Number(...)` of a query string produces it here: a non-negative integer, or NaN. */
  datatype JsNumber = Finite(n: nat) | NaN

  predicate IsDigit(c: char) {
    '0' <= c <= '9'
  }

  predicate AllDigits(s: string) {
    forall i :: 0 <= i < |s| ==> IsDigit(s[i])
  }

  /** The value of a string of decimal digits, most significant first. */
  function DecimalValue(s: string): nat
    requires AllDigits(s)
    decreases |s|
  {
    if s == [] then 0 else DecimalValue(s[..|s| - 1]) * 10 + (s[|s| - 1] as int - '0' as int)
  }

  /** `Number(chainId)` for a string of decimal digits; any other string is NaN here. */
  function NumberOf(s: string): (v: JsNumber)
    ensures v.Finite? <==> |s| > 0 && AllDigits(s)
    ensures v.Finite? ==> v.n == DecimalValue(s)
  {
    if |s| > 0 && AllDigits(s) then Finite(DecimalValue(s)) else NaN
  }

  /** Leading zeros do not change a decimal value. */
  lemma {:induction false} LeadingZeroIgnored(s: string)
    requires AllDigits(s)
    ensures AllDigits("0" + s) && DecimalValue("0" + s) == DecimalValue(s)
    decreases |s|
  {
    var z := "0" + s;
    if s == [] {
      assert z[..0] == [];
    } else {
      var init := s[..|s| - 1];
      assert z[..|z| - 1] == "0" + init;
      assert z[|z| - 1] == s[|s| - 1];
      LeadingZeroIgnored(init);
    }
  }

  const HexDigits: string := "0123456789abcdef"

  /** The lower-case hexadecimal digit for `d`. */
  function HexDigit(d: nat): (c: char)
    requires d < 16
    ensures c in HexDigits
  {
    HexDigits[d]
  }

  /** The value of a hexadecimal digit `c` (its position among the lower-case digits; 0 for anything else). */
  function HexValue(c: char): (v: nat)
    ensures v < 16
  {
    if '0' <= c <= '9' then c as int - '0' as int
    else if 'a' <= c <= 'f' then c as int - 'a' as int + 10
    else 0
  }

  /** Each digit reads back as its value. */
  lemma HexDigitValue(d: nat)
    requires d < 16
    ensures HexValue(HexDigit(d)) == d
  {
  }

  /** `n.toString(16)`: lower-case digits, most significant first, no leading zero. */
  function ToHex(n: nat): (h: string)
    ensures |h| >= 1
    ensures forall i :: 0 <= i < |h| ==> h[i] in HexDigits
    ensures h[0] == '0' <==> n == 0
    decreases n
  {
    if n < 16 then [HexDigit(n)] else ToHex(n / 16) + [HexDigit(n % 16)]
  }

  /** The value of a string of hexadecimal digits, most significant first. */
  function ParseHex(h: string): nat
    decreases |h|
  {
    if h == [] then 0 else ParseHex(h[..|h| - 1]) * 16 + HexValue(h[|h| - 1])
  }

  /** Reading the hexadecimal form back gives the number. */
  lemma {:induction false} HexRoundTrip(n: nat)
    ensures ParseHex(ToHex(n)) == n
    decreases n
  {
    var h := ToHex(n);
    if n < 16 {
      assert h[..0] == [];
      HexDigitValue(n);
    } else {
      assert h[..|h| - 1] == ToHex(n / 16) && h[|h| - 1] == HexDigit(n % 16);
      HexRoundTrip(n / 16);
      HexDigitValue(n % 16);
    }
  }

  /** Distinct chain ids get distinct hexadecimal forms. */
  lemma ToHexInjective(a: nat, b: nat)
    ensures ToHex(a) == ToHex(b) <==> a == b
  {
    HexRoundTrip(a);
    HexRoundTrip(b);
  }

  /** `` `0x${Number(chainId).toString(16)}` ``: NaN prints as `NaN`. */
  function ChainHex(chainId: string): (hex: string)
    ensures |hex| >= 3 && hex[..2] == "0x"
    ensures NumberOf(chainId).NaN? ==> hex == "0xNaN"
    ensures NumberOf(chainId).Finite? ==> hex == "0x" + ToHex(NumberOf(chainId).n)
    ensures NumberOf(chainId).Finite? ==> ParseHex(hex[2..]) == DecimalValue(chainId)
  {
    match NumberOf(chainId)
    case NaN => "0xNaN"
    case Finite(n) =>
      HexRoundTrip(n);
      assert ("0x" + ToHex(n))[2..] == ToHex(n);
      "0x" + ToHex(n)
  }

  /** The three supported EVM chains in the form Moralis expects. */
  lemma KnownChainHexes()
    ensures ChainHex("1") == "0x1"
    ensures ChainHex("56") == "0x38"
    ensures ChainHex("137") == "0x89"
  {
    EthereumHex();
    BscHex();
    PolygonHex();
  }

  lemma EthereumHex()
    ensures ChainHex("1") == "0x1"
  {
    assert "1"[..0] == [];
    assert DecimalValue("1") == 1;
    assert ToHex(1) == "1";
  }

  lemma BscHex()
    ensures ChainHex("56") == "0x38"
  {
    assert "56"[..1] == "5" && "5"[..0] == [];
    assert NumberOf("56") == Finite(56);
    assert ToHex(56) == ToHex(3) + [HexDigit(8)] == "38";
  }

  lemma PolygonHex()
    ensures ChainHex("137") == "0x89"
  {
    assert "137"[..2] == "13" && "13"[..1] == "1" && "1"[..0] == [];
    assert NumberOf("137") == Finite(137);
    assert ToHex(137) == ToHex(8) + [HexDigit(9)] == "89";
  }

  /** The request the endpoint forwards: the token-balance listing URL, and the key sent as `X-API-Key`. */
  datatype MoralisRequest = MoralisRequest(url: string, apiKey: string)

  const MoralisBase: string := "https://deep-index.moralis.io/api/v2.2/"

  /** The URL carries the wallet address after the API base, then `/erc20?chain=` and the hexadecimal chain id; the key travels untouched. */
  function MoralisRequestFor(address: string, chainId: string, apiKey: string): (r: MoralisRequest)
    ensures r.apiKey == apiKey
    ensures var n := |MoralisBase| + |address|;
            |r.url| == n + |"/erc20?chain="| + |ChainHex(chainId)|
            && r.url[..|MoralisBase|] == MoralisBase
            && r.url[|MoralisBase|..n] == address
            && r.url[n..n + |"/erc20?chain="|] == "/erc20?chain="
            && r.url[n + |"/erc20?chain="|..] == ChainHex(chainId)
  {
    ConcatSlices(MoralisBase, address, "/erc20?chain=", ChainHex(chainId));
    MoralisRequest(MoralisBase + address + "/erc20?chain=" + ChainHex(chainId), apiKey)
  }

  /** Each part of a four-part concatenation sits at its offset. */
  lemma ConcatSlices(a: string, b: string, c: string, d: string)
    ensures var s, n := a + b + c + d, |a| + |b|;
            |s| == n + |c| + |d| && s[..|a|] == a && s[|a|..n] == b && s[n..n + |c|] == c && s[n + |c|..] == d
  {
    var s := a + b + c + d;
    var n := |a| + |b|;
    assert s == (a + b) + c + d;
    assert s[..n] == a + b;
    assert s[n..] == c + d;
  }

  /** A JSON body: the relayed data, or `{ error }`. */
  datatype Body<+D> = Data(data: D) | ErrorBody(error: string)

  /** A response: HTTP status and body. */
  datatype Reply<+D> = Reply(status: int, body: Body<D>)

  /** JavaScript truthiness of an optional string: present and not empty. */
  predicate Present(s: Option<string>) {
    s.Some? && s.value != ""
  }

  /**
   * `GET`: `address` and `chain` are the query parameters, `apiKey` the
   * server's `MORALIS_API_KEY`, and `moralis` the fetch and JSON parse of
   * the forwarded request (None when either throws). Whatever Moralis
   * answers, once parsed, is relayed with status 200.
   */
  function Scan<D>(address: Option<string>, chain: Option<string>, apiKey: Option<string>,
                   moralis: MoralisRequest -> Option<D>): (reply: Reply<D>)
    ensures reply.status == 400 <==> !Present(address) || !Present(chain)
    ensures reply.status == 400 ==> reply.body == ErrorBody("Missing params")
    ensures reply.body == ErrorBody("Server Config Error: No API Key")
            <==> Present(address) && Present(chain) && !Present(apiKey)
    ensures reply.body == ErrorBody("Scan failed")
            <==> Present(address) && Present(chain) && Present(apiKey)
                 && moralis(MoralisRequestFor(address.value, chain.value, apiKey.value)).None?
    ensures reply.status == 200 <==> reply.body.Data?
    ensures reply.body.Data? ==>
              Present(address) && Present(chain) && Present(apiKey)
              && moralis(MoralisRequestFor(address.value, chain.value, apiKey.value)) == Some(reply.body.data)
    ensures reply.status == 400 || reply.status == 500 || reply.status == 200
    ensures Present(address) && Present(chain) && Present(apiKey)
            && moralis(MoralisRequestFor(address.value, chain.value, apiKey.value)).Some?
            ==> reply == Reply(200, Data(moralis(MoralisRequestFor(address.value, chain.value, apiKey.value)).value))
  {
    if !Present(address) || !Present(chain) then Reply(400, ErrorBody("Missing params"))
    else if !Present(apiKey) then Reply(500, ErrorBody("Server Config Error: No API Key"))
    else
      match moralis(MoralisRequestFor(address.value, chain.value, apiKey.value))
      case None => Reply(500, ErrorBody("Scan failed"))
      case Some(data) => Reply(200, Data(data))
  }

  /** When a guard fails, Moralis is not consulted: the reply is the same whatever it would answer. */
  lemma GuardsPrecedeFetch<D>(address: Option<string>, chain: Option<string>, apiKey: Option<string>,
                              moralis1: MoralisRequest -> Option<D>, moralis2: MoralisRequest -> Option<D>)
    requires !Present(address) || !Present(chain) || !Present(apiKey)
    ensures Scan(address, chain, apiKey, moralis1) == Scan(address, chain, apiKey, moralis2)
    ensures Scan(address, chain, apiKey, moralis1).status != 200
  {
  }

  /** Missing parameters are reported before a missing key. */
  lemma MissingParamsBeforeKey<D>(address: Option<string>, chain: Option<string>, moralis: MoralisRequest -> Option<D>)
    requires !Present(address) || !Present(chain)
    ensures Scan(address, chain, None, moralis) == Reply(400, ErrorBody("Missing params"))
  {
  }
}
