/**
 * The Bitcoin helpers: a loose address check (prefix and length only, no
 * Base58Check or Bech32 decoding) and the balance arithmetic over an
 * address lookup's funded and spent output totals.
 */
module Bitcoin {
  import opened Options

  /** Satoshis per bitcoin. */
  const SatoshisPerBitcoin: int := 100000000

  predicate StartsWith(s: string, prefix: string) {
    |prefix| <= |s| && s[..|prefix|] == prefix
  }

  /** The UTF-16 code units of one character: two for a character outside the Basic Multilingual Plane. */
  function CodeUnits(c: char): (n: nat)
    ensures n == 1 || n == 2
    ensures n == 2 <==> c as int > 0xFFFF
  {
    if c as int > 0xFFFF then 2 else 1
  }

  /** JavaScript's `length` of a string: its UTF-16 code units. */
  function Utf16Length(s: string): (n: nat)
    ensures |s| <= n <= 2 * |s|
    decreases |s|
  {
    if s == [] then 0 else CodeUnits(s[0]) + Utf16Length(s[1..])
  }

  /** Within the Basic Multilingual Plane, and so for every ASCII address, `length` counts characters. */
  lemma {:induction false} BmpLengthIsCount(s: string)
    requires forall i :: 0 <= i < |s| ==> s[i] as int <= 0xFFFF
    ensures Utf16Length(s) == |s|
    decreases |s|
  {
    if s != [] {
      BmpLengthIsCount(s[1..]);
    }
  }

  /** Characters outside the Basic Multilingual Plane count twice. */
  lemma {:induction false} AstralLengthIsDouble(s: string)
    requires forall i :: 0 <= i < |s| ==> s[i] as int > 0xFFFF
    ensures Utf16Length(s) == 2 * |s|
    decreases |s|
  {
    if s != [] {
      AstralLengthIsDouble(s[1..]);
    }
  }

  /** `isValidBitcoinAddress`: starts with `1`, `3` or `bc1`, and is 26 to 64 UTF-16 code units long. */
  function IsValidBitcoinAddress(address: string): (ok: bool)
    ensures ok <==> 25 < Utf16Length(address) < 65
                    && (address[0] == '1' || address[0] == '3' || address[..3] == "bc1")
  {
    (StartsWith(address, "1") || StartsWith(address, "3") || StartsWith(address, "bc1"))
    && Utf16Length(address) > 25 && Utf16Length(address) < 65
  }

  /** For an address within the Basic Multilingual Plane the bounds are on its number of characters. */
  lemma BmpAddressBounds(address: string)
    requires forall i :: 0 <= i < |address| ==> address[i] as int <= 0xFFFF
    ensures IsValidBitcoinAddress(address) <==>
              25 < |address| < 65 && (address[0] == '1' || address[0] == '3' || address[..3] == "bc1")
  {
    BmpLengthIsCount(address);
  }

  /**
   * A `1` followed by 40 characters outside the Basic Multilingual Plane has
   * 41 characters but 81 code units, and is rejected.
   */
  lemma AstralAddressRejected(address: string)
    requires |address| == 41 && address[0] == '1'
    requires forall i :: 1 <= i < |address| ==> address[i] as int > 0xFFFF
    ensures 25 < |address| < 65
    ensures Utf16Length(address) == 81
    ensures !IsValidBitcoinAddress(address)
  {
    var tail := address[1..];
    assert forall i :: 0 <= i < |tail| ==> tail[i] == address[i + 1];
    AstralLengthIsDouble(tail);
  }

  /** Lengths 25 and 65 are outside the bounds, whatever the characters. */
  lemma BoundaryLengthsRejected(address: string)
    requires Utf16Length(address) == 25 || Utf16Length(address) == 65
    ensures !IsValidBitcoinAddress(address)
  {
  }

  /** The prefix test is case-sensitive: an address starting `BC1` is rejected. */
  lemma UpperCaseBech32Rejected(address: string)
    requires StartsWith(address, "BC1")
    ensures !IsValidBitcoinAddress(address)
  {
  }

  /** Only the first three characters and the length matter: the rest of the address is unconstrained. */
  lemma {:induction false} OnlyPrefixAndLengthMatter(a: string, b: string)
    requires Utf16Length(a) == Utf16Length(b) && |a| >= 3 && |b| >= 3 && a[..3] == b[..3]
    ensures IsValidBitcoinAddress(a) == IsValidBitcoinAddress(b)
  {
    assert a[0] == a[..3][0] == b[..3][0] == b[0];
  }

  /** The funded and spent output totals of one lookup section (`chain_stats` or `mempool_stats`). */
  datatype TxoStats = TxoStats(fundedTxoSum: int, spentTxoSum: int)

  /** The fields the balance computation reads from a mempool.space address lookup. */
  datatype AddressInfo = AddressInfo(chainStats: TxoStats, mempoolStats: TxoStats)

  /** The confirmed balance plus the unconfirmed (mempool) balance, in satoshis. */
  function Satoshis(info: AddressInfo): (sats: int)
    ensures sats == (info.chainStats.fundedTxoSum + info.mempoolStats.fundedTxoSum)
                  - (info.chainStats.spentTxoSum + info.mempoolStats.spentTxoSum)
  {
    (info.chainStats.fundedTxoSum - info.chainStats.spentTxoSum)
      + (info.mempoolStats.fundedTxoSum - info.mempoolStats.spentTxoSum)
  }

  /**
   * `fetchBitcoinBalance` after the lookup: `lookup` is the parsed reply, or
   * `None` when the response was not ok or anything threw; then the balance is 0.
   */
  function BitcoinBalance(lookup: Option<AddressInfo>): (btc: real)
    ensures lookup.None? ==> btc == 0.0
    ensures lookup.Some? ==> btc * SatoshisPerBitcoin as real == Satoshis(lookup.value) as real
  {
    match lookup
    case None => 0.0
    case Some(info) => Satoshis(info) as real / SatoshisPerBitcoin as real
  }

  /** 100000000 satoshis funded on chain, and nothing else, is one bitcoin. */
  lemma OneBitcoin()
    ensures BitcoinBalance(Some(AddressInfo(TxoStats(100000000, 0), TxoStats(0, 0)))) == 1.0
  {
  }

  /** Spending in the mempool what was funded on chain leaves nothing. */
  lemma MempoolSpendCancelsConfirmed(funded: int)
    ensures BitcoinBalance(Some(AddressInfo(TxoStats(funded, 0), TxoStats(0, funded)))) == 0.0
  {
  }
}
