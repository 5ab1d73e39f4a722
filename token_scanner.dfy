/**
 * The TokenScanner component's conversion of the scan endpoint's token
 * list into descriptors: spam is dropped, and the price-feed id is the
 * lowercased name with every run of whitespace replaced by one `-`.
 */
module TokenScanner {
  import opened Options
  import opened Tokens

  /** One entry of the scan endpoint's `result` list. */
  datatype ScannedToken = ScannedToken(tokenAddress: string, symbol: string, name: string, possibleSpam: bool)

  /** `.filter(t => !t.possible_spam)` */
  function WithoutSpam(ts: seq<ScannedToken>): (kept: seq<ScannedToken>)
    ensures |kept| <= |ts|
  {
    if ts == [] then [] else (if ts[0].possibleSpam then [] else [ts[0]]) + WithoutSpam(ts[1..])
  }

  /** The kept entries are exactly the entries not flagged as spam. */
  lemma {:induction false} WithoutSpamKeeps(ts: seq<ScannedToken>)
    ensures forall t :: t in WithoutSpam(ts) <==> t in ts && !t.possibleSpam
  {
    if ts != [] {
      WithoutSpamKeeps(ts[1..]);
      assert forall t :: t in ts <==> t == ts[0] || t in ts[1..];
    }
  }

  /** Filtering a concatenation filters each part: the survivors keep their relative order. */
  lemma {:induction false} WithoutSpamAppend(a: seq<ScannedToken>, b: seq<ScannedToken>)
    ensures WithoutSpam(a + b) == WithoutSpam(a) + WithoutSpam(b)
  {
    if a == [] {
      assert a + b == b;
    } else {
      var head, t := if a[0].possibleSpam then [] else [a[0]], a[1..];
      calc {
        WithoutSpam(a + b);
        == { assert (a + b)[0] == a[0] && (a + b)[1..] == t + b; }
        head + WithoutSpam(t + b);
        == { WithoutSpamAppend(t, b); }
        head + (WithoutSpam(t) + WithoutSpam(b));
        == { AppendAssoc(head, WithoutSpam(t), WithoutSpam(b)); }
        (head + WithoutSpam(t)) + WithoutSpam(b);
        ==
        WithoutSpam(a) + WithoutSpam(b);
      }
    }
  }

  /** A list without spam passes the filter unchanged. */
  lemma {:induction false} NoSpamKeepsAll(ts: seq<ScannedToken>)
    requires forall i :: 0 <= i < |ts| ==> !ts[i].possibleSpam
    ensures WithoutSpam(ts) == ts
  {
    if ts != [] {
      NoSpamKeepsAll(ts[1..]);
    }
  }

  /**
   * `.replace(/\s+/g, '-')`, read left to right: the first whitespace
   * character of a run becomes `-`, the rest of the run is dropped.
   * `inRun` says whether the character before `s` was whitespace.
   */
  function CollapseWhitespace(s: string, inRun: bool): (r: string)
    ensures |r| <= |s|
  {
    if s == [] then [] else Emit(s[0], inRun) + CollapseWhitespace(s[1..], IsJsWhitespace(s[0]))
  }

  /** The replacement leaves no whitespace behind. */
  lemma {:induction false} CollapseLeavesNoWhitespace(s: string, inRun: bool)
    ensures forall i :: 0 <= i < |CollapseWhitespace(s, inRun)| ==> !IsJsWhitespace(CollapseWhitespace(s, inRun)[i])
    decreases |s|
  {
    if s != [] {
      CollapseLeavesNoWhitespace(s[1..], IsJsWhitespace(s[0]));
    }
  }

  /** What one character turns into: itself, a `-` opening a run, or nothing inside a run. */
  function Emit(c: char, inRun: bool): (r: string)
    ensures |r| <= 1 && (|r| == 1 ==> !IsJsWhitespace(r[0]))
  {
    if !IsJsWhitespace(c) then [c] else if inRun then [] else "-"
  }

  /** Whether the scan is inside a whitespace run after reading `s`. */
  function EndsInRun(s: string, inRun: bool): bool {
    if s == [] then inRun else IsJsWhitespace(s[|s| - 1])
  }

  /** The price-feed id the scanner derives from a token name. */
  function ScannerId(name: string): (id: string)
    ensures forall i :: 0 <= i < |id| ==> !IsJsWhitespace(id[i])
  {
    CollapseLeavesNoWhitespace(ToLowerCase(name), false);
    CollapseWhitespace(ToLowerCase(name), false)
  }

  /** The descriptor for one surviving entry. */
  function Describe(t: ScannedToken): (d: TokenDescriptor)
    ensures d.address == t.tokenAddress && d.symbol == t.symbol && d.name == t.name
    ensures forall i :: 0 <= i < |d.coingeckoId| ==> !IsJsWhitespace(d.coingeckoId[i])
  {
    TokenDescriptor(t.tokenAddress, t.symbol, t.name, ScannerId(t.name))
  }

  /** `newTokens`: one descriptor per non-spam entry, in order. */
  function NewTokens(result: seq<ScannedToken>): (tokens: seq<TokenDescriptor>)
    ensures |tokens| == |WithoutSpam(result)|
    ensures forall i :: 0 <= i < |tokens| ==>
              var t := WithoutSpam(result)[i];
              tokens[i].address == t.tokenAddress && tokens[i].symbol == t.symbol && tokens[i].name == t.name
              && tokens[i].coingeckoId == ScannerId(t.name)
  {
    var kept := WithoutSpam(result);
    seq(|kept|, i requires 0 <= i < |kept| => Describe(kept[i]))
  }

  /** Collapsing splits at any point, carrying whether the scan is inside a run. */
  lemma {:induction false} CollapseAppend(a: string, b: string, inRun: bool)
    ensures CollapseWhitespace(a + b, inRun) == CollapseWhitespace(a, inRun) + CollapseWhitespace(b, EndsInRun(a, inRun))
    decreases |a|
  {
    if a == [] {
      assert a + b == b;
    } else {
      var c, t := a[0], a[1..];
      CollapseAppend(t, b, IsJsWhitespace(c));
      assert a == [c] + t;
      CollapseAppendStep(c, t, b, inRun);
    }
  }

  /** The inductive step of `CollapseAppend`: from the split of `t + b` to the split of `[c] + t + b`. */
  lemma CollapseAppendStep(c: char, t: string, b: string, inRun: bool)
    requires CollapseWhitespace(t + b, IsJsWhitespace(c))
          == CollapseWhitespace(t, IsJsWhitespace(c)) + CollapseWhitespace(b, EndsInRun(t, IsJsWhitespace(c)))
    ensures CollapseWhitespace([c] + t + b, inRun)
         == CollapseWhitespace([c] + t, inRun) + CollapseWhitespace(b, EndsInRun([c] + t, inRun))
  {
    var w := IsJsWhitespace(c);
    var e, x, y := Emit(c, inRun), CollapseWhitespace(t, w), CollapseWhitespace(b, EndsInRun(t, w));
    calc {
      CollapseWhitespace([c] + t + b, inRun);
      == { AppendAssoc([c], t, b); CollapseCons(c, t + b, inRun); }
      e + (x + y);
      == { AppendAssoc(e, x, y); }
      (e + x) + y;
      == { CollapseCons(c, t, inRun); EndsInRunCons(c, t, inRun); }
      CollapseWhitespace([c] + t, inRun) + CollapseWhitespace(b, EndsInRun([c] + t, inRun));
    }
  }

  lemma AppendAssoc<T>(x: seq<T>, y: seq<T>, z: seq<T>)
    ensures x + y + z == x + (y + z)
  {
  }

  /** One step of the scan, on a string given by its first character. */
  lemma CollapseCons(c: char, s: string, inRun: bool)
    ensures CollapseWhitespace([c] + s, inRun) == Emit(c, inRun) + CollapseWhitespace(s, IsJsWhitespace(c))
  {
    assert ([c] + s)[1..] == s;
  }

  /** Whether a run is open after `[c] + s` depends only on `s` once `c` is read. */
  lemma EndsInRunCons(c: char, s: string, inRun: bool)
    ensures EndsInRun([c] + s, inRun) == EndsInRun(s, IsJsWhitespace(c))
  {
    if s != [] {
      assert ([c] + s)[|s|] == s[|s| - 1];
    }
  }

  predicate AllWhitespace(s: string) {
    forall i :: 0 <= i < |s| ==> IsJsWhitespace(s[i])
  }

  /** A whitespace run becomes one `-`, or nothing when it continues a run. */
  lemma {:induction false} RunCollapses(run: string, inRun: bool)
    requires |run| > 0 && AllWhitespace(run)
    ensures CollapseWhitespace(run, inRun) == if inRun then "" else "-"
    decreases |run|
  {
    if |run| > 1 {
      RunCollapses(run[1..], true);
    }
  }

  /** The text after a run starts with a non-whitespace character, so where the run ended does not matter. */
  lemma RunBoundaryInvisible(b: string)
    requires b == [] || !IsJsWhitespace(b[0])
    ensures CollapseWhitespace(b, true) == CollapseWhitespace(b, false)
  {
  }

  /** Each maximal whitespace run is replaced by exactly one `-`, and the text around it is treated on its own. */
  lemma MaximalRunBecomesOneHyphen(a: string, run: string, b: string)
    requires a == [] || !IsJsWhitespace(a[|a| - 1])
    requires |run| > 0 && AllWhitespace(run)
    requires b == [] || !IsJsWhitespace(b[0])
    ensures CollapseWhitespace(a + run + b, false)
         == CollapseWhitespace(a, false) + "-" + CollapseWhitespace(b, false)
  {
    CollapseAppend(a + run, b, false);
    CollapseAppend(a, run, false);
    RunCollapses(run, false);
    assert EndsInRun(a + run, false);
    RunBoundaryInvisible(b);
  }

  /** Text without whitespace is left as it is. */
  lemma {:induction false} NoWhitespaceUnchanged(s: string, inRun: bool)
    requires forall i :: 0 <= i < |s| ==> !IsJsWhitespace(s[i])
    ensures CollapseWhitespace(s, inRun) == s
    decreases |s|
  {
    if s != [] {
      NoWhitespaceUnchanged(s[1..], false);
    }
  }

  /** Hyphenating an id a second time changes nothing. */
  lemma HyphenateIdempotent(name: string)
    ensures CollapseWhitespace(ScannerId(name), false) == ScannerId(name)
  {
    NoWhitespaceUnchanged(ScannerId(name), false);
  }

  /** What the scan endpoint's reply gave: it threw, or it parsed to a body whose `result` may be absent. */
  datatype ScanReply = Threw | Parsed(result: Option<seq<ScannedToken>>)

  /** What `handleScan` does, apart from its status messages. */
  datatype ScanEffect =
    | NotScanned                              // no connected address or chain: returns at once
    | NoResult                                // the body had no `result`
    | NothingNew                              // every entry was spam: the callback is not called
    | Found(tokens: seq<TokenDescriptor>)     // `onFoundTokens(tokens)`
    | ScanFailed                              // the fetch or the parse threw

  /** JavaScript truthiness of the connected account's address and chain id. */
  predicate Connected(address: Option<string>, chainId: Option<int>) {
    address.Some? && address.value != "" && chainId.Some? && chainId.value != 0
  }

  /** `handleScan`, with `scan` standing for the request to the scan endpoint for an address and chain. */
  function HandleScan(address: Option<string>, chainId: Option<int>, scan: (string, int) -> ScanReply): (e: ScanEffect)
    ensures e == NotScanned <==> !Connected(address, chainId)
    ensures e.Found? <==> Connected(address, chainId) && scan(address.value, chainId.value).Parsed?
                          && scan(address.value, chainId.value).result.Some?
                          && |WithoutSpam(scan(address.value, chainId.value).result.value)| > 0
    ensures e.Found? ==> |e.tokens| > 0 && e.tokens == NewTokens(scan(address.value, chainId.value).result.value)
  {
    if !Connected(address, chainId) then NotScanned
    else
      match scan(address.value, chainId.value)
      case Threw => ScanFailed
      case Parsed(None) => NoResult
      case Parsed(Some(result)) =>
        var newTokens := NewTokens(result);
        if |newTokens| > 0 then Found(newTokens) else NothingNew
  }

  /** Without a connected account nothing is requested: the effect is the same whatever the endpoint would answer. */
  lemma NothingScannedWhenDisconnected(address: Option<string>, chainId: Option<int>,
                                       scan1: (string, int) -> ScanReply, scan2: (string, int) -> ScanReply)
    requires !Connected(address, chainId)
    ensures HandleScan(address, chainId, scan1) == HandleScan(address, chainId, scan2) == NotScanned
  {
  }
}
