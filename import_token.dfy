/**
 * The ImportToken component: a token contract address typed by the user is
 * validated, its `symbol` and `name` are read, and a descriptor is handed
 * to the parent. The price-feed id replaces only the FIRST space of the
 * lowercased name, unlike the scanner's id, which replaces every run.
 */
module ImportToken {
  import opened Options
  import opened Tokens
  import TokenScanner

  /** `.replace(' ', '-')` with a string pattern: the first `' '` only. */
  function ReplaceFirstSpace(s: string): (r: string)
    ensures |r| == |s|
    ensures forall i :: 0 <= i < |s| ==> r[i] == s[i] || (s[i] == ' ' && r[i] == '-')
  {
    if s == [] then []
    else if s[0] == ' ' then ['-'] + s[1..]
    else [s[0]] + ReplaceFirstSpace(s[1..])
  }

  /** The price-feed id of an imported token: the name lowercased, where a space may have become `-`. */
  function ImportId(name: string): (id: string)
    ensures |id| == |name|
    ensures forall i :: 0 <= i < |name| ==> id[i] == LowerChar(name[i]) || (name[i] == ' ' && id[i] == '-')
  {
    LowerCaseKeepsWhitespace(name);
    ReplaceFirstSpace(ToLowerCase(name))
  }

  /** Without a space, the string is left as it is. */
  lemma {:induction false} NoSpaceUnchanged(s: string)
    requires ' ' !in s
    ensures ReplaceFirstSpace(s) == s
  {
    if s != [] {
      assert s[0] != ' ' && (forall c :: c in s[1..] ==> c in s);
      NoSpaceUnchanged(s[1..]);
    }
  }

  /** The first space, at `k`, becomes `-`; every other character, later spaces included, stays. */
  lemma {:induction false} OnlyFirstSpaceReplaced(s: string, k: nat)
    requires k < |s| && s[k] == ' '
    requires forall i :: 0 <= i < k ==> s[i] != ' '
    ensures ReplaceFirstSpace(s) == s[k := '-']
  {
    if k > 0 {
      OnlyFirstSpaceReplaced(s[1..], k - 1);
      assert s[k := '-'] == [s[0]] + s[1..][k - 1 := '-'];
    } else {
      assert s[k := '-'] == ['-'] + s[1..];
    }
  }

  /** The id has as many characters as the name; for a name without a space it is just the lowercased name. */
  lemma ImportIdShape(name: string)
    ensures |ImportId(name)| == |name|
    ensures ' ' !in name ==> ImportId(name) == ToLowerCase(name)
  {
    LowerCaseKeepsWhitespace(name);
    if ' ' !in name {
      assert ' ' !in ToLowerCase(name);
      NoSpaceUnchanged(ToLowerCase(name));
    }
  }

  /** For a name whose first space is at `k`, the id is the lowercased name with just that character turned into `-`. */
  lemma ImportIdReplacesFirstSpace(name: string, k: nat)
    requires k < |name| && name[k] == ' '
    requires forall i :: 0 <= i < k ==> name[i] != ' '
    ensures ImportId(name) == ToLowerCase(name)[k := '-']
  {
    LowerCaseKeepsWhitespace(name);
    OnlyFirstSpaceReplaced(ToLowerCase(name), k);
  }

  /**
   * The two id heuristics disagree on every name with a second space: the
   * import keeps it, while the scanner's id has no whitespace at all.
   */
  lemma ImportAndScanIdsDiffer(name: string, k: nat, m: nat)
    requires k < m < |name| && name[k] == ' ' && name[m] == ' '
    requires forall i :: 0 <= i < k ==> name[i] != ' '
    ensures ImportId(name)[m] == ' '
    ensures ImportId(name) != TokenScanner.ScannerId(name)
  {
    ImportIdReplacesFirstSpace(name, k);
    LowerCaseKeepsWhitespace(name);
    assert IsJsWhitespace(ImportId(name)[m]);
  }

  /** On a name without whitespace the two heuristics agree: both give the lowercased name. */
  lemma IdsAgreeWithoutWhitespace(name: string)
    requires forall i :: 0 <= i < |name| ==> !IsJsWhitespace(name[i])
    ensures ImportId(name) == TokenScanner.ScannerId(name) == ToLowerCase(name)
  {
    LowerCaseKeepsWhitespace(name);
    assert ' ' !in name by {
      assert IsJsWhitespace(' ');
    }
    ImportIdShape(name);
    TokenScanner.NoWhitespaceUnchanged(ToLowerCase(name), false);
  }

  /** "Lido DAO Token" is one such name: its two ids differ. */
  lemma LidoIdsDiffer()
    ensures ImportId("Lido DAO Token") != TokenScanner.ScannerId("Lido DAO Token")
  {
    ImportAndScanIdsDiffer("Lido DAO Token", 4, 8);
  }

  /** The message set on any failure. */
  const ImportErrorMessage: string := "Adresse invalide ou token inconnu."

  /** How `handleImport` ends. */
  datatype ImportResult =
    | Imported(token: TokenDescriptor)   // `onImport(newToken)`
    | NoClient                           // no chain client: returns without a word
    | Rejected                           // `getAddress` threw or a contract read failed

  /**
   * The outcome of one import of `input`. `getAddress` stands for the
   * checksumming validator (None when it throws); `readSymbol` and
   * `readName` for the two contract reads (None when the read fails).
   */
  function ImportOutcome(input: string, getAddress: string -> Option<string>, hasClient: bool,
                         readSymbol: string -> Option<string>, readName: string -> Option<string>): (r: ImportResult)
    ensures r == NoClient <==> getAddress(input).Some? && !hasClient
    ensures r.Imported? <==> getAddress(input).Some? && hasClient
                             && readSymbol(getAddress(input).value).Some? && readName(getAddress(input).value).Some?
    ensures r.Imported? ==>
              var address := getAddress(input).value;
              r.token == TokenDescriptor(address, readSymbol(address).value, readName(address).value,
                                         ImportId(readName(address).value))
  {
    match getAddress(input)
    case None => Rejected
    case Some(validAddress) =>
      if !hasClient then NoClient
      else
        match (readSymbol(validAddress), readName(validAddress))
        case (Some(symbol), Some(name)) =>
          Imported(TokenDescriptor(validAddress, symbol, name, ImportId(name)))
        case _ => Rejected
  }

  /** The form's state; `imported` records the tokens handed to `onImport`, in order. */
  class ImportForm {
    var addressInput: string
    var isLoading: bool
    var error: string
    var imported: seq<TokenDescriptor>

    constructor ()
      ensures addressInput == "" && !isLoading && error == "" && imported == []
    {
      addressInput := "";
      isLoading := false;
      error := "";
      imported := [];
    }

    /** The input's `onChange`. */
    method SetAddressInput(value: string)
      modifies this
      ensures addressInput == value
      ensures isLoading == old(isLoading) && error == old(error) && imported == old(imported)
    {
      addressInput := value;
    }

    /**
     * `handleImport`: clears the error and raises the loading flag, then
     * validates, reads and hands the token over; the flag is lowered on
     * every path.
     */
    method HandleImport(getAddress: string -> Option<string>, hasClient: bool,
                        readSymbol: string -> Option<string>, readName: string -> Option<string>)
      modifies this
      ensures !isLoading
      ensures match ImportOutcome(old(addressInput), getAddress, hasClient, readSymbol, readName)
              case Imported(token) => imported == old(imported) + [token] && addressInput == "" && error == ""
              case NoClient => imported == old(imported) && addressInput == old(addressInput) && error == ""
              case Rejected => imported == old(imported) && addressInput == old(addressInput) && error == ImportErrorMessage
    {
      error := "";
      isLoading := true;
      var checked := getAddress(addressInput);
      if checked.None? {
        error := ImportErrorMessage;
        isLoading := false;
        return;
      }
      var validAddress := checked.value;
      if !hasClient {
        isLoading := false;
        return;
      }
      var symbol, name := readSymbol(validAddress), readName(validAddress);
      if symbol.None? || name.None? {
        error := ImportErrorMessage;
        isLoading := false;
        return;
      }
      var newToken := TokenDescriptor(validAddress, symbol.value, name.value, ImportId(name.value));
      imported := imported + [newToken];
      addressInput := "";
      isLoading := false;
    }
  }
}
