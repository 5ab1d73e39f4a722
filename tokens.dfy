/**
 * The token descriptor both discovery paths (the wallet scan and the
 * manual import) produce, and the string primitives their price-feed id
 * heuristics use.
 */
module Tokens {

  /** `{ address, symbol, name, coingeckoId }` */
  datatype TokenDescriptor = TokenDescriptor(address: string, symbol: string, name: string, coingeckoId: string)

  /** `toLowerCase` on one character, for the ASCII letters. */
  function LowerChar(c: char): char {
    if 'A' <= c <= 'Z' then (c as int + 32) as char else c
  }

  /** `toLowerCase`, character by character. */
  function ToLowerCase(s: string): (l: string)
    ensures |l| == |s|
    ensures forall i :: 0 <= i < |s| ==> l[i] == LowerChar(s[i])
  {
    seq(|s|, i requires 0 <= i < |s| => LowerChar(s[i]))
  }

  /** The characters JavaScript's `\s` matches: the WhiteSpace and LineTerminator characters of ECMA-262. */
  predicate IsJsWhitespace(c: char) {
    || c == '\t' || c == '\n' || c == '\U{B}' || c == '\U{C}' || c == '\r' || c == ' '
    || c == '\U{A0}' || c == '\U{1680}' || ('\U{2000}' <= c <= '\U{200A}')
    || c == '\U{2028}' || c == '\U{2029}' || c == '\U{202F}' || c == '\U{205F}' || c == '\U{3000}' || c == '\U{FEFF}'
  }

  /** Lowercasing neither makes nor unmakes whitespace, and keeps every space where it was. */
  lemma LowerCaseKeepsWhitespace(s: string)
    ensures forall i :: 0 <= i < |s| ==> (IsJsWhitespace(ToLowerCase(s)[i]) <==> IsJsWhitespace(s[i]))
    ensures forall i :: 0 <= i < |s| ==> (ToLowerCase(s)[i] == ' ' <==> s[i] == ' ')
  {
  }
}
