/**
 * Identity codes of the registry: a product SKU and a branch code are both minted as
 * the first three characters of the name in upper case, a dash, and the first six
 * characters of a random UUID's hexadecimal form in upper case (NAME3-HEX6).
 * The random UUID is a parameter: `uuidHex` stands for `uuid.uuid4().hex`.
 */
module Codes {

  predicate IsLowerHexDigit(c: char) { '0' <= c <= '9' || 'a' <= c <= 'f' }

  predicate IsUpperHexDigit(c: char) { '0' <= c <= '9' || 'A' <= c <= 'F' }

  predicate IsLowerLetter(c: char) { 'a' <= c <= 'z' }

  /** The shape of `uuid.uuid4().hex`: 32 lower-case hexadecimal digits. */
  predicate IsUuidHex(s: string) {
    |s| == 32 && forall i :: 0 <= i < |s| ==> IsLowerHexDigit(s[i])
  }

  /** ASCII text, where `str.upper()` maps exactly 'a'..'z'; only the upper-cased `name[:3]` needs it. */
  predicate IsAscii(s: string) {
    forall i :: 0 <= i < |s| ==> s[i] < 128 as char
  }

  /** `str.upper()` on one ASCII character. */
  function UpperChar(c: char): (d: char)
    ensures !IsLowerLetter(d)
    ensures IsLowerLetter(c) || d == c
    // a lower-case letter becomes its own capital
    ensures IsLowerLetter(c) ==> 'A' <= d <= 'Z' && d as int - 'A' as int == c as int - 'a' as int
  {
    if IsLowerLetter(c) then (c as int - 32) as char else c
  }

  /** `str.upper()` on an ASCII string. */
  function Upper(s: string): (t: string)
    ensures |t| == |s|
    ensures forall i :: 0 <= i < |s| ==> t[i] == UpperChar(s[i])
  {
    if s == [] then [] else [UpperChar(s[0])] + Upper(s[1..])
  }

  /** Python's `name[:3]`: the whole name when it is shorter than three characters. */
  function Head3(name: string): (h: string)
    ensures |h| == if |name| < 3 then |name| else 3
    ensures name == h + name[|h|..]
  {
    if |name| < 3 then name else name[..3]
  }

  /** A well-formed code: an upper-case prefix of at most three characters, '-', six upper-case hex digits. */
  predicate IsCode(code: string) {
    && 7 <= |code| <= 10
    && code[|code| - 7] == '-'
    && (forall i :: |code| - 6 <= i < |code| ==> IsUpperHexDigit(code[i]))
    && (forall i :: 0 <= i < |code| - 7 ==> !IsLowerLetter(code[i]))
  }

  /** The part of a code before the dash. */
  function CodePrefix(code: string): string
    requires IsCode(code)
  {
    code[..|code| - 7]
  }

  /** The six hexadecimal digits after the dash. */
  function CodeSuffix(code: string): string
    requires IsCode(code)
  {
    code[|code| - 6..]
  }

  /** `f"{name[:3].upper()}-{uuid_hex[:6].upper()}"`. */
  function Mint(name: string, uuidHex: string): (code: string)
    requires IsAscii(Head3(name)) && IsUuidHex(uuidHex)
    ensures IsCode(code) && code != []
    ensures |code| == |Head3(name)| + 7
    ensures CodePrefix(code) == Upper(Head3(name))
    ensures CodeSuffix(code) == Upper(uuidHex[..6])
  {
    var prefix, suffix := Upper(Head3(name)), Upper(uuidHex[..6]);
    assert forall i :: 0 <= i < 6 ==> IsUpperHexDigit(suffix[i]) by {
      forall i | 0 <= i < 6 ensures IsUpperHexDigit(suffix[i]) {
        assert IsLowerHexDigit(uuidHex[i]);
      }
    }
    var code := prefix + "-" + suffix;
    assert code[..|code| - 7] == prefix;
    assert code[|code| - 6..] == suffix;
    code
  }

  /** A code is determined by its two parts: splitting at the dash and joining again gives it back. */
  lemma {:induction false} CodeSplitJoin(code: string)
    requires IsCode(code)
    ensures code == CodePrefix(code) + "-" + CodeSuffix(code)
  {
    assert code == code[..|code| - 7] + [code[|code| - 7]] + code[|code| - 6..];
  }

  /** Upper-casing loses nothing on lower-case hexadecimal digits. */
  lemma UpperHexDigitInjective(c: char, d: char)
    requires IsLowerHexDigit(c) && IsLowerHexDigit(d) && UpperChar(c) == UpperChar(d)
    ensures c == d
  {
  }

  lemma UpperHexInjective(a: string, b: string)
    requires |a| == |b| && Upper(a) == Upper(b)
    requires forall i :: 0 <= i < |a| ==> IsLowerHexDigit(a[i]) && IsLowerHexDigit(b[i])
    ensures a == b
  {
    forall i | 0 <= i < |a| ensures a[i] == b[i] {
      assert UpperChar(a[i]) == Upper(a)[i] == Upper(b)[i] == UpperChar(b[i]);
      UpperHexDigitInjective(a[i], b[i]);
    }
  }

  /** Two mints of the same name differ exactly when the drawn UUIDs differ in their first six digits. */
  lemma {:induction false} MintInjectiveInSuffix(name: string, h1: string, h2: string)
    requires IsAscii(Head3(name)) && IsUuidHex(h1) && IsUuidHex(h2)
    ensures Mint(name, h1) == Mint(name, h2) <==> h1[..6] == h2[..6]
  {
    if Mint(name, h1) == Mint(name, h2) {
      UpperHexInjective(h1[..6], h2[..6]);
    }
  }
}
