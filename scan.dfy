/**
 * Character classes and scanning primitives shared by the two crash-report
 * analysers.  They give the meaning of the regular-expression atoms the
 * analysers use (`\s`, `\d`, `\w`, `[0-9a-fA-F]`, `[^"]`, `.`) and of
 * Python's `int(text, 16)` / `int(text)`.
 */
module Scan {

  import opened Wrappers

  /** The character classes that occur in the analysers' patterns. */
  datatype CharClass =
    | Space       // \s : the characters Python's str.isspace() accepts
    | Digit       // \d (ASCII digits)
    | Hex         // [0-9a-fA-F]
    | Word        // \w (ASCII letters, digits and underscore)
    | NotQuote    // [^"]
    | NotNewline  // .  without DOTALL

  predicate IsSpace(c: char)
  {
    var n := c as int;
    (9 <= n <= 13) || (0x1c <= n <= 0x20) || n == 0x85 || n == 0xa0 || n == 0x1680
    || (0x2000 <= n <= 0x200a) || n == 0x2028 || n == 0x2029 || n == 0x202f
    || n == 0x205f || n == 0x3000
  }

  predicate IsDigit(c: char) { '0' <= c <= '9' }

  predicate IsHex(c: char) { '0' <= c <= '9' || 'a' <= c <= 'f' || 'A' <= c <= 'F' }

  predicate IsWord(c: char) { '0' <= c <= '9' || 'a' <= c <= 'z' || 'A' <= c <= 'Z' || c == '_' }

  predicate InClass(c: char, k: CharClass)
  {
    match k
    case Space => IsSpace(c)
    case Digit => IsDigit(c)
    case Hex => IsHex(c)
    case Word => IsWord(c)
    case NotQuote => c != '"'
    case NotNewline => c != '\n'
  }

  /** End of the longest run of class-`k` characters starting at `p` (a greedy `k*`). */
  function RunEnd(s: string, p: nat, k: CharClass): (q: nat)
    requires p <= |s|
    ensures p <= q <= |s|
    ensures forall j :: p <= j < q ==> InClass(s[j], k)
    ensures q == |s| || !InClass(s[q], k)
    decreases |s| - p
  {
    if p < |s| && InClass(s[p], k) then RunEnd(s, p + 1, k) else p
  }

  /** The run ends exactly where the first character outside the class (or the text) does. */
  lemma {:induction false} RunEndIs(s: string, p: nat, q: nat, k: CharClass)
    requires p <= q <= |s|
    requires forall j :: p <= j < q ==> InClass(s[j], k)
    requires q == |s| || !InClass(s[q], k)
    ensures RunEnd(s, p, k) == q
    decreases q - p
  {
    if p < q {
      RunEndIs(s, p + 1, q, k);
    }
  }

  /** The text of that run. */
  function RunText(s: string, p: nat, k: CharClass): (t: string)
    requires p <= |s|
    ensures t == s[p..RunEnd(s, p, k)]
    ensures forall j :: 0 <= j < |t| ==> InClass(t[j], k)
  {
    s[p..RunEnd(s, p, k)]
  }

  /** The end of the line that contains `p`: the first '\n' at or after `p`, or the end. */
  function LineEnd(s: string, p: nat): (q: nat)
    requires p <= |s|
    ensures p <= q <= |s| && (q == |s| || s[q] == '\n')
    ensures forall j :: p <= j < q ==> s[j] != '\n'
  {
    RunEnd(s, p, NotNewline)
  }

  /** A one-character literal occurs wherever that character does. */
  lemma StartsAtChar(s: string, p: nat, c: char)
    requires p < |s| && s[p] == c
    ensures StartsAt(s, p, [c])
  {
    assert s[p..p + 1] == [s[p]];
  }

  /** `$` in MULTILINE mode: at the end of the text or just before a '\n'. */
  predicate AtEol(s: string, p: nat)
  {
    p == |s| || (p < |s| && s[p] == '\n')
  }

  /** `lit` occurs in `s` at position `p`. */
  predicate StartsAt(s: string, p: nat, lit: string)
  {
    p + |lit| <= |s| && s[p..p + |lit|] == lit
  }

  /** The first occurrence of `lit` at or after `p` (Python's str.find). */
  function Find(s: string, p: nat, lit: string): (r: Option<nat>)
    requires p <= |s|
    ensures r.Some? ==> p <= r.value <= |s| && StartsAt(s, r.value, lit)
    ensures r.Some? ==> forall j :: p <= j < r.value ==> !StartsAt(s, j, lit)
    ensures r.None? ==> forall j :: p <= j ==> !StartsAt(s, j, lit)
    decreases |s| - p
  {
    if StartsAt(s, p, lit) then Some(p)
    else if p == |s| then None
    else Find(s, p + 1, lit)
  }

  /** Find returns the first occurrence: one at `i` with none in [p, i) is the answer. */
  lemma FindIsFirst(s: string, p: nat, lit: string, i: nat)
    requires p <= i && StartsAt(s, i, lit)
    requires forall j :: p <= j < i ==> !StartsAt(s, j, lit)
    ensures Find(s, p, lit) == Some(i)
  {
    var f := Find(s, p, lit);
    assert f.Some?;
  }

  /** The first '\n' at or after p. */
  lemma FindFirstNewline(s: string, p: nat, n: nat)
    requires p <= n < |s| && s[n] == '\n'
    requires forall k :: p <= k < n ==> s[k] != '\n'
    ensures Find(s, p, "\n") == Some(n)
  {
    assert s[n..n + 1] == [s[n]];
    forall k | p <= k < n
      ensures !StartsAt(s, k, "\n")
    {
      assert s[k..k + 1] == [s[k]];
    }
    FindIsFirst(s, p, "\n", n);
  }

  function HexDigitValue(c: char): (v: nat)
    requires IsHex(c)
    ensures v < 16
  {
    if '0' <= c <= '9' then c as int - '0' as int
    else if 'a' <= c <= 'f' then c as int - 'a' as int + 10
    else c as int - 'A' as int + 10
  }

  function DigitValue(c: char): (v: nat)
    requires IsDigit(c)
    ensures v < 10
  {
    c as int - '0' as int
  }

  function Pow16(n: nat): (r: nat)
    ensures r >= 1
  {
    if n == 0 then 1 else 16 * Pow16(n - 1)
  }

  /** Python's `int(digits, 16)` on a string of hexadecimal digits (no prefix). */
  function HexValue(digits: string): (v: nat)
    requires forall j :: 0 <= j < |digits| ==> IsHex(digits[j])
    ensures v < Pow16(|digits|)
  {
    if digits == [] then 0
    else HexValue(digits[..|digits| - 1]) * 16 + HexDigitValue(digits[|digits| - 1])
  }

  /** Python's `int(digits)` on a string of ASCII decimal digits. */
  function DecimalValue(digits: string): (v: nat)
    requires forall j :: 0 <= j < |digits| ==> IsDigit(digits[j])
  {
    if digits == [] then 0
    else DecimalValue(digits[..|digits| - 1]) * 10 + DigitValue(digits[|digits| - 1])
  }
}
