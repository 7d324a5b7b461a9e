/** String helpers standing for the JavaScript string methods the source calls. */
module Text {

  /** One character of `toLowerCase()`; the model lower-cases the ASCII letters only. */
  function LowerChar(c: char): char
  {
    if 'A' <= c <= 'Z' then (c as int + 32) as char else c
  }

  /** `s.toLowerCase()` */
  function Lower(s: string): (r: string)
    ensures |r| == |s|
    ensures forall i :: 0 <= i < |s| ==> r[i] == LowerChar(s[i])
  {
    seq(|s|, i requires 0 <= i < |s| => LowerChar(s[i]))
  }

  lemma LowerIdempotent(s: string)
    ensures Lower(Lower(s)) == Lower(s)
  {
  }

  predicate StartsWith(s: string, prefix: string)
  {
    |prefix| <= |s| && s[..|prefix|] == prefix
  }

  /** `s.includes(sub)` */
  predicate Contains(s: string, sub: string)
  {
    exists i :: 0 <= i <= |s| - |sub| && StartsWith(s[i..], sub)
  }

  /** Every string contains the empty string, so an empty query matches everything. */
  lemma ContainsEmpty(s: string)
    ensures Contains(s, "")
  {
    assert StartsWith(s[0..], "");
  }

  lemma ContainsSelf(s: string)
    ensures Contains(s, s)
  {
    assert s[0..] == s;
    assert StartsWith(s[0..], s);
  }

  /** The white space that `trim()` removes. */
  predicate IsSpace(c: char)
  {
    c == ' ' || c == '\t' || c == '\n' || c == '\r' || c == '\U{000B}' || c == '\U{000C}'
    || c == '\U{00A0}' || c == '\U{1680}' || ('\U{2000}' <= c <= '\U{200A}')
    || c == '\U{2028}' || c == '\U{2029}' || c == '\U{202F}' || c == '\U{205F}'
    || c == '\U{3000}' || c == '\U{FEFF}'
  }

  predicate AllSpace(s: string)
  {
    forall i :: 0 <= i < |s| ==> IsSpace(s[i])
  }

  /** The number of white-space characters at the front of `s`. */
  function LeadingSpaces(s: string): (k: nat)
    ensures k <= |s|
    ensures forall i :: 0 <= i < k ==> IsSpace(s[i])
    ensures k < |s| ==> !IsSpace(s[k])
  {
    if s != [] && IsSpace(s[0]) then
      var k := LeadingSpaces(s[1..]);
      assert forall i :: 1 <= i < k + 1 ==> s[i] == s[1..][i - 1];
      1 + k
    else 0
  }

  /** The number of white-space characters at the end of `s`. */
  function TrailingSpaces(s: string): (k: nat)
    ensures k <= |s|
    ensures forall i :: |s| - k <= i < |s| ==> IsSpace(s[i])
    ensures k < |s| ==> !IsSpace(s[|s| - 1 - k])
  {
    if s != [] && IsSpace(s[|s| - 1]) then
      var init := s[..|s| - 1];
      var k := TrailingSpaces(init);
      assert forall i :: |s| - 1 - k <= i < |s| - 1 ==> s[i] == init[i];
      1 + k
    else 0
  }

  /** `s.trimStart()` */
  function TrimStart(s: string): (r: string)
    ensures r == [] || !IsSpace(r[0])
  {
    s[LeadingSpaces(s)..]
  }

  /** `s.trimEnd()` */
  function TrimEnd(s: string): (r: string)
    ensures r == [] || !IsSpace(r[|r| - 1])
  {
    s[..|s| - TrailingSpaces(s)]
  }

  /** `s.trim()` */
  function Trim(s: string): (r: string)
    ensures r == [] || (!IsSpace(r[0]) && !IsSpace(r[|r| - 1]))
  {
    TrimEnd(TrimStart(s))
  }

  lemma TrimStartEmpty(s: string)
    ensures TrimStart(s) == [] <==> AllSpace(s)
  {
    var k := LeadingSpaces(s);
  }

  lemma TrimEndEmpty(s: string)
    ensures TrimEnd(s) == [] <==> AllSpace(s)
  {
    var k := TrailingSpaces(s);
  }

  /** A string trims to nothing exactly when it is all white space: `!s.trim()` is a blank test. */
  lemma TrimEmptyIffAllSpace(s: string)
    ensures Trim(s) == [] <==> AllSpace(s)
  {
    var t := TrimStart(s);
    TrimStartEmpty(s);
    TrimEndEmpty(t);
  }

  /** `parts.join(sep)` with a one-character separator. */
  function Join(parts: seq<string>, sep: char): string
  {
    if parts == [] then ""
    else if |parts| == 1 then parts[0]
    else parts[0] + [sep] + Join(parts[1..], sep)
  }

  /** Index of the first `c` in `s`. */
  function IndexOf(s: string, c: char): (i: nat)
    requires c in s
    ensures i < |s| && s[i] == c && c !in s[..i]
  {
    if s[0] == c then 0 else 1 + IndexOf(s[1..], c)
  }

  /** `s.split(sep)` */
  function Split(s: string, sep: char): (r: seq<string>)
    ensures |r| >= 1
    decreases |s|
  {
    if sep !in s then [s]
    else
      var i := IndexOf(s, sep);
      [s[..i]] + Split(s[i + 1..], sep)
  }

  /** The first `c` in `s` is at `j` when `s[j]` is `c` and no `c` comes before. */
  lemma IndexOfFirst(s: string, c: char, j: nat)
    requires j < |s| && s[j] == c && c !in s[..j]
    ensures IndexOf(s, c) == j
  {
    var i := IndexOf(s, c);
    forall k | 0 <= k < j ensures s[k] != c { assert s[k] == s[..j][k]; }
    forall k | 0 <= k < i ensures s[k] != c { assert s[k] == s[..i][k]; }
  }

  /** Splitting a joined list gives the list back when no part contains the separator. */
  lemma {:induction false} SplitJoin(parts: seq<string>, sep: char)
    requires |parts| >= 1
    requires forall i :: 0 <= i < |parts| ==> sep !in parts[i]
    ensures Split(Join(parts, sep), sep) == parts
  {
    if |parts| > 1 {
      var first := parts[0];
      var rest := Join(parts[1..], sep);
      var s := first + [sep] + rest;
      assert Join(parts, sep) == s;
      assert s[|first|] == sep && s[..|first|] == first;
      IndexOfFirst(s, sep, |first|);
      assert s[|first| + 1..] == rest;
      assert Split(s, sep) == [first] + Split(rest, sep);
      SplitJoin(parts[1..], sep);
      assert [first] + parts[1..] == parts;
    } else {
      assert Join(parts, sep) == parts[0];
    }
  }

  /** The digit character for `d`, lower-case letters above nine. */
  function DigitChar(d: nat): char
    requires d < 16
  {
    if d < 10 then ('0' as int + d) as char else ('a' as int + d - 10) as char
  }

  function DigitValue(c: char): nat
  {
    if '0' <= c <= '9' then c as int - '0' as int
    else if 'a' <= c <= 'f' then c as int - 'a' as int + 10
    else 0
  }

  /** `n.toString(base)` for a base of at most sixteen. */
  function NatToString(n: nat, base: nat): (r: string)
    requires 2 <= base <= 16
    ensures |r| >= 1
    decreases n
  {
    if n < base then [DigitChar(n)] else NatToString(n / base, base) + [DigitChar(n % base)]
  }

  function ParseDigits(s: string, base: nat): nat
  {
    if s == [] then 0 else ParseDigits(s[..|s| - 1], base) * base + DigitValue(s[|s| - 1])
  }

  lemma DigitRoundTrip(d: nat)
    requires d < 16
    ensures DigitValue(DigitChar(d)) == d
  {
  }

  lemma ParseDigitsSnoc(x: string, c: char, base: nat)
    ensures ParseDigits(x + [c], base) == ParseDigits(x, base) * base + DigitValue(c)
  {
    assert (x + [c])[..|x + [c]| - 1] == x;
  }

  lemma DivMod(n: nat, base: nat)
    requires base > 0
    ensures n == (n / base) * base + n % base
  {
  }

  lemma ParseSingleDigit(n: nat, base: nat)
    requires 2 <= base <= 16 && n < base
    ensures ParseDigits(NatToString(n, base), base) == n
  {
    var s := NatToString(n, base);
    assert s[..0] == [];
    DigitRoundTrip(n);
  }

  /** Rendering a number and reading the digits back gives the number. */
  lemma {:induction false} ParseNatToString(n: nat, base: nat)
    requires 2 <= base <= 16
    ensures ParseDigits(NatToString(n, base), base) == n
    decreases n
  {
    if n >= base {
      DivMod(n, base);
      ParseNatToString(n / base, base);
      ParseNatToStringStep(n, base);
    } else {
      ParseSingleDigit(n, base);
    }
  }

  lemma ParseNatToStringStep(n: nat, base: nat)
    requires 2 <= base <= 16 && n >= base
    requires ParseDigits(NatToString(n / base, base), base) == n / base
    ensures ParseDigits(NatToString(n, base), base) == n
  {
    var q, d := n / base, n % base;
    var prefix := NatToString(q, base);
    assert NatToString(n, base) == prefix + [DigitChar(d)];
    ParseDigitsSnoc(prefix, DigitChar(d), base);
    DigitRoundTrip(d);
    DivMod(n, base);
  }

  /** `String(n)` for an integer. */
  function IntToString(n: int): (r: string)
    ensures |r| >= 1
    ensures (r[0] == '-') <==> n < 0
    ensures forall i :: 0 < i < |r| ==> IsDigit(r[i])
    ensures IsDigit(r[0]) || r[0] == '-'
  {
    NatToStringDigits(if n < 0 then -n else n, 10);
    if n < 0 then "-" + NatToString(-n, 10) else NatToString(n, 10)
  }

  /** `parseInt(s, 10)` on what `IntToString` writes: an optional minus sign, then digits. */
  function ParseInt(s: string): int
  {
    if s != [] && s[0] == '-' then -(ParseDigits(s[1..], 10) as int) else ParseDigits(s, 10)
  }

  /** Writing an integer out and reading it back gives the integer. */
  lemma IntToStringRoundTrip(n: int)
    ensures ParseInt(IntToString(n)) == n
  {
    if n < 0 {
      ParseNatToString(-n, 10);
      assert IntToString(n)[1..] == NatToString(-n, 10);
    } else {
      ParseNatToString(n, 10);
    }
  }

  predicate IsDigit(c: char)
  {
    '0' <= c <= '9'
  }

  /** Decimal and lower-case hexadecimal digits. */
  predicate IsHexDigit(c: char)
  {
    '0' <= c <= '9' || 'a' <= c <= 'f'
  }

  lemma DigitCharIsDigit(d: nat)
    requires d < 16
    ensures IsHexDigit(DigitChar(d))
    ensures d < 10 ==> IsDigit(DigitChar(d))
  {
  }

  /** Every character of `s` is a digit of `base`. */
  predicate DigitsOf(s: string, base: nat)
  {
    forall i :: 0 <= i < |s| ==> IsHexDigit(s[i]) && (base <= 10 ==> IsDigit(s[i]))
  }

  lemma DigitsOfSnoc(p: string, d: nat, base: nat)
    requires d < base <= 16 && DigitsOf(p, base)
    ensures DigitsOf(p + [DigitChar(d)], base)
  {
    DigitCharIsDigit(d);
    var r := p + [DigitChar(d)];
    forall i | 0 <= i < |r| ensures IsHexDigit(r[i]) && (base <= 10 ==> IsDigit(r[i])) {
      if i < |p| { assert r[i] == p[i]; }
    }
  }

  lemma NatToStringDigitsStep(n: nat, base: nat)
    requires 2 <= base <= 16 && n >= base
    requires DigitsOf(NatToString(n / base, base), base)
    ensures DigitsOf(NatToString(n, base), base)
  {
    assert NatToString(n, base) == NatToString(n / base, base) + [DigitChar(n % base)];
    DigitsOfSnoc(NatToString(n / base, base), n % base, base);
  }

  lemma NatToStringDigitsSingle(n: nat, base: nat)
    requires 2 <= base <= 16 && n < base
    ensures DigitsOf(NatToString(n, base), base)
  {
    DigitCharIsDigit(n);
    assert NatToString(n, base) == [DigitChar(n)];
  }

  /** Every character of a rendered number is a digit of its base. */
  lemma {:induction false} NatToStringDigits(n: nat, base: nat)
    requires 2 <= base <= 16
    ensures DigitsOf(NatToString(n, base), base)
    decreases n
  {
    if n >= base {
      DivMod(n, base);
      NatToStringDigits(n / base, base);
      NatToStringDigitsStep(n, base);
    } else {
      NatToStringDigitsSingle(n, base);
    }
  }
}
