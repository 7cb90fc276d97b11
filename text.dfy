/** The JavaScript string operations the widget relies on: `toLowerCase`, `trim`, `includes`,
    `startsWith`, and the decimal rendering of integers (`String(n)`, template literals). */
module Text {

  // ---------------------------------------------------------------------------
  // Lower-casing

  /** `toLowerCase` on one character, for the scripts the shop's texts use: Latin A-Z,
      Cyrillic А-Я and Ё. Every other character is left as it is. */
  function LowerChar(c: char): char {
    if 'A' <= c <= 'Z' then (c as int + 32) as char
    else if 'А' <= c <= 'Я' then (c as int + 32) as char
    else if c == 'Ё' then 'ё'
    else c
  }

  /** `s.toLowerCase()` */
  function Lower(s: string): string {
    seq(|s|, i requires 0 <= i < |s| => LowerChar(s[i]))
  }

  lemma LowerIdempotent(s: string)
    ensures Lower(Lower(s)) == Lower(s)
  {
  }

  /** A lower-case Cyrillic letter `c` appears in `Lower(s)` only if `c` or its capital appears in `s`. */
  lemma CyrillicLowerExcludes(s: string, c: char)
    requires 'а' <= c <= 'я'
    requires c !in s && (c as int - 32) as char !in s
    ensures c !in Lower(s)
  {
  }

  // ---------------------------------------------------------------------------
  // Trimming

  /** The characters `String.prototype.trim` removes: ECMAScript WhiteSpace and LineTerminator. */
  predicate IsWhitespace(c: char) {
    || c == ' ' || c == '\t' || c == '\n' || c == '\r'
    || c == '\U{000B}' || c == '\U{000C}' || c == '\U{00A0}' || c == '\U{FEFF}'
    || c == '\U{1680}' || ('\U{2000}' <= c <= '\U{200A}')
    || c == '\U{2028}' || c == '\U{2029}' || c == '\U{202F}' || c == '\U{205F}' || c == '\U{3000}'
  }

  predicate AllWhitespace(s: string) {
    forall i :: 0 <= i < |s| ==> IsWhitespace(s[i])
  }

  /** `s` without its leading whitespace. */
  function TrimStart(s: string): (r: string)
    ensures |r| <= |s| && r == s[|s| - |r|..]
    ensures AllWhitespace(s[..|s| - |r|])
    ensures r == [] || !IsWhitespace(r[0])
  {
    if s != [] && IsWhitespace(s[0]) then TrimStart(s[1..]) else s
  }

  /** `s` without its trailing whitespace. */
  function TrimEnd(s: string): (r: string)
    ensures |r| <= |s| && r == s[..|r|]
    ensures AllWhitespace(s[|r|..])
    ensures r == [] || !IsWhitespace(r[|r| - 1])
  {
    if s != [] && IsWhitespace(s[|s| - 1]) then TrimEnd(s[..|s| - 1]) else s
  }

  /** `s.trim()`: a slice of `s` with only whitespace before and after it; empty exactly when `s`
      is all whitespace, otherwise neither starting nor ending with whitespace. */
  function Trim(s: string): (r: string)
    ensures exists i | 0 <= i <= |s| - |r| ::
      r == s[i..i + |r|] && AllWhitespace(s[..i]) && AllWhitespace(s[i + |r|..])
    ensures r == [] <==> AllWhitespace(s)
    ensures r != [] ==> !IsWhitespace(r[0]) && !IsWhitespace(r[|r| - 1])
  {
    var t := TrimStart(s);
    var r := TrimEnd(t);
    TrimSlice(s, t, r);
    TrimEmpty(s, t, r);
    r
  }

  /** Trimming the front and then the back leaves a slice of `s` between two whitespace runs. */
  lemma TrimSlice(s: string, t: string, r: string)
    requires |t| <= |s| && t == s[|s| - |t|..] && AllWhitespace(s[..|s| - |t|])
    requires |r| <= |t| && r == t[..|r|] && AllWhitespace(t[|r|..])
    ensures exists i | 0 <= i <= |s| - |r| ::
      r == s[i..i + |r|] && AllWhitespace(s[..i]) && AllWhitespace(s[i + |r|..])
  {
    var i := |s| - |t|;
    assert r == s[i..i + |r|];
    assert s[i + |r|..] == t[|r|..];
  }

  /** That slice is empty exactly when `s` is all whitespace. */
  lemma TrimEmpty(s: string, t: string, r: string)
    requires |t| <= |s| && t == s[|s| - |t|..] && AllWhitespace(s[..|s| - |t|])
    requires t == [] || !IsWhitespace(t[0])
    requires |r| <= |t| && r == t[..|r|] && AllWhitespace(t[|r|..])
    ensures r == [] <==> AllWhitespace(s)
  {
    var i := |s| - |t|;
    if r == [] {
      // A non-empty `t` would start with whitespace, so the whole of `s` is the leading run.
      assert t[|r|..] == t;
      assert s[..i] == s;
    } else {
      assert s[i] == t[0];
    }
  }

  lemma TrimIdempotent(s: string)
    ensures Trim(Trim(s)) == Trim(s)
  {
    var r := Trim(s);
    assert TrimStart(r) == r;
    assert TrimEnd(r) == r;
  }

  lemma LowerKeepsWhitespace(c: char)
    ensures IsWhitespace(LowerChar(c)) <==> IsWhitespace(c)
  {
  }

  lemma {:induction false} TrimStartLower(s: string)
    ensures TrimStart(Lower(s)) == Lower(TrimStart(s))
    decreases |s|
  {
    if s != [] {
      LowerKeepsWhitespace(s[0]);
      assert Lower(s)[1..] == Lower(s[1..]);
      if IsWhitespace(s[0]) {
        TrimStartLower(s[1..]);
      }
    }
  }

  lemma {:induction false} TrimEndLower(s: string)
    ensures TrimEnd(Lower(s)) == Lower(TrimEnd(s))
    decreases |s|
  {
    if s != [] {
      LowerKeepsWhitespace(s[|s| - 1]);
      assert Lower(s)[..|s| - 1] == Lower(s[..|s| - 1]);
      if IsWhitespace(s[|s| - 1]) {
        TrimEndLower(s[..|s| - 1]);
      }
    }
  }

  /** Trimming and lower-casing commute, because lower-casing never turns a character into
      whitespace or whitespace into something else. */
  lemma TrimLowerCommute(s: string)
    ensures Trim(Lower(s)) == Lower(Trim(s))
  {
    TrimStartLower(s);
    TrimEndLower(TrimStart(s));
  }

  // ---------------------------------------------------------------------------
  // Substrings

  predicate StartsWith(s: string, p: string) {
    |p| <= |s| && s[..|p|] == p
  }

  /** `q` occurs in `s` starting at index `i`. */
  predicate OccursAt(s: string, q: string, i: int) {
    0 <= i && i + |q| <= |s| && s[i..i + |q|] == q
  }

  /** `s.includes(q)`: `q` occurs in `s` at some index. */
  predicate Contains(s: string, q: string) {
    exists i | 0 <= i <= |s| - |q| :: OccursAt(s, q, i)
  }

  lemma ContainsAt(s: string, q: string, i: nat)
    requires OccursAt(s, q, i)
    ensures Contains(s, q)
  {
  }

  /** Every string includes the empty string. */
  lemma ContainsEmpty(s: string)
    ensures Contains(s, "")
  {
    ContainsAt(s, "", 0);
  }

  lemma ContainsInfix(a: string, q: string, b: string)
    ensures Contains(a + q + b, q)
  {
    assert (a + q + b)[|a|..|a| + |q|] == q;
    ContainsAt(a + q + b, q, |a|);
  }

  /** A template literal: its pieces, concatenated in order. */
  function Join(parts: seq<string>): string {
    if parts == [] then "" else parts[0] + Join(parts[1..])
  }

  /** Every piece of a template literal is included in its text. */
  lemma {:induction false} JoinContainsPart(parts: seq<string>, i: int)
    requires 0 <= i < |parts|
    ensures Contains(Join(parts), parts[i])
  {
    var rest := Join(parts[1..]);
    if i == 0 {
      ContainsInfix("", parts[0], rest);
      assert "" + parts[0] + rest == Join(parts);
    } else {
      JoinContainsPart(parts[1..], i - 1);
      ContainsInfix(parts[0], rest, "");
      assert parts[0] + rest + "" == Join(parts);
      ContainsTransitive(Join(parts), rest, parts[i]);
    }
  }

  /** Inclusion is transitive: a piece of a piece of `s` is a piece of `s`. */
  lemma ContainsTransitive(s: string, q: string, p: string)
    requires Contains(s, q) && Contains(q, p)
    ensures Contains(s, p)
  {
    var i :| 0 <= i <= |s| - |q| && OccursAt(s, q, i);
    var j :| 0 <= j <= |q| - |p| && OccursAt(q, p, j);
    forall k | 0 <= k < |p|
      ensures s[i + j + k] == p[k]
    {
      assert q[j..j + |p|][k] == q[j + k];
      assert s[i..i + |q|][j + k] == s[i + j + k];
    }
    assert s[i + j..i + j + |p|] == p;
    ContainsAt(s, p, i + j);
  }

  /** If `s` includes `q`, every character of `q` occurs in `s`. */
  lemma ContainsKeepsChars(s: string, q: string)
    requires Contains(s, q)
    ensures forall c :: c in q ==> c in s
  {
    var i :| 0 <= i <= |s| - |q| && OccursAt(s, q, i);
    forall c | c in q
      ensures c in s
    {
      var j :| 0 <= j < |q| && q[j] == c;
      assert s[i..i + |q|][j] == s[i + j];
    }
  }

  /** A character of `q` that `s` lacks rules out `s.includes(q)`. */
  lemma NotContainsByChar(s: string, q: string, c: char)
    requires c in q && c !in s
    ensures !Contains(s, q)
  {
    if Contains(s, q) {
      ContainsKeepsChars(s, q);
    }
  }

  lemma PairOccursSplit(a: string, b: string, p: string, i: int)
    requires |p| == 2 && OccursAt(a + b, p, i)
    ensures OccursAt(a, p, i) || OccursAt(b, p, i - |a|) || (i == |a| - 1 && a[i] == p[0] && b[0] == p[1])
  {
    var s := a + b;
    assert s[i..i + 2][0] == s[i] && s[i..i + 2][1] == s[i + 1];
    if i + 2 <= |a| {
      assert a[i..i + 2] == s[i..i + 2];
    } else if i >= |a| {
      assert b[i - |a|..i - |a| + 2] == s[i..i + 2];
    }
  }

  /** A two-character string inside `a + b` lies in `a`, in `b`, or across the seam. */
  lemma ContainsPairSplit(a: string, b: string, p: string)
    requires |p| == 2 && Contains(a + b, p)
    ensures Contains(a, p) || Contains(b, p) || (a != [] && b != [] && a[|a| - 1] == p[0] && b[0] == p[1])
  {
    var i :| 0 <= i <= |a + b| - |p| && OccursAt(a + b, p, i);
    PairOccursSplit(a, b, p, i);
    if OccursAt(a, p, i) {
      ContainsAt(a, p, i);
    } else if OccursAt(b, p, i - |a|) {
      ContainsAt(b, p, i - |a|);
    }
  }

  // ---------------------------------------------------------------------------
  // Decimal numbers

  function DigitChar(d: nat): char
    requires d < 10
  {
    ('0' as int + d) as char
  }

  predicate IsDigit(c: char) {
    '0' <= c <= '9'
  }

  /** `String(n)` for a non-negative integer: its decimal digits, without leading zeros. */
  function NatToDecimal(n: nat): (r: string)
    ensures |r| >= 1 && forall i :: 0 <= i < |r| ==> IsDigit(r[i])
    decreases n
  {
    if n < 10 then [DigitChar(n)] else NatToDecimal(n / 10) + [DigitChar(n % 10)]
  }

  /** `String(i)` for any integer. */
  function IntToDecimal(i: int): string {
    if i < 0 then "-" + NatToDecimal(-i) else NatToDecimal(i)
  }

  /** The number a string of decimal digits denotes. */
  function DecimalValue(s: string): nat
    requires forall i :: 0 <= i < |s| ==> IsDigit(s[i])
  {
    if s == [] then 0
    else
      assert IsDigit(s[|s| - 1]);
      10 * DecimalValue(s[..|s| - 1]) + (s[|s| - 1] as int - '0' as int)
  }

  /** Reading back the decimal rendering of `n` gives `n`. */
  lemma {:induction false} DecimalRoundTrip(n: nat)
    ensures DecimalValue(NatToDecimal(n)) == n
    decreases n
  {
    if n >= 10 {
      DecimalRoundTrip(n / 10);
      var s := NatToDecimal(n);
      assert s[..|s| - 1] == NatToDecimal(n / 10);
    }
  }

  function Pow10(k: nat): (r: nat)
    ensures r >= 1
  {
    if k == 0 then 1 else 10 * Pow10(k - 1)
  }

  /** The last `width` decimal digits of `n`, with leading zeros. */
  function PaddedDigits(n: nat, width: nat): (r: string)
    ensures |r| == width && forall i :: 0 <= i < |r| ==> IsDigit(r[i])
  {
    if width == 0 then [] else PaddedDigits(n / 10, width - 1) + [DigitChar(n % 10)]
  }

  /** The padded digits denote `n` modulo `10^width`. */
  lemma {:induction false} PaddedDigitsValue(n: nat, width: nat)
    ensures DecimalValue(PaddedDigits(n, width)) == n % Pow10(width)
  {
    if width > 0 {
      PaddedDigitsValue(n / 10, width - 1);
      var s := PaddedDigits(n, width);
      assert s[..|s| - 1] == PaddedDigits(n / 10, width - 1);
      DivModPow10(n, width);
    }
  }

  lemma {:induction false} MulAtLeast(m: int, k: int)
    requires m > 0 && k >= 1
    ensures m * k >= m
    decreases k
  {
    if k > 1 {
      MulAtLeast(m, k - 1);
      assert m * k == m * (k - 1) + m;
    }
  }

  /** Division with remainder is unique. */
  lemma ModUnique(n: int, m: int, a: int, b: int)
    requires m > 0 && 0 <= b < m && n == m * a + b
    ensures n % m == b
  {
    var a', b' := n / m, n % m;
    var k := a - a';
    assert m * a - m * a' == m * k;
    assert m * k == b' - b;
    if k >= 1 {
      MulAtLeast(m, k);
    } else if k <= -1 {
      MulAtLeast(m, -k);
    }
  }

  lemma DivModPow10(n: nat, width: nat)
    requires width > 0
    ensures n % Pow10(width) == 10 * ((n / 10) % Pow10(width - 1)) + n % 10
  {
    var p := Pow10(width - 1);
    var q := n / 10;
    var d := n % 10;
    var qq := q / p;
    var qr := q % p;
    assert q == p * qq + qr;
    assert n == 10 * q + d;
    assert n == (10 * p) * qq + (10 * qr + d);
    ModUnique(n, 10 * p, qq, 10 * qr + d);
  }

  /** Once `n` has at least `width` digits, its last `width` characters are its padded low digits. */
  lemma {:induction false} DecimalSuffix(n: nat, width: nat)
    requires width == 0 || n >= Pow10(width - 1)
    ensures |NatToDecimal(n)| >= width
    ensures NatToDecimal(n)[|NatToDecimal(n)| - width..] == PaddedDigits(n, width)
    decreases width
  {
    var s := NatToDecimal(n);
    if width == 0 {
    } else if width == 1 {
      assert PaddedDigits(n, 1) == [] + [DigitChar(n % 10)];
      if n >= 10 {
        assert s[|s| - 1..] == [DigitChar(n % 10)];
      }
    } else {
      assert Pow10(width - 1) == 10 * Pow10(width - 2);
      assert n / 10 >= Pow10(width - 2);
      DecimalSuffix(n / 10, width - 1);
      var t := NatToDecimal(n / 10);
      assert s == t + [DigitChar(n % 10)];
      assert s[|s| - width..] == t[|t| - (width - 1)..] + [DigitChar(n % 10)];
    }
  }
}
