/**
 * String operations the source uses: `startsWith`, `trim` and the decimal
 * rendering of an integer (`String(n)`, `n.toString()`, template literals).
 */
module Text {

  predicate StartsWith(s: string, prefix: string)
  {
    |prefix| <= |s| && s[..|prefix|] == prefix
  }

  /**
   * The characters JavaScript's `String.prototype.trim` strips: WhiteSpace
   * (tab, vertical tab, form feed, byte-order mark and every space separator)
   * and LineTerminator (line feed, carriage return, U+2028, U+2029).
   */
  predicate IsJsWhitespace(c: char)
  {
    || c == '\t' || c == '\n' || c == '\U{B}' || c == '\U{C}' || c == '\r'
    || c == ' ' || c == '\U{A0}' || c == '\U{1680}'
    || ('\U{2000}' <= c <= '\U{200A}')
    || c == '\U{2028}' || c == '\U{2029}' || c == '\U{202F}' || c == '\U{205F}'
    || c == '\U{3000}' || c == '\U{FEFF}'
  }

  /** Drops leading whitespace. */
  function TrimStart(s: string): string
  {
    if s != [] && IsJsWhitespace(s[0]) then TrimStart(s[1..]) else s
  }

  /** Drops trailing whitespace. */
  function TrimEnd(s: string): string
  {
    if s != [] && IsJsWhitespace(s[|s| - 1]) then TrimEnd(s[..|s| - 1]) else s
  }

  /** TrimStart leaves a suffix of `s` that starts with a non-blank, having dropped only whitespace. */
  lemma {:induction false} TrimStartDropsBlanks(s: string)
    ensures var r := TrimStart(s);
      && |r| <= |s| && r == s[|s| - |r|..]
      && (forall i :: 0 <= i < |s| - |r| ==> IsJsWhitespace(s[i]))
      && (r != [] ==> !IsJsWhitespace(r[0]))
  {
    if s != [] && IsJsWhitespace(s[0]) {
      var t := s[1..];
      TrimStartDropsBlanks(t);
      var r := TrimStart(s);
      assert r == TrimStart(t);
      assert |s| - |r| == 1 + (|t| - |r|);
      assert t[|t| - |r|..] == s[|s| - |r|..];
      forall i | 0 <= i < |s| - |r| ensures IsJsWhitespace(s[i]) {
        if i > 0 {
          assert s[i] == t[i - 1];
        }
      }
    }
  }

  /** TrimEnd leaves a prefix of `s` that ends with a non-blank, having dropped only whitespace. */
  lemma {:induction false} TrimEndDropsBlanks(s: string)
    ensures var r := TrimEnd(s);
      && |r| <= |s| && r == s[..|r|]
      && (forall i :: |r| <= i < |s| ==> IsJsWhitespace(s[i]))
      && (r != [] ==> !IsJsWhitespace(r[|r| - 1]))
  {
    if s != [] && IsJsWhitespace(s[|s| - 1]) {
      var p := s[..|s| - 1];
      TrimEndDropsBlanks(p);
      var r := TrimEnd(s);
      assert p[..|r|] == s[..|r|];
      forall i | |r| <= i < |s| ensures IsJsWhitespace(s[i]) {
        if i < |s| - 1 {
          assert s[i] == p[i];
        }
      }
    }
  }

  function Trim(s: string): string
  {
    TrimEnd(TrimStart(s))
  }

  /** `!s.trim()`: the trimmed string is empty exactly when every character is whitespace. */
  lemma {:induction false} BlankIff(s: string)
    ensures Trim(s) == "" <==> forall i :: 0 <= i < |s| ==> IsJsWhitespace(s[i])
  {
    var t := TrimStart(s);
    TrimStartDropsBlanks(s);
    TrimEndDropsBlanks(t);
    if Trim(s) == "" {
      // TrimStart left nothing: a non-blank first character would have survived TrimEnd.
      assert t == [];
    } else {
      var k := |s| - |t|;
      assert t != [] && !IsJsWhitespace(t[0]);
      assert s[k] == t[0];
    }
  }

  /** A string that survives `trim()` with something left is non-empty. */
  lemma NotBlankIsNonEmpty(s: string)
    requires Trim(s) != ""
    ensures s != ""
  {
    BlankIff(s);
  }

  function DigitChar(d: nat): (c: char)
    requires d < 10
    ensures '0' <= c <= '9'
  {
    (d + '0' as int) as char
  }

  predicate IsDigits(s: string)
  {
    forall i :: 0 <= i < |s| ==> '0' <= s[i] <= '9'
  }

  /** The decimal rendering of a natural number, most significant digit first, no leading zeros. */
  function NatToDecimal(n: nat): (r: string)
    ensures r != "" && IsDigits(r)
    ensures n >= 10 ==> r[0] != '0'
    decreases n
  {
    if n < 10 then [DigitChar(n)] else NatToDecimal(n / 10) + [DigitChar(n % 10)]
  }

  /** `n.toString()` for an integer: a minus sign in front of the magnitude when negative. */
  function IntToDecimal(n: int): (r: string)
    ensures n >= 0 ==> r == NatToDecimal(n)
    ensures n < 0 ==> r == "-" + NatToDecimal(-n)
  {
    if n < 0 then "-" + NatToDecimal(-n) else NatToDecimal(n)
  }

  /** Reads a string of decimal digits back as a number; the inverse of NatToDecimal. */
  function DecimalValue(s: string): nat
    requires IsDigits(s)
  {
    if s == [] then 0 else 10 * DecimalValue(s[..|s| - 1]) + (s[|s| - 1] as int - '0' as int)
  }

  lemma {:induction false} DecimalRoundTrip(n: nat)
    ensures DecimalValue(NatToDecimal(n)) == n
    decreases n
  {
    if n >= 10 {
      var r := NatToDecimal(n);
      DecimalRoundTrip(n / 10);
      assert r[..|r| - 1] == NatToDecimal(n / 10);
    }
  }

  /** Distinct numbers render as distinct strings. */
  lemma NatToDecimalInjective(m: nat, n: nat)
    requires NatToDecimal(m) == NatToDecimal(n)
    ensures m == n
  {
    DecimalRoundTrip(m);
    DecimalRoundTrip(n);
  }

  /** The position of the first occurrence of `c` in `s`. */
  function FirstIndex(s: string, c: char): (k: nat)
    requires c in s
    ensures k < |s| && s[k] == c && c !in s[..k]
  {
    if s[0] == c then 0 else 1 + FirstIndex(s[1..], c)
  }

  lemma {:induction false} FirstIndexOfJoin(a: string, b: string, sep: char)
    requires sep !in a
    ensures sep in a + [sep] + b && FirstIndex(a + [sep] + b, sep) == |a|
  {
    var x := a + [sep] + b;
    assert x[|a|] == sep;
    if a != [] {
      assert x[1..] == a[1..] + [sep] + b;
      FirstIndexOfJoin(a[1..], b, sep);
    }
  }

  /** Splitting at the first occurrence of a separator that the left parts do not contain. */
  lemma SplitAtSeparator(a: string, b: string, c: string, d: string, sep: char)
    requires sep !in a && sep !in c
    requires a + [sep] + b == c + [sep] + d
    ensures a == c && b == d
  {
    var x := a + [sep] + b;
    FirstIndexOfJoin(a, b, sep);
    FirstIndexOfJoin(c, d, sep);
    assert a == x[..|a|];
    assert c == x[..|c|];
    assert b == x[|a| + 1..];
    assert d == x[|c| + 1..];
  }
}
