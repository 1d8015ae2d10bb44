/**
 * Small building blocks shared by the components: an Option type and the
 * JavaScript string operations the client code relies on (decimal
 * formatting of integers, parseInt on digit strings, padStart, substring,
 * startsWith, includes, toLowerCase and trim).
 */
module Common {

  datatype Option<T> = None | Some(value: T)

  /** The value of a computation, or the message of the exception it threw. */
  datatype Result<T> = Ok(value: T) | Err(message: string)

  /* ---------------------------------------------------------------------- */
  /* Decimal digits                                                          */
  /* ---------------------------------------------------------------------- */

  predicate IsDigit(c: char) {
    '0' <= c <= '9'
  }

  predicate AllDigits(s: string) {
    forall i :: 0 <= i < |s| ==> IsDigit(s[i])
  }

  function DigitChar(d: nat): (c: char)
    requires d < 10
    ensures IsDigit(c)
  {
    (48 + d) as char
  }

  function DigitValue(c: char): (d: nat)
    requires IsDigit(c)
    ensures d < 10 && DigitChar(d) == c
  {
    c as int - 48
  }

  /** `String(n)` for a non-negative integer: its shortest decimal text. */
  function NatToString(n: nat): (s: string)
    ensures 1 <= |s| && AllDigits(s)
    ensures s[0] == '0' <==> n == 0
    ensures n < 10 <==> |s| == 1
    decreases n
  {
    if n < 10 then [DigitChar(n)] else NatToString(n / 10) + [DigitChar(n % 10)]
  }

  /** `String(n)` for any integer. */
  function IntToString(n: int): (s: string)
    ensures 1 <= |s|
    ensures n >= 0 ==> s == NatToString(n)
    ensures n < 0 ==> s[0] == '-' && s[1..] == NatToString(-n)
  {
    if n < 0 then "-" + NatToString(-n) else NatToString(n)
  }

  /** `parseInt(s, 10)` for a string made of decimal digits only. */
  function ParseDigits(s: string): (n: nat)
    requires AllDigits(s)
  {
    if s == [] then 0 else ParseDigits(s[..|s| - 1]) * 10 + DigitValue(s[|s| - 1])
  }

  lemma {:induction false} ParseDigitsBound(s: string)
    requires AllDigits(s) && |s| >= 1 && s[0] != '0'
    ensures ParseDigits(s) >= 1
    ensures |s| >= 2 ==> ParseDigits(s) >= 10
  {
    if |s| >= 2 {
      ParseDigitsBound(s[..|s| - 1]);
    }
  }

  /** Reading the decimal text of a number gives the number back. */
  lemma {:induction false} ParseNatToString(n: nat)
    ensures ParseDigits(NatToString(n)) == n
    decreases n
  {
    var s := NatToString(n);
    if n >= 10 {
      ParseNatToString(n / 10);
      assert s[..|s| - 1] == NatToString(n / 10);
    }
  }

  /** Writing a digit string without a leading zero reproduces it. */
  lemma {:induction false} NatToStringParse(s: string)
    requires AllDigits(s) && |s| >= 1 && (s[0] != '0' || |s| == 1)
    ensures NatToString(ParseDigits(s)) == s
  {
    var n := ParseDigits(s);
    var init := s[..|s| - 1];
    if |s| == 1 {
      assert init == [];
    } else {
      ParseDigitsBound(s);
      NatToStringParse(init);
      assert n / 10 == ParseDigits(init);
      assert n % 10 == DigitValue(s[|s| - 1]);
      assert s == init + [s[|s| - 1]];
    }
  }

  lemma NatToStringInjective(a: nat, b: nat)
    requires NatToString(a) == NatToString(b)
    ensures a == b
  {
    ParseNatToString(a);
    ParseNatToString(b);
  }

  /* ---------------------------------------------------------------------- */
  /* String operations with JavaScript semantics                            */
  /* ---------------------------------------------------------------------- */

  /** `s.padStart(2, '0')`. */
  function PadStart2(s: string): (r: string)
    ensures |r| == if |s| >= 2 then |s| else 2
    ensures r[|r| - |s|..] == s
    ensures forall i :: 0 <= i < |r| - |s| ==> r[i] == '0'
  {
    if |s| >= 2 then s else if |s| == 1 then "0" + s else "00"
  }

  /** `String(n).padStart(2, '0')`. */
  function Pad2(n: nat): string {
    PadStart2(NatToString(n))
  }

  /** Below 100, `Pad2` gives exactly two digits that read back as n. */
  lemma Pad2Digits(n: nat)
    requires n < 100
    ensures |Pad2(n)| == 2 && AllDigits(Pad2(n)) && ParseDigits(Pad2(n)) == n
  {
    ParseNatToString(n);
    if n < 10 {
      var t := "0" + NatToString(n);
      assert t[..1] == "0";
      assert t[..1][..0] == [];
    }
  }

  /** Two-character digit strings are reproduced by `Pad2` of their value. */
  lemma Pad2Parse(s: string)
    requires |s| == 2 && AllDigits(s)
    ensures Pad2(ParseDigits(s)) == s
  {
    if s[0] == '0' {
      assert ParseDigits(s) == DigitValue(s[1]) by {
        assert s[..1] == "0";
        assert ParseDigits(s[..1][..0]) == 0;
      }
      assert [s[1]][..0] == [];
      assert NatToString(DigitValue(s[1])) == [s[1]];
      assert s == "0" + [s[1]];
    } else {
      NatToStringParse(s);
    }
  }

  /** `s.substring(a, b)`: both ends clamped to the string, swapped if reversed. */
  function JsSubstring(s: string, a: int, b: int): (r: string)
    ensures 0 <= a <= b <= |s| ==> r == s[a..b]
    ensures |r| <= |s|
  {
    var lo := if a < 0 then 0 else if a > |s| then |s| else a;
    var hi := if b < 0 then 0 else if b > |s| then |s| else b;
    if lo <= hi then s[lo..hi] else s[hi..lo]
  }

  /** `s.startsWith(p)`. */
  predicate StartsWith(s: string, p: string) {
    |p| <= |s| && s[..|p|] == p
  }

  /** `s.includes(t)`: t occurs somewhere in s (the empty string occurs everywhere). */
  predicate Includes(s: string, t: string)
    decreases |s|
  {
    StartsWith(s, t) || (|s| > 0 && Includes(s[1..], t))
  }

  /** t occurs in s starting at position i. */
  predicate OccursAt(s: string, t: string, i: int) {
    0 <= i <= |s| - |t| && s[i..i + |t|] == t
  }

  /** Includes agrees with the positional definition of a substring occurrence. */
  lemma {:induction false} IncludesAt(s: string, t: string)
    ensures Includes(s, t) <==> exists i :: OccursAt(s, t, i)
    decreases |s|
  {
    if StartsWith(s, t) {
      assert OccursAt(s, t, 0);
    }
    if |s| > 0 {
      IncludesAt(s[1..], t);
      if Includes(s[1..], t) {
        var i :| OccursAt(s[1..], t, i);
        assert s[i + 1..i + 1 + |t|] == s[1..][i..i + |t|];
        assert OccursAt(s, t, i + 1);
      }
      if i :| OccursAt(s, t, i) {
        if i > 0 {
          assert s[1..][i - 1..i - 1 + |t|] == s[i..i + |t|];
          assert OccursAt(s[1..], t, i - 1);
        }
      }
    }
  }

  /**
   * `toLowerCase` on one character, for the Basic Latin and Latin-1
   * ranges: A-Z and the accented capitals U+00C0..U+00DE (except the
   * multiplication sign U+00D7) move down by 0x20; everything else is kept.
   */
  function LowerChar(c: char): (r: char)
    ensures 'A' <= c <= 'Z' ==> 'a' <= r <= 'z' && r as int == c as int + 32
    ensures '\U{00C0}' <= c <= '\U{00DE}' && c != '\U{00D7}' ==> r as int == c as int + 32
    ensures !('A' <= c <= 'Z') && !('\U{00C0}' <= c <= '\U{00DE}' && c != '\U{00D7}') ==> r == c
  {
    if 'A' <= c <= 'Z' || ('\U{00C0}' <= c <= '\U{00DE}' && c != '\U{00D7}') then
      (c as int + 32) as char
    else
      c
  }

  function Lower(s: string): (r: string)
    ensures |r| == |s|
    ensures forall i :: 0 <= i < |s| ==> r[i] == LowerChar(s[i])
  {
    seq(|s|, i requires 0 <= i < |s| => LowerChar(s[i]))
  }

  /** The characters `String.prototype.trim` removes: WhiteSpace and LineTerminator. */
  predicate IsJsWhitespace(c: char) {
    c == '\t' || c == '\n' || c == '\U{000B}' || c == '\U{000C}' || c == '\r' ||
    c == ' ' || c == '\U{00A0}' || c == '\U{1680}' || ('\U{2000}' <= c <= '\U{200A}') ||
    c == '\U{2028}' || c == '\U{2029}' || c == '\U{202F}' || c == '\U{205F}' ||
    c == '\U{3000}' || c == '\U{FEFF}'
  }

  function TrimStart(s: string): (r: string)
    ensures |r| <= |s| && r == s[|s| - |r|..]
    ensures r != [] ==> !IsJsWhitespace(r[0])
    ensures forall i :: 0 <= i < |s| - |r| ==> IsJsWhitespace(s[i])
  {
    if s != [] && IsJsWhitespace(s[0]) then TrimStart(s[1..]) else s
  }

  function TrimEnd(s: string): (r: string)
    ensures |r| <= |s| && r == s[..|r|]
    ensures r != [] ==> !IsJsWhitespace(r[|r| - 1])
    ensures forall i :: |r| <= i < |s| ==> IsJsWhitespace(s[i])
  {
    if s != [] && IsJsWhitespace(s[|s| - 1]) then TrimEnd(s[..|s| - 1]) else s
  }

  /** `s.trim()`. */
  function Trim(s: string): string {
    TrimEnd(TrimStart(s))
  }

  /** A string is blank when every character is whitespace. */
  predicate IsBlank(s: string) {
    forall i :: 0 <= i < |s| ==> IsJsWhitespace(s[i])
  }

  /** `s.trim()` is empty exactly when s is blank. */
  lemma TrimEmptyIffBlank(s: string)
    ensures Trim(s) == "" <==> IsBlank(s)
  {
    var t := TrimStart(s);
    if Trim(s) == "" {
      // trimEnd removed all of t, yet t cannot start with whitespace
      assert t == "";
    }
    if IsBlank(s) {
      BlankTrimStart(s);
    }
  }

  /** `trimStart` removes the whole of a blank string. */
  lemma {:induction false} BlankTrimStart(s: string)
    requires IsBlank(s)
    ensures TrimStart(s) == ""
  {
    if s != [] {
      assert IsJsWhitespace(s[0]);
      BlankTrimStart(s[1..]);
    }
  }
}
