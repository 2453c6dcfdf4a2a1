/** The JavaScript string operations the core relies on: rendering an
    integer in a template literal, `split` on one character, `trim`, and
    `Number(text)` for integer text. */
module Strings {

  predicate IsDigit(c: char) {
    '0' <= c <= '9'
  }

  predicate AllDigits(s: string) {
    forall i :: 0 <= i < |s| ==> IsDigit(s[i])
  }

  function DigitChar(d: nat): (c: char)
    requires d < 10
    ensures IsDigit(c) && c as int - '0' as int == d
  {
    ('0' as int + d) as char
  }

  /** Decimal text of a non-negative integer, most significant digit first. */
  function NatToString(n: nat): (s: string)
    ensures |s| >= 1 && AllDigits(s)
    decreases n
  {
    if n < 10 then [DigitChar(n)] else NatToString(n / 10) + [DigitChar(n % 10)]
  }

  /** `${i}` for an integer `i`. */
  function IntToString(i: int): string {
    if i < 0 then "-" + NatToString(-i) else NatToString(i)
  }

  /** The value of a string of decimal digits; the empty string is 0. */
  function DigitsValue(s: string): nat
    requires AllDigits(s)
  {
    if s == [] then 0
    else 10 * DigitsValue(s[..|s| - 1]) + (s[|s| - 1] as int - '0' as int)
  }

  lemma {:induction false} DigitsValueOfNatToString(n: nat)
    ensures DigitsValue(NatToString(n)) == n
    decreases n
  {
    if n >= 10 {
      var s := NatToString(n);
      assert s[..|s| - 1] == NatToString(n / 10);
      DigitsValueOfNatToString(n / 10);
    }
  }

  // ---------------------------------------------------------------------
  // trim

  /** The characters `String.prototype.trim` strips: the ECMAScript
      WhiteSpace and LineTerminator sets. */
  predicate IsSpace(c: char) {
    c in {'\t', '\n', '\r', '\U{B}', '\U{C}', ' ', '\U{A0}', '\U{1680}',
          '\U{2028}', '\U{2029}', '\U{202F}', '\U{205F}', '\U{3000}', '\U{FEFF}'}
    || ('\U{2000}' <= c <= '\U{200A}')
  }

  predicate IsBlank(s: string) {
    forall i :: 0 <= i < |s| ==> IsSpace(s[i])
  }

  function TrimStart(s: string): (r: string)
    ensures |r| <= |s| && r == s[|s| - |r|..]
    ensures IsBlank(s[..|s| - |r|])
    ensures r == [] || !IsSpace(r[0])
  {
    if |s| > 0 && IsSpace(s[0]) then
      var r := TrimStart(s[1..]);
      assert s[..|s| - |r|] == [s[0]] + s[1..][..|s| - 1 - |r|];
      r
    else s
  }

  function TrimEnd(s: string): (r: string)
    ensures |r| <= |s| && r == s[..|r|]
    ensures IsBlank(s[|r|..])
    ensures r == [] || !IsSpace(r[|r| - 1])
  {
    if |s| > 0 && IsSpace(s[|s| - 1]) then
      var r := TrimEnd(s[..|s| - 1]);
      assert s[|r|..] == s[..|s| - 1][|r|..] + [s[|s| - 1]];
      r
    else s
  }

  /** `s.trim()`. */
  function Trim(s: string): (r: string)
    ensures r == [] <==> IsBlank(s)
  {
    var t := TrimStart(s);
    var r := TrimEnd(t);
    assert r == [] ==> IsBlank(s) by {
      if r == [] {
        assert IsBlank(t) by { assert t[|r|..] == t; }
        forall i | 0 <= i < |s| ensures IsSpace(s[i]) {
          if i < |s| - |t| {
            assert s[i] == s[..|s| - |t|][i];
          } else {
            assert s[i] == t[i - (|s| - |t|)];
          }
        }
      }
    }
    r
  }

  // ---------------------------------------------------------------------
  // Number(text) || 0

  /** The value of integer text: an optional sign and decimal digits (the
      empty string is 0); any other text is 0. */
  function IntegerValue(t: string): int {
    if |t| > 1 && t[0] == '-' && AllDigits(t[1..]) then -(DigitsValue(t[1..]) as int)
    else if |t| > 1 && t[0] == '+' && AllDigits(t[1..]) then DigitsValue(t[1..])
    else if AllDigits(t) then DigitsValue(t)
    else 0
  }

  /** `Number(s) || 0` for the integer forms of `s`: optional surrounding
      white space, an optional sign and decimal digits (the empty or blank
      string is 0). Every other text (NaN) gives 0. */
  function NumberOrZero(s: string): (r: int)
    ensures IsBlank(s) ==> r == 0
    ensures AllDigits(s) ==> r == DigitsValue(s)
  {
    if AllDigits(s) then
      DigitsUnspaced(s);
      assert IsBlank(s) ==> s == [] by { assert |s| > 0 ==> !IsSpace(s[0]); }
      assert |s| > 0 ==> IsDigit(s[0]);
      IntegerValue(s)
    else
      assert IsBlank(s) ==> Trim(s) == [];
      IntegerValue(Trim(s))
  }

  /** A sign followed by decimal digits reads back as the signed number. */
  lemma SignedTextValue(n: nat)
    ensures NumberOrZero("+" + NatToString(n)) == n
    ensures NumberOrZero("-" + NatToString(n)) == -(n as int)
  {
    DigitsValueOfNatToString(n);
    SignedDigitsValue('+', NatToString(n));
    SignedDigitsValue('-', NatToString(n));
  }

  lemma SignedDigitsValue(sign: char, d: string)
    requires sign == '+' || sign == '-'
    requires |d| >= 1 && AllDigits(d)
    ensures NumberOrZero([sign] + d) == if sign == '+' then DigitsValue(d) else -(DigitsValue(d) as int)
  {
    var t := [sign] + d;
    assert t[1..] == d;
    assert !IsSpace(sign);
    DigitsUnspaced(d);
    assert forall i :: 0 <= i < |t| ==> !IsSpace(t[i]) by {
      forall i | 0 <= i < |t| ensures !IsSpace(t[i]) {
        if i > 0 { assert t[i] == d[i - 1]; }
      }
    }
    TrimOfUnspaced(t);
    assert !AllDigits(t) by { assert !IsDigit(t[0]); }
  }

  /** A number written out with a template literal reads back as itself. */
  lemma NumberOrZeroOfIntToString(i: int)
    ensures NumberOrZero(IntToString(i)) == i
  {
    NoSpaceInIntToString(i);
    TrimOfUnspaced(IntToString(i));
    IntegerValueOfIntToString(i);
  }

  lemma IntegerValueOfIntToString(i: int)
    ensures IntegerValue(IntToString(i)) == i
  {
    var s := IntToString(i);
    DigitsValueOfNatToString(if i < 0 then -i else i);
    if i < 0 {
      assert s[1..] == NatToString(-i);
      assert !IsDigit(s[0]);
    }
  }

  lemma NoSpaceInIntToString(i: int)
    ensures forall k :: 0 <= k < |IntToString(i)| ==> !IsSpace(IntToString(i)[k])
  {
    var s := IntToString(i);
    var d := NatToString(if i < 0 then -i else i);
    forall k | 0 <= k < |s| ensures !IsSpace(s[k]) {
      if i < 0 && k == 0 {
        assert s[k] == '-';
      } else {
        assert s[k] == d[if i < 0 then k - 1 else k];
        assert IsDigit(s[k]);
      }
    }
  }

  lemma DigitsUnspaced(s: string)
    requires AllDigits(s)
    ensures forall i :: 0 <= i < |s| ==> !IsSpace(s[i])
  {
    forall i | 0 <= i < |s| ensures !IsSpace(s[i]) {
      assert '0' <= s[i] <= '9';
    }
  }

  lemma TrimOfUnspaced(s: string)
    requires forall i :: 0 <= i < |s| ==> !IsSpace(s[i])
    ensures Trim(s) == s
  {
    assert TrimStart(s) == s;
    assert TrimEnd(s) == s;
  }

  // ---------------------------------------------------------------------
  // split and join on one character

  /** `s.split(sep)` for a one-character separator. */
  function Split(s: string, sep: char): (r: seq<string>)
    ensures |r| >= 1
    ensures forall i :: 0 <= i < |r| ==> sep !in r[i]
    ensures sep in s <==> |r| >= 2
  {
    if s == [] then [""]
    else
      var rest := Split(s[1..], sep);
      if s[0] == sep then [""] + rest
      else [[s[0]] + rest[0]] + rest[1..]
  }

  /** `parts.join(sep)`. */
  function Join(parts: seq<string>, sep: char): string
    requires |parts| >= 1
  {
    if |parts| == 1 then parts[0] else parts[0] + [sep] + Join(parts[1..], sep)
  }

  lemma {:induction false} JoinSplit(s: string, sep: char)
    ensures Join(Split(s, sep), sep) == s
  {
    if s != [] {
      var rest := Split(s[1..], sep);
      JoinSplit(s[1..], sep);
      if s[0] != sep {
        var r := Split(s, sep);
        assert r[1..] == rest[1..];
        if |rest| == 1 {
          assert Join(r, sep) == [s[0]] + rest[0];
        } else {
          assert Join(rest, sep) == rest[0] + [sep] + Join(rest[1..], sep);
          assert Join(r, sep) == [s[0]] + rest[0] + [sep] + Join(rest[1..], sep);
        }
      }
    }
  }

  /** The second field of a split: after the prefix `p + [sep]`, the text
      up to the next separator or the end. */
  lemma {:induction false} SplitAfterPrefix(p: string, sep: char, rest: string)
    requires sep !in p
    ensures |Split(p + [sep] + rest, sep)| >= 2
    ensures Split(p + [sep] + rest, sep)[0] == p
    ensures Split(p + [sep] + rest, sep)[1] == Split(rest, sep)[0]
  {
    var s := p + [sep] + rest;
    if p == [] {
      assert s[1..] == rest;
    } else {
      assert s[1..] == p[1..] + [sep] + rest;
      SplitAfterPrefix(p[1..], sep, rest);
    }
  }

  /** The first field of a split: the longest separator-free prefix. */
  lemma {:induction false} SplitHead(s: string, sep: char)
    ensures Split(s, sep)[0] <= s
    ensures |Split(s, sep)[0]| == |s| || s[|Split(s, sep)[0]|] == sep
  {
    if s != [] && s[0] != sep {
      SplitHead(s[1..], sep);
    }
  }
}
