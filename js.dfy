/**
  The JavaScript built-ins the broker's handlers depend on. A Dafny char is
  a Unicode scalar value, so a character outside the Basic Multilingual
  Plane is one char here and two UTF-16 code units in JavaScript; no text
  the handlers test depends on that difference. Covered: truthiness of a
  string that may be undefined, String(value), parseInt(value, 10),
  String.prototype.includes, and the decimal rendering of an integer in a
  template literal (`${n}`).
 */
module Js {

  /** A value that is either present or `undefined`. */
  datatype Option<+T> = None | Some(value: T)

  /** `!!v` for a string or undefined: only undefined and "" are falsy. */
  predicate Truthy(v: Option<string>) {
    v.Some? && v.value != ""
  }

  /** String(v) for a string or undefined. */
  function ToStr(v: Option<string>): string {
    if v.None? then "undefined" else v.value
  }

  /** StrWhiteSpaceChar of ECMA-262: WhiteSpace (including every Zs character) and LineTerminator. */
  predicate IsWhitespace(c: char) {
    c == '\t' || c == '\n' || c == '\U{000B}' || c == '\U{000C}' || c == '\r' || c == ' '
    || c == '\U{00A0}' || c == '\U{1680}' || ('\U{2000}' <= c <= '\U{200A}')
    || c == '\U{2028}' || c == '\U{2029}' || c == '\U{202F}' || c == '\U{205F}'
    || c == '\U{3000}' || c == '\U{FEFF}'
  }

  predicate IsDigit(c: char) {
    '0' <= c <= '9'
  }

  predicate AllDigits(s: string) {
    forall i :: 0 <= i < |s| ==> IsDigit(s[i])
  }

  /** The string with its leading whitespace removed: the longest suffix reached by skipping whitespace only. */
  function TrimStart(s: string): (r: string)
    ensures |r| <= |s|
  {
    if s != [] && IsWhitespace(s[0]) then TrimStart(s[1..]) else s
  }

  /** The length of the run of decimal digits that starts s. */
  function DigitRun(s: string): (k: nat)
    ensures k <= |s|
  {
    if s != [] && IsDigit(s[0]) then 1 + DigitRun(s[1..]) else 0
  }

  function DigitValue(c: char): nat
    requires IsDigit(c)
  {
    (c as int) - ('0' as int)
  }

  function Digit(d: nat): (c: char)
    requires d < 10
    ensures IsDigit(c) && DigitValue(c) == d
  {
    ('0' as int + d) as char
  }

  /** The number a string of decimal digits denotes, most significant digit first. */
  function DigitsValue(ds: string): nat
    requires AllDigits(ds)
  {
    if ds == [] then 0 else 10 * DigitsValue(ds[..|ds| - 1]) + DigitValue(ds[|ds| - 1])
  }

  /** A JavaScript number as parseInt can produce it: NaN or an integer. */
  datatype Number = NaN | Int(value: int)

  /** TrimStart skips exactly the leading whitespace: what it drops is whitespace and what it keeps does not start with any. */
  lemma {:induction false} TrimStartSpec(s: string)
    ensures TrimStart(s) == s[|s| - |TrimStart(s)|..]
    ensures forall i :: 0 <= i < |s| - |TrimStart(s)| ==> IsWhitespace(s[i])
    ensures TrimStart(s) == [] || !IsWhitespace(TrimStart(s)[0])
  {
    if s != [] && IsWhitespace(s[0]) {
      TrimStartSpec(s[1..]);
    }
  }

  /** DigitRun measures the longest prefix of digits. */
  lemma {:induction false} DigitRunIsDigits(s: string)
    ensures AllDigits(s[..DigitRun(s)])
    ensures DigitRun(s) == |s| || !IsDigit(s[DigitRun(s)])
  {
    if s != [] && IsDigit(s[0]) {
      DigitRunIsDigits(s[1..]);
      assert s[..DigitRun(s)] == [s[0]] + s[1..][..DigitRun(s[1..])];
    }
  }

  /** The value of the run of digits that starts u, NaN when there is none. */
  function ReadDigits(u: string): Number {
    var k := DigitRun(u);
    DigitRunIsDigits(u);
    if k == 0 then NaN else Int(DigitsValue(u[..k]))
  }

  function Negate(n: Number): Number {
    if n.NaN? then NaN else Int(-n.value)
  }

  /** An optional sign, then the digits. */
  function ReadSigned(t: string): Number {
    if t != [] && t[0] == '-' then Negate(ReadDigits(t[1..]))
    else if t != [] && t[0] == '+' then ReadDigits(t[1..])
    else ReadDigits(t)
  }

  /**
    parseInt(s, 10): skip leading whitespace, read an optional sign, then take
    the longest run of decimal digits; NaN when that run is empty. With radix
    10 a "0x" prefix is not special, so "0x10" reads as 0.
   */
  function ParseInt(s: string): Number {
    ReadSigned(TrimStart(s))
  }

  /** The decimal digits of n, without leading zeros. */
  function NatToString(n: nat): (s: string)
    ensures s != [] && AllDigits(s)
    ensures s[0] == '0' ==> n == 0 && s == "0"
  {
    if n < 10 then [Digit(n)] else NatToString(n / 10) + [Digit(n % 10)]
  }

  /** `${n}` for an integer n: a minus sign for negative values, then the digits. */
  function IntToString(n: int): (s: string)
    ensures n >= 0 ==> s != [] && AllDigits(s)
    ensures n < 0 ==> |s| >= 2 && s[0] == '-' && AllDigits(s[1..])
  {
    if n < 0 then "-" + NatToString(-n) else NatToString(n)
  }

  /** p occurs in s starting at index i. */
  predicate OccursAt(s: string, p: string, i: nat) {
    i + |p| <= |s| && s[i..i + |p|] == p
  }

  /** s.includes(p): p occurs in s at some position. */
  function Includes(s: string, p: string): (r: bool)
    ensures r <==> exists i: nat :: OccursAt(s, p, i)
    decreases |s|
  {
    if |p| > |s| then false
    else if s[..|p|] == p then
      assert OccursAt(s, p, 0);
      true
    else
      var r' := Includes(s[1..], p);
      assert forall i: nat :: OccursAt(s[1..], p, i) <==> OccursAt(s, p, i + 1) by {
        forall i: nat ensures OccursAt(s[1..], p, i) <==> OccursAt(s, p, i + 1) {
          if i + 1 + |p| <= |s| {
            assert s[1..][i..i + |p|] == s[i + 1..i + 1 + |p|];
          }
        }
      }
      assert !OccursAt(s, p, 0);
      assert forall i: nat :: OccursAt(s, p, i) ==> i > 0 && OccursAt(s[1..], p, i - 1);
      r'
  }

  /** A prefix none of whose characters can start p hides no occurrence of p. */
  lemma IncludesSkipsPrefix(pre: string, d: string, p: string)
    requires p != []
    requires forall k :: 0 <= k < |pre| ==> pre[k] != p[0]
    ensures Includes(pre + d, p) <==> Includes(d, p)
  {
    var m := pre + d;
    if Includes(m, p) {
      var i: nat :| OccursAt(m, p, i);
      assert m[i] == p[0] by { assert m[i..i + |p|][0] == m[i]; }
      assert forall k :: 0 <= k < |pre| ==> m[k] == pre[k];
      assert i >= |pre|;
      assert m[i..i + |p|] == d[i - |pre|..i - |pre| + |p|];
      assert OccursAt(d, p, i - |pre|);
    }
    if Includes(d, p) {
      IncludesBetween(pre, d, [], p);
      assert pre + d + [] == m;
    }
  }

  /** A string none of whose characters can start p does not include p. */
  lemma NoStartNoOccurrence(s: string, p: string)
    requires p != []
    requires forall k :: 0 <= k < |s| ==> s[k] != p[0]
    ensures !Includes(s, p)
  {
    IncludesSkipsPrefix(s, [], p);
    assert s + [] == s;
  }

  /** An occurrence in the middle part of a string is an occurrence in the whole. */
  lemma IncludesBetween(x: string, d: string, y: string, p: string)
    requires Includes(d, p)
    ensures Includes(x + d + y, p)
  {
    var j: nat :| OccursAt(d, p, j);
    var m := x + d + y;
    assert m[|x| + j..|x| + j + |p|] == d[j..j + |p|];
    assert OccursAt(m, p, |x| + j);
  }

  // ---------------------------------------------------------------------------
  // parseInt reads back what `${n}` writes

  lemma {:induction false} DigitsValueAppend(ds: string, c: char)
    requires AllDigits(ds) && IsDigit(c)
    ensures AllDigits(ds + [c])
    ensures DigitsValue(ds + [c]) == 10 * DigitsValue(ds) + DigitValue(c)
  {
    assert (ds + [c])[..|ds|] == ds;
  }

  /** The digits of n denote n. */
  lemma {:induction false} NatToStringValue(n: nat)
    ensures DigitsValue(NatToString(n)) == n
  {
    if n < 10 {
      assert NatToString(n) == [Digit(n)];
      assert [Digit(n)][..0] == [];
    } else {
      NatToStringValue(n / 10);
      DigitsValueAppend(NatToString(n / 10), Digit(n % 10));
    }
  }

  /** The digit run of a digit string followed by a non-digit is exactly that string. */
  lemma {:induction false} DigitRunOfDigits(ds: string, rest: string)
    requires AllDigits(ds)
    requires rest == [] || !IsDigit(rest[0])
    ensures DigitRun(ds + rest) == |ds|
    decreases |ds|
  {
    if ds == [] {
      assert ds + rest == rest;
    } else {
      assert (ds + rest)[1..] == ds[1..] + rest;
      DigitRunOfDigits(ds[1..], rest);
    }
  }

  /** The digits of a run that a non-digit ends are read in full. */
  lemma ReadDigitsOfDigits(ds: string, rest: string)
    requires ds != [] && AllDigits(ds)
    requires rest == [] || !IsDigit(rest[0])
    ensures ReadDigits(ds + rest) == Int(DigitsValue(ds))
  {
    DigitRunOfDigits(ds, rest);
    assert (ds + rest)[..|ds|] == ds;
  }

  /** Text that starts with neither whitespace nor a sign is read as its digits. */
  lemma ParseIntOfUnsigned(u: string)
    requires u != [] && IsDigit(u[0])
    ensures ParseInt(u) == ReadDigits(u)
  {
    assert TrimStart(u) == u;
  }

  /** Text that starts with a minus sign is read as its negated digits. */
  lemma ParseIntOfMinus(u: string)
    requires u != [] && u[0] == '-'
    ensures ParseInt(u) == Negate(ReadDigits(u[1..]))
  {
    assert TrimStart(u) == u;
  }

  lemma ParseIntOfNatToString(m: nat, rest: string)
    requires rest == [] || !IsDigit(rest[0])
    ensures ParseInt(NatToString(m) + rest) == Int(m)
  {
    NatToStringValue(m);
    ReadDigitsOfDigits(NatToString(m), rest);
    ParseIntOfUnsigned(NatToString(m) + rest);
  }

  lemma ParseIntOfMinusDigits(ds: string, rest: string)
    requires ds != [] && AllDigits(ds)
    requires rest == [] || !IsDigit(rest[0])
    ensures ParseInt("-" + ds + rest) == Int(-(DigitsValue(ds) as int))
  {
    var s := "-" + ds + rest;
    ReadDigitsOfDigits(ds, rest);
    assert s[1..] == ds + rest;
    ParseIntOfMinus(s);
  }

  lemma ParseIntOfMinusNatToString(m: nat, rest: string)
    requires rest == [] || !IsDigit(rest[0])
    ensures ParseInt("-" + NatToString(m) + rest) == Int(-(m as int))
  {
    NatToStringValue(m);
    ParseIntOfMinusDigits(NatToString(m), rest);
  }

  /** parseInt recovers any integer from its rendering, whatever non-digit text follows it. */
  lemma ParseIntOfIntToString(n: int, rest: string)
    requires rest == [] || !IsDigit(rest[0])
    ensures ParseInt(IntToString(n) + rest) == Int(n)
  {
    if n < 0 {
      ParseIntOfMinusNatToString(-n, rest);
    } else {
      ParseIntOfNatToString(n, rest);
    }
  }

  /** `${n}` is injective: distinct integers render differently. */
  lemma IntToStringInjective(m: int, n: int)
    requires IntToString(m) == IntToString(n)
    ensures m == n
  {
    ParseIntOfIntToString(m, []);
    ParseIntOfIntToString(n, []);
    assert IntToString(m) + [] == IntToString(n) + [];
  }

  /** Leading whitespace never changes what parseInt reads. */
  lemma {:induction false} ParseIntSkipsWhitespace(w: string, s: string)
    requires forall i :: 0 <= i < |w| ==> IsWhitespace(w[i])
    ensures ParseInt(w + s) == ParseInt(s)
  {
    TrimStartSkips(w, s);
  }

  lemma {:induction false} TrimStartSkips(w: string, s: string)
    requires forall i :: 0 <= i < |w| ==> IsWhitespace(w[i])
    ensures TrimStart(w + s) == TrimStart(s)
    decreases |w|
  {
    if w == [] {
      assert w + s == s;
    } else {
      assert (w + s)[0] == w[0];
      assert (w + s)[1..] == w[1..] + s;
      TrimStartSkips(w[1..], s);
    }
  }

  /** What parseInt(…, 10) makes of whole numbers. */
  lemma ParseIntReadsNumbers()
    ensures ParseInt("0") == Int(0)
    ensures ParseInt("-5") == Int(-5)
  {
    ParseIntOfIntToString(0, []);
    assert IntToString(0) + [] == "0";
    ParseIntOfIntToString(-5, []);
    assert IntToString(-5) + [] == "-5";
  }

  /** parseInt(…, 10) reads a digit prefix and ignores what follows: letters, an "x", an exponent. */
  lemma ParseIntReadsDigitPrefix()
    ensures ParseInt("12abc") == Int(12)
    ensures ParseInt("0x10") == Int(0)
    ensures ParseInt("1e3") == Int(1)
  {
    ParseIntOfIntToString(12, "abc");
    assert IntToString(12) + "abc" == "12abc";
    ParseIntOfIntToString(0, "x10");
    assert IntToString(0) + "x10" == "0x10";
    ParseIntOfIntToString(1, "e3");
    assert IntToString(1) + "e3" == "1e3";
  }

  /** A leading plus sign and leading whitespace are accepted. */
  lemma ParseIntReadsPlusSign()
    ensures ParseInt(" +7") == Int(7)
  {
    ParseIntSkipsWhitespace(" ", "+7");
    assert TrimStart("+7") == "+7";
    ReadDigitsOfDigits("7", []);
    assert "7" + [] == "7";
    assert DigitsValue("7") == 7 by { assert "7"[..0] == []; }
  }

  /** No digit after the optional sign gives NaN; so does String(undefined). */
  lemma ParseIntRejectsNonNumbers()
    ensures ParseInt("abc").NaN?
    ensures ParseInt(ToStr(None)).NaN?
    ensures ParseInt("").NaN?
    ensures ParseInt("-").NaN?
  {
    assert TrimStart("abc") == "abc";
    assert TrimStart("undefined") == "undefined";
    assert TrimStart("-") == "-";
    assert "-"[1..] == "";
  }
}
