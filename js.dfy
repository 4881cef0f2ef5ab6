/**
 * The pieces of JavaScript semantics the components rely on, written out:
 * truthiness of optional strings, `||` on them, `String.prototype.trim`,
 * `split(" ")`/`join`, `toUpperCase`, `Number.prototype.toString` on
 * non-negative integers and the global `parseInt`.
 */
module Js {
  import opened Wrappers

  /** JavaScript truthiness of a possibly-undefined string: `undefined` and `""` are falsy. */
  predicate Truthy(s: Option<string>) {
    s.Some? && s.value != ""
  }

  /** `a || b` on possibly-undefined strings. */
  function Or(a: Option<string>, b: Option<string>): Option<string> {
    if Truthy(a) then a else b
  }

  // ---------------------------------------------------------------------------
  // Whitespace and trim
  // ---------------------------------------------------------------------------

  /** The ECMAScript WhiteSpace and LineTerminator code points (what `trim` and `parseInt` skip). */
  predicate IsWhitespace(c: char) {
    || c == '\t' || c == '\n' || c == '\U{B}' || c == '\U{C}' || c == '\r' || c == ' '
    || c == '\U{A0}' || c == '\U{1680}' || ('\U{2000}' <= c <= '\U{200A}')
    || c == '\U{2028}' || c == '\U{2029}' || c == '\U{202F}' || c == '\U{205F}'
    || c == '\U{3000}' || c == '\U{FEFF}'
  }

  /** Every character of `s` is whitespace (so `s.trim()` is falsy). */
  predicate Blank(s: string) {
    forall i :: 0 <= i < |s| ==> IsWhitespace(s[i])
  }

  /** `String.prototype.trimStart`: the suffix left after dropping leading whitespace. */
  function TrimStart(s: string): (r: string)
    ensures |r| <= |s|
    ensures forall i :: 0 <= i < |s| - |r| ==> IsWhitespace(s[i])
    ensures r != [] ==> !IsWhitespace(r[0])
  {
    if s != [] && IsWhitespace(s[0]) then TrimStart(s[1..]) else s
  }

  /** `String.prototype.trimEnd`: the prefix left after dropping trailing whitespace. */
  function TrimEnd(s: string): (r: string)
    ensures |r| <= |s|
    ensures forall i :: |r| <= i < |s| ==> IsWhitespace(s[i])
    ensures r != [] ==> !IsWhitespace(r[|r| - 1])
  {
    if s != [] && IsWhitespace(s[|s| - 1]) then TrimEnd(s[..|s| - 1]) else s
  }

  /** What `trimStart` leaves is a suffix of its input. */
  lemma {:induction false} TrimStartSuffix(s: string)
    ensures TrimStart(s) == s[|s| - |TrimStart(s)|..]
  {
    if s != [] && IsWhitespace(s[0]) {
      TrimStartSuffix(s[1..]);
      assert s[1..][|s[1..]| - |TrimStart(s)|..] == s[|s| - |TrimStart(s)|..];
    }
  }

  /** What `trimEnd` leaves is a prefix of its input. */
  lemma {:induction false} TrimEndPrefix(s: string)
    ensures TrimEnd(s) == s[..|TrimEnd(s)|]
  {
    if s != [] && IsWhitespace(s[|s| - 1]) {
      TrimEndPrefix(s[..|s| - 1]);
      assert s[..|s| - 1][..|TrimEnd(s)|] == s[..|TrimEnd(s)|];
    }
  }

  /** `String.prototype.trim`. */
  function Trim(s: string): string {
    TrimEnd(TrimStart(s))
  }

  /** `s.trim()` is the slice of `s` left once the leading and trailing whitespace is cut, and it neither starts nor ends with whitespace. */
  lemma TrimSlice(s: string)
    ensures var i, r := |s| - |TrimStart(s)|, Trim(s);
      && i + |r| <= |s| && r == s[i..i + |r|]
      && (forall k :: 0 <= k < i ==> IsWhitespace(s[k]))
      && (forall k :: i + |r| <= k < |s| ==> IsWhitespace(s[k]))
      && (r != [] ==> !IsWhitespace(r[0]) && !IsWhitespace(r[|r| - 1]))
  {
    var t := TrimStart(s);
    var i := |s| - |t|;
    TrimStartSuffix(s);
    TrimEndPrefix(t);
    SliceOfSuffix(s, i, |Trim(s)|);
    TrailingCut(s, t, i);
  }

  lemma SliceOfSuffix(s: string, i: nat, n: nat)
    requires i + n <= |s|
    ensures s[i..][..n] == s[i..i + n]
  {
  }

  lemma TrailingCut(s: string, t: string, i: nat)
    requires i <= |s| && t == s[i..]
    ensures forall k :: i + |TrimEnd(t)| <= k < |s| ==> IsWhitespace(s[k])
  {
    var n := |TrimEnd(t)|;
    forall k | i + n <= k < |s| ensures IsWhitespace(s[k]) {
      assert s[k] == t[k - i];
    }
  }

  /** `s.trim()` is empty exactly when `s` is all whitespace: the "blank input" guard of the forms. */
  lemma {:induction false} TrimEmptyIffBlank(s: string)
    ensures Trim(s) == "" <==> Blank(s)
  {
    var t := TrimStart(s);
    if Blank(s) {
      BlankTrimStart(s);
    } else {
      var k :| 0 <= k < |s| && !IsWhitespace(s[k]);
      assert k >= |s| - |t|;
      assert t != [] && !IsWhitespace(t[0]);
    }
  }

  lemma {:induction false} BlankTrimStart(s: string)
    requires Blank(s)
    ensures TrimStart(s) == ""
  {
    if s != [] {
      BlankTrimStart(s[1..]);
    }
  }

  // ---------------------------------------------------------------------------
  // split(" ") and join(" ")
  // ---------------------------------------------------------------------------

  /** `pieces.join(" ")`. */
  function Join(pieces: seq<string>): string {
    if |pieces| == 0 then ""
    else if |pieces| == 1 then pieces[0]
    else pieces[0] + " " + Join(pieces[1..])
  }

  /** `s.split(" ")`: the maximal space-free pieces between single spaces; `"".split(" ")` is `[""]`. */
  function Split(s: string): (r: seq<string>)
    ensures |r| >= 1
    ensures forall i :: 0 <= i < |r| ==> ' ' !in r[i]
  {
    if s == [] then [""]
    else
      var rest := Split(s[1..]);
      if s[0] == ' ' then [""] + rest
      else [[s[0]] + rest[0]] + rest[1..]
  }

  /** Joining the pieces of a split gives back the string. */
  lemma {:induction false} JoinSplit(s: string)
    ensures Join(Split(s)) == s
  {
    if s != [] {
      var rest := Split(s[1..]);
      JoinSplit(s[1..]);
      if s[0] == ' ' {
        assert Split(s) == [""] + rest;
        assert Join(Split(s)) == "" + " " + Join(rest);
      } else {
        var r := Split(s);
        assert r == [[s[0]] + rest[0]] + rest[1..];
        if |rest| == 1 {
          assert Join(r) == [s[0]] + rest[0];
        } else {
          assert r[1..] == rest[1..];
          assert Join(r) == [s[0]] + rest[0] + " " + Join(rest[1..]);
        }
      }
    }
  }

  /** Splitting a join of space-free pieces gives back the pieces. */
  lemma {:induction false} SplitJoin(pieces: seq<string>)
    requires |pieces| >= 1
    requires forall i :: 0 <= i < |pieces| ==> ' ' !in pieces[i]
    ensures Split(Join(pieces)) == pieces
  {
    if |pieces| == 1 {
      SplitWord(pieces[0]);
    } else {
      SplitJoin(pieces[1..]);
      SplitWordThenSpace(pieces[0], Join(pieces[1..]));
      assert [pieces[0]] + pieces[1..] == pieces;
    }
  }

  lemma {:induction false} SplitWord(w: string)
    requires ' ' !in w
    ensures Split(w) == [w]
  {
    if w != [] {
      assert ' ' !in w[1..] by {
        forall k | 0 <= k < |w| - 1 ensures w[1..][k] != ' ' { assert w[1..][k] == w[k + 1]; }
      }
      SplitWord(w[1..]);
      assert [w[0]] + w[1..] == w;
    }
  }

  lemma {:induction false} SplitWordThenSpace(w: string, t: string)
    requires ' ' !in w
    ensures Split(w + " " + t) == [w] + Split(t)
  {
    if w == [] {
      assert w + " " + t == [' '] + t;
      assert (w + " " + t)[1..] == t;
    } else {
      var s := w + " " + t;
      assert s[1..] == w[1..] + " " + t;
      assert ' ' !in w[1..] by {
        forall k | 0 <= k < |w| - 1 ensures w[1..][k] != ' ' { assert w[1..][k] == w[k + 1]; }
      }
      SplitWordThenSpace(w[1..], t);
      assert [w[0]] + w[1..] == w;
    }
  }

  // ---------------------------------------------------------------------------
  // toUpperCase (ASCII letters)
  // ---------------------------------------------------------------------------

  /** Upper-case of one character; only the ASCII letters `a`..`z` are mapped. */
  function UpperChar(c: char): char {
    if 'a' <= c <= 'z' then (c as int - 32) as char else c
  }

  predicate IsLowerAscii(c: char) {
    'a' <= c <= 'z'
  }

  /** `String.prototype.toUpperCase`, on the ASCII letters. */
  function Upper(s: string): (r: string)
    ensures |r| == |s|
    ensures forall i :: 0 <= i < |s| ==> r[i] == UpperChar(s[i]) && !IsLowerAscii(r[i])
  {
    seq(|s|, i requires 0 <= i < |s| => UpperChar(s[i]))
  }

  lemma UpperAppend(a: string, b: string)
    ensures Upper(a + b) == Upper(a) + Upper(b)
  {
    assert forall i :: 0 <= i < |a + b| ==> Upper(a + b)[i] == (Upper(a) + Upper(b))[i];
  }

  // ---------------------------------------------------------------------------
  // Number.prototype.toString and parseInt
  // ---------------------------------------------------------------------------

  predicate IsDecimalDigit(c: char) {
    '0' <= c <= '9'
  }

  function DigitChar(d: nat): (c: char)
    requires d < 10
    ensures IsDecimalDigit(c)
  {
    ('0' as int + d) as char
  }

  /** The decimal text of a non-negative integer (`n.toString()`, `${n}`). */
  function Decimal(n: nat): (r: string)
    ensures |r| >= 1
    ensures forall i :: 0 <= i < |r| ==> IsDecimalDigit(r[i])
    decreases n
  {
    if n < 10 then [DigitChar(n)] else Decimal(n / 10) + [DigitChar(n % 10)]
  }

  /** The radix argument of `parseInt`: absent (a `0x` prefix selects 16) or an explicit 10. */
  datatype Radix = Unspecified | Ten

  /** Value of `c` as a digit in `base` (2..36), if it is one. */
  function DigitValue(c: char, base: nat): (v: Option<nat>)
    ensures v.Some? ==> v.value < base
  {
    var d :=
      if '0' <= c <= '9' then c as int - '0' as int
      else if 'a' <= c <= 'z' then c as int - 'a' as int + 10
      else if 'A' <= c <= 'Z' then c as int - 'A' as int + 10
      else 36;
    if d < base then Some(d) else None
  }

  /** The longest prefix of `s` made of digits in `base`. */
  function DigitPrefix(s: string, base: nat): (r: string)
    ensures |r| <= |s|
    ensures forall i :: 0 <= i < |r| ==> DigitValue(r[i], base).Some?
    ensures |r| < |s| ==> DigitValue(s[|r|], base).None?
  {
    if s != [] && DigitValue(s[0], base).Some? then [s[0]] + DigitPrefix(s[1..], base) else ""
  }

  /** The number written by a digit string in `base`, most significant digit first. */
  function DigitsValue(d: string, base: nat): nat
    requires forall i :: 0 <= i < |d| ==> DigitValue(d[i], base).Some?
  {
    if d == [] then 0
    else DigitsValue(d[..|d| - 1], base) * base + DigitValue(d[|d| - 1], base).value
  }

  /**
   * The global `parseInt(s)` / `parseInt(s, 10)`; `None` is `NaN`.
   * Leading whitespace is skipped, one sign is accepted, and the longest run
   * of digits after it is read.
   */
  function ParseInt(s: string, radix: Radix): Option<int> {
    var t := TrimStart(s);
    if |t| > 0 && t[0] == '-' then
      match ParseMagnitude(t[1..], radix)
      case Some(v) => Some(0 - v)
      case None => None
    else if |t| > 0 && t[0] == '+' then ParseMagnitude(t[1..], radix)
    else ParseMagnitude(t, radix)
  }

  /** The unsigned part of `parseInt`: without a radix a `0x`/`0X` prefix switches to base 16. */
  function ParseMagnitude(u: string, radix: Radix): Option<nat> {
    if radix == Unspecified && |u| >= 2 && u[0] == '0' && (u[1] == 'x' || u[1] == 'X') then
      ParseDigits(u[2..], 16)
    else
      ParseDigits(u, 10)
  }

  /** The value of the longest digit prefix of `u` in `base`; `None` when there is no digit. */
  function ParseDigits(u: string, base: nat): Option<nat> {
    var d := DigitPrefix(u, base);
    if d == [] then None else Some(DigitsValue(d, base))
  }

  /** The digit run of a digit string followed by a non-digit is that string. */
  lemma {:induction false} DigitPrefixOfDigits(s: string, rest: string)
    requires forall i :: 0 <= i < |s| ==> IsDecimalDigit(s[i])
    requires rest == [] || DigitValue(rest[0], 10).None?
    ensures DigitPrefix(s + rest, 10) == s
  {
    if s != [] {
      assert (s + rest)[1..] == s[1..] + rest;
      DigitPrefixOfDigits(s[1..], rest);
    } else {
      assert s + rest == rest;
    }
  }

  lemma {:induction false} DecimalValue(n: nat)
    ensures DigitsValue(Decimal(n), 10) == n
    decreases n
  {
    if n >= 10 {
      DecimalValue(n / 10);
      var d := Decimal(n);
      assert d[..|d| - 1] == Decimal(n / 10);
    }
  }

  /** `parseInt(n.toString())` and `parseInt(n.toString(), 10)` give `n` back. */
  lemma ParseDecimal(n: nat, radix: Radix)
    ensures ParseInt(Decimal(n), radix) == Some(n)
  {
    assert Decimal(n) + "" == Decimal(n);
    ParseDecimalThen(n, "", radix);
  }

  /** `parseInt` reads back a number's decimal text when what follows cannot continue it (no digit, no `x` after a lone `0`). */
  lemma ParseDecimalThen(n: nat, rest: string, radix: Radix)
    requires rest == [] || (DigitValue(rest[0], 10).None? && rest[0] != 'x' && rest[0] != 'X')
    ensures ParseInt(Decimal(n) + rest, radix) == Some(n)
  {
    var s := Decimal(n) + rest;
    DecimalHasNoPrefix(n, rest);
    DecimalDigits(n, rest);
    assert ParseMagnitude(s, radix) == ParseDigits(s, 10);
  }

  lemma DecimalHasNoPrefix(n: nat, rest: string)
    requires rest == [] || (rest[0] != 'x' && rest[0] != 'X')
    ensures var s := Decimal(n) + rest;
      TrimStart(s) == s && s[0] != '-' && s[0] != '+' && (|s| >= 2 ==> s[1] != 'x' && s[1] != 'X')
  {
    var d := Decimal(n);
    var s := d + rest;
    assert s[0] == d[0] && IsDecimalDigit(s[0]);
    NoLeadingWhitespace(s);
    if |s| >= 2 {
      if |d| >= 2 {
        assert s[1] == d[1] && IsDecimalDigit(s[1]);
      } else {
        assert s[1] == rest[0];
      }
    }
  }

  lemma NoLeadingWhitespace(s: string)
    requires s != [] && IsDecimalDigit(s[0])
    ensures TrimStart(s) == s
  {
    assert !IsWhitespace(s[0]);
  }

  lemma DecimalDigits(n: nat, rest: string)
    requires rest == [] || DigitValue(rest[0], 10).None?
    ensures ParseDigits(Decimal(n) + rest, 10) == Some(n)
  {
    DigitPrefixOfDigits(Decimal(n), rest);
    DecimalValue(n);
  }

  /** A blank string parses to `NaN`. */
  lemma ParseBlank(s: string, radix: Radix)
    requires Blank(s)
    ensures ParseInt(s, radix) == None
  {
    BlankTrimStart(s);
  }
}
