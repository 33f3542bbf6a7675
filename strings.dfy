/**
 * The JavaScript string operations the bot relies on, over `string` (a sequence of
 * characters): `split` and `join` on a one-character separator, `trim() !== ""`,
 * the regular expressions `\s` and `\D`, `parseInt` on a run of decimal digits and
 * the decimal text of a number as a template literal prints it.
 */
module Strings {

  /** ECMAScript WhiteSpace and LineTerminator: what `trim` strips and `\s` matches. */
  predicate IsWhitespace(c: char) {
    || c == '\t' || c == '\n' || c == '\U{000B}' || c == '\U{000C}' || c == '\r'
    || c == ' ' || c == '\U{00A0}' || c == '\U{1680}'
    || ('\U{2000}' <= c <= '\U{200A}')
    || c == '\U{2028}' || c == '\U{2029}' || c == '\U{202F}' || c == '\U{205F}'
    || c == '\U{3000}' || c == '\U{FEFF}'
  }

  /** `s.trim()`: the text without its leading and trailing whitespace. */
  function Trim(s: string): (r: string)
    ensures |r| <= |s|
    ensures r != "" ==> !IsWhitespace(r[0]) && !IsWhitespace(r[|r| - 1])
    ensures r == "" <==> forall i :: 0 <= i < |s| ==> IsWhitespace(s[i])
    decreases |s|
  {
    if s == [] then s
    else if IsWhitespace(s[0]) then Trim(s[1..])
    else if IsWhitespace(s[|s| - 1]) then Trim(s[..|s| - 1])
    else s
  }

  /** `line.trim() === ""`: the line holds nothing but whitespace. */
  predicate IsBlank(line: string) {
    forall i :: 0 <= i < |line| ==> IsWhitespace(line[i])
  }

  /** A line is blank exactly when trimming leaves nothing of it. */
  lemma BlankIffTrimmedEmpty(line: string)
    ensures IsBlank(line) <==> Trim(line) == ""
  {
  }

  /** What `\d` matches (without the `u` flag): an ASCII decimal digit. */
  predicate IsDigit(c: char) {
    '0' <= c <= '9'
  }

  predicate AllDigits(s: string) {
    forall i :: 0 <= i < |s| ==> IsDigit(s[i])
  }

  predicate NoDigits(s: string) {
    forall i :: 0 <= i < |s| ==> !IsDigit(s[i])
  }

  // ---------------------------------------------------------------------------
  // split / join

  /**
   * `s.split(sep)` for a one-character separator: the maximal separator-free
   * pieces between separators, so one more piece than there are separators.
   */
  function Split(s: string, sep: char): (parts: seq<string>)
    ensures |parts| >= 1
    ensures forall i :: 0 <= i < |parts| ==> sep !in parts[i]
    decreases |s|
  {
    if s == [] then [""]
    else
      var rest := Split(s[1..], sep);
      if s[0] == sep then [""] + rest
      else [[s[0]] + rest[0]] + rest[1..]
  }

  /** `parts.join(sep)`: the pieces with one separator between neighbours. */
  function Join(parts: seq<string>, sep: char): (s: string)
    ensures |parts| >= 1 ==> parts[0] <= s
    ensures |parts| >= 2 ==> |s| > |parts[0]| && s[|parts[0]|] == sep
  {
    if |parts| == 0 then ""
    else if |parts| == 1 then parts[0]
    else parts[0] + [sep] + Join(parts[1..], sep)
  }

  lemma JoinCons(x: string, parts: seq<string>, sep: char)
    requires |parts| >= 1
    ensures Join([x] + parts, sep) == x + [sep] + Join(parts, sep)
  {
    assert ([x] + parts)[1..] == parts;
  }

  /** Extending the first piece extends the joined text at the front. */
  lemma JoinExtendFirst(y: string, parts: seq<string>, sep: char)
    requires |parts| >= 1
    ensures Join([y + parts[0]] + parts[1..], sep) == y + Join(parts, sep)
  {
    if |parts| >= 2 {
      JoinCons(y + parts[0], parts[1..], sep);
    }
  }

  /** Joining the pieces of a split gives the text back. */
  lemma {:induction false} JoinSplit(s: string, sep: char)
    ensures Join(Split(s, sep), sep) == s
    decreases |s|
  {
    if s != [] {
      var rest := Split(s[1..], sep);
      JoinSplit(s[1..], sep);
      if s[0] == sep {
        JoinCons("", rest, sep);
      } else {
        JoinExtendFirst([s[0]], rest, sep);
      }
    }
  }

  lemma {:induction false} SplitFree(s: string, sep: char)
    requires sep !in s
    ensures Split(s, sep) == [s]
    decreases |s|
  {
    if s != [] {
      SplitFree(s[1..], sep);
      assert s[0] != sep;
      assert [s[0]] + s[1..] == s;
    }
  }

  lemma {:induction false} SplitAfterFree(a: string, t: string, sep: char)
    requires sep !in a
    ensures Split(a + [sep] + t, sep) == [a] + Split(t, sep)
    decreases |a|
  {
    var s := a + [sep] + t;
    if a == [] {
      assert s[0] == sep && s[1..] == t;
    } else {
      assert s[0] == a[0] && s[1..] == a[1..] + [sep] + t;
      SplitAfterFree(a[1..], t, sep);
      assert [a[0]] + a[1..] == a;
    }
  }

  /** Splitting a join of separator-free pieces gives the pieces back. */
  lemma {:induction false} SplitJoin(parts: seq<string>, sep: char)
    requires |parts| >= 1
    requires forall i :: 0 <= i < |parts| ==> sep !in parts[i]
    ensures Split(Join(parts, sep), sep) == parts
    decreases |parts|
  {
    if |parts| == 1 {
      SplitFree(parts[0], sep);
    } else {
      SplitJoin(parts[1..], sep);
      SplitAfterFree(parts[0], Join(parts[1..], sep), sep);
      assert [parts[0]] + parts[1..] == parts;
    }
  }

  // ---------------------------------------------------------------------------
  // text.replace(/\D/g, '') and parseInt

  /** `s.replace(/\D/g, '')`: the digits of `s`, in order. */
  function KeepDigits(s: string): (ds: string)
    ensures AllDigits(ds)
    ensures |ds| <= |s|
  {
    if s == [] then ""
    else (if IsDigit(s[0]) then [s[0]] else []) + KeepDigits(s[1..])
  }

  lemma {:induction false} KeepDigitsAppend(a: string, b: string)
    ensures KeepDigits(a + b) == KeepDigits(a) + KeepDigits(b)
    decreases |a|
  {
    if a != [] {
      assert (a + b)[0] == a[0] && (a + b)[1..] == a[1..] + b;
      KeepDigitsAppend(a[1..], b);
    } else {
      assert a + b == b;
    }
  }

  /** Removing non-digits is the identity on a digit run, hence idempotent. */
  lemma {:induction false} KeepDigitsOfDigits(ds: string)
    requires AllDigits(ds)
    ensures KeepDigits(ds) == ds
    decreases |ds|
  {
    if ds != [] {
      KeepDigitsOfDigits(ds[1..]);
    }
  }

  lemma {:induction false} KeepDigitsOfNoise(s: string)
    requires NoDigits(s)
    ensures KeepDigits(s) == ""
    decreases |s|
  {
    if s != [] {
      KeepDigitsOfNoise(s[1..]);
    }
  }

  /** A digit run between two stretches of non-digits is all that survives. */
  lemma KeepDigitsBetweenNoise(prefix: string, ds: string, suffix: string)
    requires NoDigits(prefix) && AllDigits(ds) && NoDigits(suffix)
    ensures KeepDigits(prefix + ds + suffix) == ds
  {
    KeepDigitsAppend(prefix + ds, suffix);
    KeepDigitsAppend(prefix, ds);
    KeepDigitsOfNoise(prefix);
    KeepDigitsOfNoise(suffix);
    KeepDigitsOfDigits(ds);
  }

  lemma KeepDigitsIdempotent(s: string)
    ensures KeepDigits(KeepDigits(s)) == KeepDigits(s)
  {
    KeepDigitsOfDigits(KeepDigits(s));
  }

  function DigitValue(c: char): (d: nat)
    requires IsDigit(c)
    ensures d < 10
  {
    (c as int) - ('0' as int)
  }

  function DigitChar(d: nat): (c: char)
    requires d < 10
    ensures IsDigit(c) && DigitValue(c) == d
  {
    (('0' as int) + d) as char
  }

  function Pow10(k: nat): (p: nat)
    ensures p >= 1
  {
    if k == 0 then 1 else 10 * Pow10(k - 1)
  }

  /**
   * `parseInt(ds)` of a non-empty digit run (base 10, leading zeros allowed); 0 for "".
   * A run of k digits denotes less than 10^k, and at least 10^(k-1) when it does
   * not start with '0'.
   */
  function DecimalValue(ds: string): (value: nat)
    requires AllDigits(ds)
    ensures value < Pow10(|ds|)
    ensures |ds| >= 1 && ds[0] != '0' ==> Pow10(|ds| - 1) <= value
  {
    if ds == [] then 0
    else DecimalValue(ds[..|ds| - 1]) * 10 + DigitValue(ds[|ds| - 1])
  }

  /** A digit run denotes zero exactly when every digit in it is '0'. */
  lemma {:induction false} DecimalValueZero(ds: string)
    requires AllDigits(ds)
    ensures DecimalValue(ds) == 0 <==> forall i :: 0 <= i < |ds| ==> ds[i] == '0'
    decreases |ds|
  {
    if ds != [] {
      var init := ds[..|ds| - 1];
      DecimalValueZero(init);
      assert forall i :: 0 <= i < |init| ==> init[i] == ds[i];
    }
  }

  /** The decimal text of `n`, as `${n}` prints a non-negative integer. */
  function Numeral(n: nat): (s: string)
    ensures |s| >= 1 && AllDigits(s)
    ensures s[0] == '0' ==> n == 0
  {
    if n < 10 then [DigitChar(n)]
    else Numeral(n / 10) + [DigitChar(n % 10)]
  }

  /** Reading back the printed number gives the number. */
  lemma {:induction false} DecimalValueOfNumeral(n: nat)
    ensures DecimalValue(Numeral(n)) == n
  {
    var s := Numeral(n);
    if n < 10 {
      assert s[..0] == "";
    } else {
      DecimalValueOfNumeral(n / 10);
      assert s[..|s| - 1] == Numeral(n / 10);
    }
  }

  /** A single digit denotes its own value. */
  lemma DecimalValueDigit(c: char)
    requires IsDigit(c)
    ensures DecimalValue([c]) == DigitValue(c)
  {
    assert [c][..0] == "";
  }

  lemma ShiftDigit(va: nat, p: nat, vi: nat, d: nat)
    ensures (va * p + vi) * 10 + d == va * (10 * p) + (vi * 10 + d)
  {
  }

  /** Positional notation: the digits of `a` count `10^|b|` times, followed by the value of `b`. */
  lemma {:induction false} DecimalValueAppend(a: string, b: string)
    requires AllDigits(a) && AllDigits(b)
    ensures DecimalValue(a + b) == DecimalValue(a) * Pow10(|b|) + DecimalValue(b)
    decreases |b|
  {
    var ab := a + b;
    if b == [] {
      assert ab == a;
    } else {
      var init := b[..|b| - 1];
      var d := DigitValue(b[|b| - 1]);
      assert ab[..|ab| - 1] == a + init && ab[|ab| - 1] == b[|b| - 1];
      assert DecimalValue(ab) == DecimalValue(a + init) * 10 + d;
      DecimalValueAppend(a, init);
      ShiftDigit(DecimalValue(a), Pow10(|init|), DecimalValue(init), d);
    }
  }

  /** `parseInt` ignores leading zeros: "07" denotes 7. */
  lemma DecimalValueLeadingZero(ds: string)
    requires AllDigits(ds)
    ensures DecimalValue("0" + ds) == DecimalValue(ds)
  {
    DecimalValueAppend("0", ds);
    DecimalValueDigit('0');
  }

  /** Printing the value of a digit run without a leading zero gives the run back. */
  lemma {:induction false} NumeralOfDecimalValue(ds: string)
    requires |ds| >= 1 && AllDigits(ds) && (ds[0] != '0' || |ds| == 1)
    ensures Numeral(DecimalValue(ds)) == ds
    decreases |ds|
  {
    var last := ds[|ds| - 1];
    assert DigitChar(DigitValue(last)) == last;
    if |ds| == 1 {
      DecimalValueDigit(last);
      assert ds == [last];
    } else {
      var init := ds[..|ds| - 1];
      assert init[0] == ds[0];
      NumeralOfDecimalValue(init);
      var v := DecimalValue(ds);
      assert v == DecimalValue(init) * 10 + DigitValue(last);
      assert v / 10 == DecimalValue(init) && v % 10 == DigitValue(last);
      assert ds == init + [last];
    }
  }

  // ---------------------------------------------------------------------------
  // text.replace(/\s/g, '_')

  /** `s.replace(/\s/g, '_')`: every whitespace character becomes an underscore. */
  function Underscored(s: string): (r: string)
    ensures |r| == |s|
    ensures forall i :: 0 <= i < |s| ==> r[i] == (if IsWhitespace(s[i]) then '_' else s[i])
    ensures forall i :: 0 <= i < |r| ==> !IsWhitespace(r[i])
  {
    if s == [] then ""
    else [if IsWhitespace(s[0]) then '_' else s[0]] + Underscored(s[1..])
  }

}
