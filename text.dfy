/** String helpers the pages rely on: JavaScript's `String.prototype.trim`,
    the decimal rendering of an integer amount inside a template literal, and
    the sign and leading digits that `parseFloat` reads. */
module Text {

  import opened Options

  /** The characters `trim` and `parseFloat` skip: ECMAScript WhiteSpace and
      LineTerminator code points. */
  predicate IsWhitespace(c: char) {
    c in {'\t', '\n', '\U{000B}', '\U{000C}', '\r', ' ', '\U{00A0}', '\U{1680}',
          '\U{2000}', '\U{2001}', '\U{2002}', '\U{2003}', '\U{2004}', '\U{2005}',
          '\U{2006}', '\U{2007}', '\U{2008}', '\U{2009}', '\U{200A}', '\U{2028}',
          '\U{2029}', '\U{202F}', '\U{205F}', '\U{3000}', '\U{FEFF}'}
  }

  predicate AllWhitespace(s: string) {
    forall i :: 0 <= i < |s| ==> IsWhitespace(s[i])
  }

  /** Length of the leading whitespace run of `s`. */
  function LeadingSpace(s: string): (k: nat)
    ensures k <= |s|
    ensures forall i :: 0 <= i < k ==> IsWhitespace(s[i])
    ensures k < |s| ==> !IsWhitespace(s[k])
  {
    if s != [] && IsWhitespace(s[0]) then 1 + LeadingSpace(s[1..]) else 0
  }

  /** Length of `s` once its trailing whitespace run is removed. */
  function ContentEnd(s: string): (k: nat)
    ensures k <= |s|
    ensures forall i :: k <= i < |s| ==> IsWhitespace(s[i])
    ensures k > 0 ==> !IsWhitespace(s[k - 1])
  {
    if s != [] && IsWhitespace(s[|s| - 1]) then ContentEnd(s[..|s| - 1]) else |s|
  }

  function TrimStart(s: string): string {
    s[LeadingSpace(s)..]
  }

  /** `s.trim()`: the input without its leading and trailing whitespace. The
      result is empty exactly when the input is all whitespace, and otherwise
      starts and ends with a non-whitespace character. */
  function Trim(s: string): (r: string)
    ensures exists a, b :: 0 <= a <= b <= |s| && r == s[a..b] && AllWhitespace(s[..a]) && AllWhitespace(s[b..])
    ensures |r| <= |s|
    ensures r == [] <==> AllWhitespace(s)
    ensures r != [] ==> !IsWhitespace(r[0]) && !IsWhitespace(r[|r| - 1])
  {
    var a := LeadingSpace(s);
    var t := TrimStart(s);
    var b := a + ContentEnd(t);
    assert t[..ContentEnd(t)] == s[a..b];
    assert forall i :: 0 <= i < |s[b..]| ==> s[b..][i] == t[ContentEnd(t) + i];
    assert AllWhitespace(s[..a]) && AllWhitespace(s[b..]);
    t[..ContentEnd(t)]
  }

  /** Trimming leaves a string with no surrounding whitespace unchanged. */
  lemma TrimKeepsTrimmed(s: string)
    requires s != [] ==> !IsWhitespace(s[0]) && !IsWhitespace(s[|s| - 1])
    ensures Trim(s) == s
  {
    assert LeadingSpace(s) == 0;
    assert TrimStart(s) == s;
  }

  /** Trimming twice is trimming once. */
  lemma TrimIdempotent(s: string)
    ensures Trim(Trim(s)) == Trim(s)
  {
    TrimKeepsTrimmed(Trim(s));
  }

  // ---------------------------------------------------------------------
  // Integer rendering, as `${n}` prints a whole number
  // ---------------------------------------------------------------------

  predicate IsDigit(c: char) {
    '0' <= c <= '9'
  }

  function DigitChar(d: nat): (c: char)
    requires d < 10
    ensures IsDigit(c) && DigitValue(c) == d
  {
    (d + '0' as int) as char
  }

  /** Decimal digits of `n`, most significant first, with no leading zero. */
  function ShowNat(n: nat): (r: string)
    ensures r != []
    ensures forall i :: 0 <= i < |r| ==> IsDigit(r[i])
    ensures |r| > 1 ==> r[0] != '0'
    decreases n
  {
    if n < 10 then [DigitChar(n)] else ShowNat(n / 10) + [DigitChar(n % 10)]
  }

  /** `${n}` for a whole number: a minus sign before the digits when negative. */
  function Show(n: int): (r: string)
    ensures r != [] && !IsWhitespace(r[0])
    ensures n < 0 <==> r[0] == '-'
  {
    if n < 0 then "-" + ShowNat(-n) else ShowNat(n)
  }

  // ---------------------------------------------------------------------
  // parseFloat: the sign and the leading digits
  // ---------------------------------------------------------------------

  /** Length of the leading run of decimal digits. */
  function DigitRun(s: string): (k: nat)
    ensures k <= |s|
    ensures forall i :: 0 <= i < k ==> IsDigit(s[i])
    ensures k < |s| ==> !IsDigit(s[k])
  {
    if s != [] && IsDigit(s[0]) then 1 + DigitRun(s[1..]) else 0
  }

  function DigitValue(c: char): (d: nat)
    requires IsDigit(c)
    ensures d < 10
  {
    c as int - '0' as int
  }

  /** Value of a string of decimal digits. */
  function DigitsValue(s: string): nat
    requires forall i :: 0 <= i < |s| ==> IsDigit(s[i])
  {
    if s == [] then 0
    else DigitsValue(s[..|s| - 1]) * 10 + DigitValue(s[|s| - 1])
  }

  /** The unsigned digits at the head of `t`, if there are any. */
  function LeadingDigits(t: string): Option<nat> {
    var d := t[..DigitRun(t)];
    if d == [] then None else Some(DigitsValue(d))
  }

  /** The sign and leading digits that `parseFloat(s)` reads: leading
      whitespace is skipped, an optional sign is read, then the longest run
      of digits; no digits gives None (JavaScript's NaN). Anything after the
      digits is ignored, as `parseFloat("12abc")` is 12; a fraction or an
      exponent is ignored too, so "1e3" reads as 1. */
  function ParseNumber(s: string): (r: Option<int>)
    ensures AllWhitespace(s) ==> r == None
    ensures var t := TrimStart(s);
      r.Some? <==> (t != [] && IsDigit(t[0])) || (|t| > 1 && (t[0] == '-' || t[0] == '+') && IsDigit(t[1]))
    ensures r.Some? && r.value < 0 ==> TrimStart(s)[0] == '-'
  {
    ReadSigned(TrimStart(s))
  }

  /** The number at the head of text whose leading whitespace is already
      skipped: an optional sign, then the leading digits. */
  function ReadSigned(t: string): Option<int> {
    if t != [] && (t[0] == '-' || t[0] == '+') then
      match LeadingDigits(t[1..])
      case None => None
      case Some(v) => Some(if t[0] == '-' then -(v as int) else v)
    else
      match LeadingDigits(t)
      case None => None
      case Some(v) => Some(v)
  }

  lemma {:induction false} ShowNatValue(n: nat)
    ensures DigitsValue(ShowNat(n)) == n
    decreases n
  {
    var r := ShowNat(n);
    if n >= 10 {
      ShowNatValue(n / 10);
      assert r[..|r| - 1] == ShowNat(n / 10);
    }
  }

  /** A run of digits followed by anything that does not start with a digit
      is read up to its end. */
  lemma {:induction false} DigitRunPrefix(d: string, rest: string)
    requires forall i :: 0 <= i < |d| ==> IsDigit(d[i])
    requires rest == [] || !IsDigit(rest[0])
    ensures DigitRun(d + rest) == |d|
    decreases |d|
  {
    if d == [] {
      assert d + rest == rest;
    } else {
      assert (d + rest)[1..] == d[1..] + rest;
      DigitRunPrefix(d[1..], rest);
    }
  }

  /** What `${n}` prints reads back as `n` by `parseFloat`, even with text
      after it that does not continue the digits, as `parseFloat("12 kg")`
      is 12. */
  lemma ParseShowThen(n: int, rest: string)
    requires rest == [] || !IsDigit(rest[0])
    ensures ParseNumber(Show(n) + rest) == Some(n)
  {
    var r := Show(n);
    var text := r + rest;
    assert text[0] == r[0];
    assert LeadingSpace(text) == 0;
    assert TrimStart(text) == text;
    var m: nat := if n < 0 then -n else n;
    var digits := ShowNat(m);
    ShowNatValue(m);
    DigitRunPrefix(digits, rest);
    if n < 0 {
      assert text[1..] == digits + rest;
      assert (digits + rest)[..|digits|] == digits;
    } else {
      assert text == digits + rest;
      assert (digits + rest)[..|digits|] == digits;
    }
  }

  /** Reading back a rendered whole number gives the number. */
  lemma ParseShow(n: int)
    ensures ParseNumber(Show(n)) == Some(n)
  {
    ParseShowThen(n, []);
    assert Show(n) + [] == Show(n);
  }

  /** Leading whitespace is skipped up to the first other character. */
  lemma {:induction false} SkipSpace(w: string, t: string)
    requires AllWhitespace(w)
    requires t == [] || !IsWhitespace(t[0])
    ensures TrimStart(w + t) == t
    decreases |w|
  {
    if w == [] {
      assert w + t == t;
    } else {
      assert (w + t)[1..] == w[1..] + t;
      SkipSpace(w[1..], t);
    }
  }

  /** The value `parseFloat` reads from unsigned digits: after any
      whitespace, a run of digits ended by a non-digit or the end reads as
      the digits' decimal value. With `ParseSkipsSpace`, `ParsePlus`,
      `ParseMinus` and `ParseLeadingZero` this fixes the value of every input
      that is read at all. */
  lemma ParseDigits(w: string, d: string, rest: string)
    requires AllWhitespace(w)
    requires d != [] && forall i :: 0 <= i < |d| ==> IsDigit(d[i])
    requires rest == [] || !IsDigit(rest[0])
    ensures ParseNumber(w + (d + rest)) == Some(DigitsValue(d) as int)
  {
    var u := d + rest;
    assert u != [] && IsDigit(u[0]) && LeadingDigits(u) == Some(DigitsValue(d)) by {
      ReadDigits(d, rest);
    }
    NotSpace(u[0]);
    ParseAfterSpace(w, u);
  }

  /** Reading text that starts with something other than whitespace, after
      whitespace, reads that text. */
  lemma ParseAfterSpace(w: string, t: string)
    requires AllWhitespace(w)
    requires t != [] && !IsWhitespace(t[0])
    ensures TrimStart(w + t) == t
    ensures ParseNumber(w + t) == ReadSigned(t)
  {
    SkipSpace(w, t);
  }

  /** A sign or a digit is not whitespace. */
  lemma NotSpace(c: char)
    requires c == '-' || c == '+' || IsDigit(c)
    ensures !IsWhitespace(c)
  {
  }

  /** After a sign, the leading digits are read, negated after a minus. */
  lemma SignedDigits(sign: char, u: string, v: nat)
    requires sign == '-' || sign == '+'
    requires LeadingDigits(u) == Some(v)
    ensures ReadSigned([sign] + u) == Some(if sign == '-' then -(v as int) else v)
  {
    assert ([sign] + u)[1..] == u;
  }

  /** The digits at the head of a digit run ended by a non-digit are the run. */
  lemma ReadDigits(d: string, rest: string)
    requires d != [] && forall i :: 0 <= i < |d| ==> IsDigit(d[i])
    requires rest == [] || !IsDigit(rest[0])
    ensures LeadingDigits(d + rest) == Some(DigitsValue(d))
  {
    DigitRunPrefix(d, rest);
    assert (d + rest)[..|d|] == d;
  }

  /** A leading zero does not change a run of digits' value. */
  lemma {:induction false} LeadingZeroValue(d: string)
    requires forall i :: 0 <= i < |d| ==> IsDigit(d[i])
    ensures DigitsValue(['0'] + d) == DigitsValue(d)
    decreases |d|
  {
    var z := ['0'] + d;
    if d == [] {
      assert z[..0] == [];
    } else {
      assert z[..|z| - 1] == ['0'] + d[..|d| - 1];
      LeadingZeroValue(d[..|d| - 1]);
    }
  }

  /** Reading skips leading whitespace: " 7" is read as "7" is. */
  lemma ParseSkipsSpace(s: string)
    ensures ParseNumber(s) == ParseNumber(TrimStart(s))
  {
    var t := TrimStart(s);
    var k := LeadingSpace(s);
    assert s == s[..k] + t;
    SkipSpace(s[..k], t);
  }

  /** A leading zero is ignored: "07" is read as 7. */
  lemma ParseLeadingZero(u: string)
    requires u != [] && IsDigit(u[0])
    ensures ParseNumber(u).Some?
    ensures ParseNumber(['0'] + u) == ParseNumber(u)
  {
    var v := LeadingDigits(u).value;
    ParseUnsigned(u, v);
    LeadingZeroDigits(u);
    ParseUnsigned(['0'] + u, v);
  }

  /** A '+' is ignored: "+7" is read as 7. */
  lemma ParsePlus(u: string)
    requires u != [] && IsDigit(u[0])
    ensures ParseNumber(['+'] + u) == ParseNumber(u)
  {
    var v := LeadingDigits(u).value;
    ParseUnsigned(u, v);
    SignedDigits('+', u, v);
    ParseTrimmed(['+'] + u);
  }

  /** A '-' negates what follows: text whose leading digits are worth `v`
      reads as `v`, and after a minus as `-v`, so "-7" is read as -7. */
  lemma ParseMinus(u: string, v: nat)
    requires u != [] && IsDigit(u[0]) && LeadingDigits(u) == Some(v)
    ensures ParseNumber(u) == Some(v as int)
    ensures ParseNumber(['-'] + u) == Some(-(v as int))
  {
    ParseUnsigned(u, v);
    var t := ['-'] + u;
    NotSpace('-');
    assert LeadingSpace(t) == 0;
    assert TrimStart(t) == t;
    assert t[1..] == u;
  }

  /** Text that starts with something other than whitespace is read as it
      stands. */
  lemma ParseTrimmed(t: string)
    requires t != [] && (t[0] == '-' || t[0] == '+' || IsDigit(t[0]))
    ensures ParseNumber(t) == ReadSigned(t)
  {
    NotSpace(t[0]);
    assert LeadingSpace(t) == 0;
  }

  /** Text that starts with a digit reads as its leading digits. */
  lemma ParseUnsigned(u: string, v: nat)
    requires u != [] && IsDigit(u[0]) && LeadingDigits(u) == Some(v)
    ensures ParseNumber(u) == Some(v as int)
  {
    ParseTrimmed(u);
  }

  /** A zero before a digit does not change the leading digits' value. */
  lemma LeadingZeroDigits(u: string)
    requires u != [] && IsDigit(u[0])
    ensures LeadingDigits(u).Some? && LeadingDigits(['0'] + u) == LeadingDigits(u)
  {
    var z := ['0'] + u;
    var k := DigitRun(u);
    assert z[1..] == u;
    assert DigitRun(z) == k + 1;
    assert z[..k + 1] == ['0'] + u[..k];
    LeadingZeroValue(u[..k]);
  }
}
