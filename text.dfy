/**
 * String operations the client relies on: printing integers in base 10
 * (str) and base 16 ('%x'), str.strip, right-aligned padding and str.split.
 */
module Text {

  /** The digit character for d, lower-case from 10 on (as '%x' prints it). */
  function DigitChar(d: nat): char
    requires d < 16
  {
    if d < 10 then ('0' as int + d) as char else ('a' as int + d - 10) as char
  }

  function DigitValue(c: char): nat
  {
    if '0' <= c <= '9' then c as int - '0' as int
    else if 'a' <= c <= 'f' then c as int - 'a' as int + 10
    else 0
  }

  /** c is a digit of the given base, in the lower-case alphabet. */
  predicate IsDigit(c: char, base: nat)
  {
    ('0' <= c <= '9' || 'a' <= c <= 'f') && DigitValue(c) < base
  }

  predicate AllDigits(s: string, base: nat)
  {
    forall k :: 0 <= k < |s| ==> IsDigit(s[k], base)
  }

  function Pow(b: nat, k: nat): nat
  {
    if k == 0 then 1 else b * Pow(b, k - 1)
  }

  /** The digits of n in the given base, most significant first, without padding. */
  function Numeral(n: nat, base: nat): string
    requires 2 <= base <= 16
    decreases n
  {
    if n < base then [DigitChar(n)] else Numeral(n / base, base) + [DigitChar(n % base)]
  }

  /** The number a string of digits denotes. */
  function ValueOf(s: string, base: nat): nat
  {
    if s == [] then 0 else ValueOf(s[..|s| - 1], base) * base + DigitValue(s[|s| - 1])
  }

  lemma DigitRoundTrip(d: nat)
    requires d < 16
    ensures DigitValue(DigitChar(d)) == d
    ensures 0 < d ==> DigitChar(d) != '0'
  {
  }

  lemma ValueOfAppend(p: string, c: char, base: nat)
    ensures ValueOf(p + [c], base) == ValueOf(p, base) * base + DigitValue(c)
  {
    assert (p + [c])[..|p + [c]| - 1] == p;
  }

  lemma Recombine(v: int, q: int, b: int, r: int, n: int)
    requires b > 0 && n >= 0 && v == q && q == n / b && r == n % b
    ensures v * b + r == n
  {
  }

  /** The last digit of n is n mod base and the others spell n div base. */
  lemma NumeralStep(n: nat, base: nat)
    requires 2 <= base <= 16 && n >= base
    requires ValueOf(Numeral(n / base, base), base) == n / base
    ensures ValueOf(Numeral(n, base), base) == n
  {
    var q, r := n / base, n % base;
    var p, c := Numeral(q, base), DigitChar(r);
    assert Numeral(n, base) == p + [c];
    ValueOfAppend(p, c, base);
    DigitRoundTrip(r);
    Recombine(ValueOf(p, base), q, base, r, n);
  }

  /** Reading a numeral back gives the number it was printed from. */
  lemma {:induction false} NumeralRoundTrip(n: nat, base: nat)
    requires 2 <= base <= 16
    ensures ValueOf(Numeral(n, base), base) == n
    decreases n
  {
    if n < base {
      DigitRoundTrip(n);
      ValueOfAppend([], DigitChar(n), base);
      assert [] + [DigitChar(n)] == Numeral(n, base);
    } else {
      NumeralRoundTrip(n / base, base);
      NumeralStep(n, base);
    }
  }

  /** A numeral is a non-empty run of digits of its base, with no leading zero unless it is "0". */
  lemma {:induction false} NumeralShape(n: nat, base: nat)
    requires 2 <= base <= 16
    ensures |Numeral(n, base)| >= 1 && AllDigits(Numeral(n, base), base)
    ensures n > 0 ==> Numeral(n, base)[0] != '0'
    decreases n
  {
    if n < base {
      DigitRoundTrip(n);
    } else {
      NumeralShape(n / base, base);
      DigitRoundTrip(n % base);
      assert Numeral(n, base) == Numeral(n / base, base) + [DigitChar(n % base)];
    }
  }

  lemma DivBelow(n: nat, b: nat, p: nat)
    requires b > 0 && n < b * p
    ensures n / b < p
  {
  }

  lemma LengthStep(n: nat, base: nat, k: nat)
    requires 2 <= base && 1 <= k && base <= n < Pow(base, k)
    ensures 2 <= k && n / base < Pow(base, k - 1)
  {
    assert Pow(base, 1) == base;
    DivBelow(n, base, Pow(base, k - 1));
  }

  /** A number below base^k has at most k digits. */
  lemma {:induction false} NumeralLength(n: nat, base: nat, k: nat)
    requires 2 <= base <= 16 && 1 <= k && n < Pow(base, k)
    ensures |Numeral(n, base)| <= k
    decreases n
  {
    if n >= base {
      LengthStep(n, base, k);
      NumeralLength(n / base, base, k - 1);
      assert |Numeral(n, base)| == |Numeral(n / base, base)| + 1;
    }
  }

  /** str() of a Python int. */
  function Decimal(i: int): string
  {
    if i < 0 then "-" + Numeral(-i, 10) else Numeral(i, 10)
  }

  /** The longest run of decimal digits at the front of s. */
  function LeadingDigits(s: string): (d: string)
    ensures |d| <= |s| && d == s[..|d|] && AllDigits(d, 10)
    ensures |d| < |s| ==> !IsDigit(s[|d|], 10)
  {
    if s != [] && IsDigit(s[0], 10) then [s[0]] + LeadingDigits(s[1..]) else []
  }

  /** A digit run followed by a non-digit is read back exactly. */
  lemma {:induction false} LeadingDigitsOf(d: string, t: string)
    requires AllDigits(d, 10)
    requires t == [] || !IsDigit(t[0], 10)
    ensures LeadingDigits(d + t) == d
  {
    if d != [] {
      assert (d + t)[1..] == d[1..] + t;
      LeadingDigitsOf(d[1..], t);
    } else {
      assert d + t == t;
    }
  }

  /** The characters str.strip() removes (str.isspace). */
  predicate IsSpace(c: char)
  {
    || ('\t' <= c <= '\r')
    || ('\U{1C}' <= c <= ' ')
    || c == '\U{85}' || c == '\U{A0}' || c == '\U{1680}'
    || ('\U{2000}' <= c <= '\U{200A}')
    || c == '\U{2028}' || c == '\U{2029}' || c == '\U{202F}' || c == '\U{205F}' || c == '\U{3000}'
  }

  function StripLeft(s: string): string
  {
    if s != [] && IsSpace(s[0]) then StripLeft(s[1..]) else s
  }

  function StripRight(s: string): string
  {
    if s != [] && IsSpace(s[|s| - 1]) then StripRight(s[..|s| - 1]) else s
  }

  /** str.strip(): whitespace removed from both ends. */
  function Strip(s: string): string
  {
    StripRight(StripLeft(s))
  }

  function Spaces(k: nat): (r: string)
    ensures |r| == k && forall i :: 0 <= i < k ==> r[i] == ' '
  {
    seq(k, _ => ' ')
  }

  /** Right alignment in a field of the given width, as '%32x' pads. */
  function PadLeft(s: string, width: nat): string
  {
    if |s| < width then Spaces(width - |s|) + s else s
  }

  lemma {:induction false} StripLeftSpaces(s: string, k: nat)
    requires s != [] && !IsSpace(s[0])
    ensures StripLeft(Spaces(k) + s) == s
    decreases k
  {
    if k == 0 {
      assert Spaces(0) + s == s;
    } else {
      assert (Spaces(k) + s)[0] == ' ';
      assert (Spaces(k) + s)[1..] == Spaces(k - 1) + s;
      StripLeftSpaces(s, k - 1);
    }
  }

  /** Stripping padded text gives the text back when it does not itself start or end with whitespace. */
  lemma StripPadded(s: string, k: nat)
    requires s != [] && !IsSpace(s[0]) && !IsSpace(s[|s| - 1])
    ensures Strip(Spaces(k) + s) == s
  {
    StripLeftSpaces(s, k);
  }

  /** str.split(sep) for a one-character separator. */
  function Split(s: string, sep: char): (parts: seq<string>)
    ensures |parts| >= 1
  {
    if s == [] then [""]
    else
      var rest := Split(s[1..], sep);
      if s[0] == sep then [""] + rest else [[s[0]] + rest[0]] + rest[1..]
  }

  /** Text without the separator is one part. */
  lemma {:induction false} SplitNone(x: string, sep: char)
    requires sep !in x
    ensures Split(x, sep) == [x]
  {
    if x != [] {
      assert x[0] != sep && sep !in x[1..];
      SplitNone(x[1..], sep);
      assert [x[0]] + x[1..] == x;
    }
  }

  /** Appending a separator and a separator-free part adds exactly that part. */
  lemma {:induction false} SplitAppend(s: string, sep: char, x: string)
    requires sep !in x
    ensures Split(s + [sep] + x, sep) == Split(s, sep) + [x]
  {
    if s == [] {
      assert s + [sep] + x == [sep] + x;
      assert ([sep] + x)[1..] == x;
      SplitNone(x, sep);
    } else {
      assert (s + [sep] + x)[1..] == s[1..] + [sep] + x;
      SplitAppend(s[1..], sep, x);
    }
  }

  /** sep.join(parts), for a non-empty list of parts. */
  function Join(parts: seq<string>, sep: char): string
    requires |parts| >= 1
  {
    if |parts| == 1 then parts[0] else Join(parts[..|parts| - 1], sep) + [sep] + parts[|parts| - 1]
  }

  /** Splitting a join of separator-free parts gives the parts back. */
  lemma {:induction false} SplitJoin(parts: seq<string>, sep: char)
    requires |parts| >= 1
    requires forall k :: 0 <= k < |parts| ==> sep !in parts[k]
    ensures Split(Join(parts, sep), sep) == parts
  {
    if |parts| == 1 {
      SplitNone(parts[0], sep);
    } else {
      var init := parts[..|parts| - 1];
      SplitJoin(init, sep);
      SplitAppend(Join(init, sep), sep, parts[|parts| - 1]);
      assert init + [parts[|parts| - 1]] == parts;
    }
  }
}
