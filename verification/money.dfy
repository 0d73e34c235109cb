/** Amount text: integers rendered with a comma every three digits
    (Python's `f"{n:,}"`), and parsed back by deleting the commas and
    calling `int`. */
module Money {
  import opened Wrappers

  // ---------------------------------------------------------------------
  // Decimal digits
  // ---------------------------------------------------------------------

  predicate IsDigit(c: char) {
    '0' <= c <= '9'
  }

  predicate AllDigits(s: string) {
    forall i :: 0 <= i < |s| ==> IsDigit(s[i])
  }

  function DigitChar(d: nat): (c: char)
    requires d < 10
    ensures IsDigit(c) && c as int - '0' as int == d
  {
    ('0' as int + d) as char
  }

  function DigitValue(c: char): nat
    requires IsDigit(c)
  {
    c as int - '0' as int
  }

  /** The value of a string of decimal digits, read left to right. */
  function DigitsValue(s: string): nat
    requires AllDigits(s)
  {
    if s == [] then 0 else DigitsValue(s[..|s| - 1]) * 10 + DigitValue(s[|s| - 1])
  }

  /** Decimal digits of `n` without leading zeros (`str(n)` for `n >= 0`). */
  function Digits(n: nat): string
  {
    if n < 10 then [DigitChar(n)] else Digits(n / 10) + [DigitChar(n % 10)]
  }

  /** `str(n)` for a Python integer. */
  function Decimal(n: int): string
  {
    if n < 0 then "-" + Digits(-n) else Digits(n)
  }

  // ---------------------------------------------------------------------
  // Grouped formatting: f"{n:,}"
  // ---------------------------------------------------------------------

  /** The last three digits of a group, zero padded. */
  function Pad3(r: nat): string
    requires r < 1000
  {
    [DigitChar(r / 100), DigitChar(r / 10 % 10), DigitChar(r % 10)]
  }

  /** Digits of `n` with a comma before every group of three counted from the right. */
  function Group(n: nat): string
  {
    if n < 1000 then Digits(n) else Group(n / 1000) + "," + Pad3(n % 1000)
  }

  /** `f"{n:,}"`: a leading minus for negatives, then the grouped magnitude. */
  function Format(n: int): string
  {
    if n < 0 then "-" + Group(-n) else Group(n)
  }

  // ---------------------------------------------------------------------
  // Parsing: int(s) and int(s.replace(',', ''))
  // ---------------------------------------------------------------------

  /** `int(s)`, narrowed to an optional leading minus followed by at least one ASCII digit. */
  function ParseInt(s: string): Option<int>
  {
    if |s| > 0 && s[0] == '-' then
      if |s| > 1 && AllDigits(s[1..]) then Some(0 - DigitsValue(s[1..])) else None
    else if |s| > 0 && AllDigits(s) then Some(DigitsValue(s))
    else None
  }

  /** `s.replace(',', '')`. */
  function RemoveCommas(s: string): (r: string)
    ensures ',' !in r
    ensures |r| <= |s|
  {
    if s == [] then [] else (if s[0] == ',' then "" else [s[0]]) + RemoveCommas(s[1..])
  }

  /** `int(s.replace(',', ''))`: how `generate_pdf.py` reads a price or a total. */
  function ParseAmount(s: string): Option<int>
  {
    ParseInt(RemoveCommas(s))
  }

  // ---------------------------------------------------------------------
  // Lemmas
  // ---------------------------------------------------------------------

  lemma {:induction false} RemoveCommasAppend(a: string, b: string)
    ensures RemoveCommas(a + b) == RemoveCommas(a) + RemoveCommas(b)
  {
    if a == [] {
      assert a + b == b;
    } else {
      var ab := a + b;
      var head := if a[0] == ',' then "" else [a[0]];
      assert ab[0] == a[0] && ab[1..] == a[1..] + b;
      RemoveCommasAppend(a[1..], b);
      calc {
        RemoveCommas(ab);
        head + RemoveCommas(a[1..] + b);
        head + (RemoveCommas(a[1..]) + RemoveCommas(b));
        (head + RemoveCommas(a[1..])) + RemoveCommas(b);
        RemoveCommas(a) + RemoveCommas(b);
      }
    }
  }

  lemma {:induction false} RemoveCommasOfNoCommas(s: string)
    requires ',' !in s
    ensures RemoveCommas(s) == s
  {
    if s != [] {
      RemoveCommasOfNoCommas(s[1..]);
    }
  }

  lemma DigitsValueAppend(s: string, c: char)
    requires AllDigits(s) && IsDigit(c)
    ensures AllDigits(s + [c]) && DigitsValue(s + [c]) == DigitsValue(s) * 10 + DigitValue(c)
  {
    assert (s + [c])[..|s + [c]| - 1] == s;
  }

  /** The digits of `n` read back as `n`. */
  lemma {:induction false} DigitsRoundTrip(n: nat)
    ensures |Digits(n)| > 0 && AllDigits(Digits(n)) && ',' !in Digits(n)
    ensures DigitsValue(Digits(n)) == n
  {
    if n >= 10 {
      DigitsRoundTrip(n / 10);
      DigitsValueAppend(Digits(n / 10), DigitChar(n % 10));
    }
  }

  /** Appending a zero-padded three-digit group multiplies by 1000 and adds the group. */
  lemma Pad3Append(g: string, r: nat)
    requires AllDigits(g) && r < 1000
    ensures AllDigits(g + Pad3(r)) && DigitsValue(g + Pad3(r)) == DigitsValue(g) * 1000 + r
  {
    var p := Pad3(r);
    var g1, g2 := g + [p[0]], g + [p[0]] + [p[1]];
    var d0, d1, d2 := r / 100, r / 10 % 10, r % 10;
    var v := DigitsValue(g);
    DigitsValueAppend(g, p[0]);
    DigitsValueAppend(g1, p[1]);
    DigitsValueAppend(g2, p[2]);
    assert g + p == g2 + [p[2]];
    assert DigitsValue(g1) == v * 10 + d0;
    assert DigitsValue(g2) == v * 100 + d0 * 10 + d1;
    assert DigitsValue(g + p) == v * 1000 + d0 * 100 + d1 * 10 + d2;
    ThreeDigits(r);
  }

  /** A number below 1000 is its hundreds, tens and units digits. */
  lemma ThreeDigits(r: nat)
    requires r < 1000
    ensures r == r / 100 * 100 + r / 10 % 10 * 10 + r % 10
  {
    var t := r / 10;
    assert r == t * 10 + r % 10;
    assert t == t / 10 * 10 + t % 10;
    assert t / 10 == r / 100;
  }

  /** Deleting the commas around a separator that precedes a comma-free part. */
  lemma RemoveCommasJoin(q: string, p: string)
    requires ',' !in p
    ensures RemoveCommas(q + "," + p) == RemoveCommas(q) + p
  {
    var rq := RemoveCommas(q);
    RemoveCommasAppend(q, ",");
    assert RemoveCommas(",") == "" by { assert ","[1..] == ""; }
    assert RemoveCommas(q + ",") == rq + "";
    assert rq + "" == rq;
    RemoveCommasAppend(q + ",", p);
    RemoveCommasOfNoCommas(p);
  }

  lemma RemoveCommasGroup(n: nat)
    requires n >= 1000
    ensures RemoveCommas(Group(n)) == RemoveCommas(Group(n / 1000)) + Pad3(n % 1000)
  {
    var p := Pad3(n % 1000);
    assert ',' !in p;
    RemoveCommasJoin(Group(n / 1000), p);
  }

  /** Deleting the commas of `Group(n)` leaves the digits of a number whose value is `n`. */
  lemma {:induction false} GroupRoundTrip(n: nat)
    ensures |RemoveCommas(Group(n))| > 0 && AllDigits(RemoveCommas(Group(n)))
    ensures DigitsValue(RemoveCommas(Group(n))) == n
  {
    if n < 1000 {
      DigitsRoundTrip(n);
      RemoveCommasOfNoCommas(Digits(n));
    } else {
      GroupRoundTrip(n / 1000);
      RemoveCommasGroup(n);
      Pad3Append(RemoveCommas(Group(n / 1000)), n % 1000);
    }
  }

  /** Format/parse round trip: deleting the commas from `Format(n)` and parsing gives back `n`. */
  lemma FormatRoundTrip(n: int)
    ensures ParseAmount(Format(n)) == Some(n)
  {
    var m := if n < 0 then -n else n;
    GroupRoundTrip(m);
    var g := RemoveCommas(Group(m));
    if n < 0 {
      RemoveCommasAppend("-", Group(m));
      assert RemoveCommas(Format(n)) == "-" + g;
      assert ("-" + g)[1..] == g;
    }
  }

  /** `str(n)` parses back as `n`. */
  lemma DecimalRoundTrip(n: int)
    ensures ParseInt(Decimal(n)) == Some(n)
    ensures ParseAmount(Decimal(n)) == Some(n)
  {
    var m := if n < 0 then -n else n;
    DigitsRoundTrip(m);
    if n < 0 {
      assert ("-" + Digits(m))[1..] == Digits(m);
    }
    RemoveCommasOfNoCommas(Decimal(n));
  }

  /** Two amounts format alike only when they are equal. */
  lemma FormatInjective(a: int, b: int)
    requires Format(a) == Format(b)
    ensures a == b
  {
    FormatRoundTrip(a);
    FormatRoundTrip(b);
  }

  lemma {:induction false} GroupShape(n: nat)
    ensures |Group(n)| > 0 && IsDigit(Group(n)[0])
  {
    if n < 1000 {
      DigitsRoundTrip(n);
    } else {
      GroupShape(n / 1000);
    }
  }

  /** Plain `int` (no comma deletion) rejects the formatted text of any amount of
      four or more digits: the grouping comma is not a digit. */
  lemma FormattedLargeAmountRejectedByInt(n: int)
    requires n >= 1000 || n <= -1000
    ensures ParseInt(Format(n)) == None
  {
    var m := if n < 0 then -n else n;
    GroupShape(m / 1000);
    var k := |Group(m / 1000)|;
    var s := Format(n);
    var at := if n < 0 then k + 1 else k;
    assert s[at] == ',';
    assert s[1..][at - 1] == ',';
  }
}
