/** Decimal rendering and parsing of integers: Python's `str(n)`, the
    thousands-separated `format(n, ",")` used for rupiah amounts, and the
    digit-string value read back by `float()`. */
module Numerals {
  import opened Text

  function DigitChar(d: nat): char
    requires d < 10
  {
    "0123456789"[d]
  }

  /** The digit character of `d` is a digit and reads back as `d`. */
  lemma DigitCharValue(d: nat)
    requires d < 10
    ensures IsDigit(DigitChar(d)) && DigitValue(DigitChar(d)) == d
  {
  }

  function DigitValue(c: char): nat
    requires IsDigit(c)
  {
    c as int - '0' as int
  }

  /** `str(n)` for a non-negative integer: no sign, no leading zero. */
  function DecimalDigits(n: nat): string {
    if n < 10 then [DigitChar(n)] else DecimalDigits(n / 10) + [DigitChar(n % 10)]
  }

  /** `str(n)` is a non-empty run of digits that starts with '0' only for
      zero itself. */
  lemma {:induction false} DecimalDigitsShape(n: nat)
    ensures 1 <= |DecimalDigits(n)| && AllDigits(DecimalDigits(n))
    ensures (DecimalDigits(n)[0] == '0') == (n == 0)
  {
    if n < 10 {
      DigitCharValue(n);
    } else {
      DecimalDigitsShape(n / 10);
      DigitCharValue(n % 10);
      assert DecimalDigits(n)[0] == DecimalDigits(n / 10)[0];
    }
  }

  /** `str(i)` for any integer. */
  function IntText(i: int): string {
    if i < 0 then "-" + DecimalDigits(-i) else DecimalDigits(i)
  }

  /** The value of a string of decimal digits, most significant first. */
  function DigitsValue(s: string): nat
    requires AllDigits(s)
    decreases |s|
  {
    if |s| == 0 then 0 else DigitsValue(s[..|s| - 1]) * 10 + DigitValue(s[|s| - 1])
  }

  /** Reading back what `str` wrote gives the number again. */
  lemma {:induction false} DigitsRoundTrip(n: nat)
    ensures AllDigits(DecimalDigits(n)) && DigitsValue(DecimalDigits(n)) == n
  {
    DecimalDigitsShape(n);
    if n >= 10 {
      var s := DecimalDigits(n);
      assert s[..|s| - 1] == DecimalDigits(n / 10);
      DigitsRoundTrip(n / 10);
      DigitCharValue(n % 10);
    } else {
      DigitCharValue(n);
    }
  }

  /** The three zero-padded digits of one thousands group. */
  function Pad3(r: nat): string
    requires r < 1000
  {
    [DigitChar(r / 100), DigitChar(r / 10 % 10), DigitChar(r % 10)]
  }

  lemma Pad3Shape(r: nat)
    requires r < 1000
    ensures |Pad3(r)| == 3 && AllDigits(Pad3(r))
  {
    DigitCharValue(r / 100);
    DigitCharValue(r / 10 % 10);
    DigitCharValue(r % 10);
  }

  /** `format(n, ",")` for a non-negative integer: the decimal digits with a
      comma before every group of three counted from the right. */
  function Grouped(n: nat): string {
    if n < 1000 then DecimalDigits(n) else Grouped(n / 1000) + "," + Pad3(n % 1000)
  }

  /** `format(i, ",")` for any integer; a negative amount keeps its sign. */
  function GroupedInt(i: int): string {
    if i < 0 then "-" + Grouped(-i) else Grouped(i)
  }

  /** Appending three digits to a number of at least one digit is the same as
      multiplying it by a thousand and adding them. */
  lemma DigitsAppendGroup(q: nat, r: nat)
    requires 1 <= q && r < 1000
    ensures DecimalDigits(q * 1000 + r) == DecimalDigits(q) + Pad3(r)
  {
    var n := q * 1000 + r;
    assert n / 10 == q * 100 + r / 10 && n % 10 == r % 10;
    assert n / 10 / 10 == q * 10 + r / 100 && n / 10 % 10 == r / 10 % 10;
    assert n / 10 / 10 / 10 == q && n / 10 / 10 % 10 == r / 100;
    calc {
      DecimalDigits(n);
      DecimalDigits(n / 10) + [DigitChar(r % 10)];
      DecimalDigits(n / 10 / 10) + [DigitChar(r / 10 % 10)] + [DigitChar(r % 10)];
      DecimalDigits(q) + [DigitChar(r / 100)] + [DigitChar(r / 10 % 10)] + [DigitChar(r % 10)];
      DecimalDigits(q) + Pad3(r);
    }
  }

  /** Removing the separators from a grouped amount leaves its plain decimal
      digits. */
  lemma {:induction false} GroupedStripsToDigits(n: nat)
    ensures StripCommas(Grouped(n)) == DecimalDigits(n)
  {
    if n >= 1000 {
      var q, r := n / 1000, n % 1000;
      var g, p := Grouped(q), Pad3(r);
      assert Grouped(n) == g + "," + p;
      calc {
        StripCommas(Grouped(n));
        { StripCommasJoin(g, p); }
        StripCommas(g) + StripCommas(p);
        { GroupedStripsToDigits(q); Pad3Shape(r); DigitsHaveNoComma(p); }
        DecimalDigits(q) + p;
        { DigitsAppendGroup(q, r); assert q * 1000 + r == n; }
        DecimalDigits(n);
      }
    } else {
      DecimalDigitsShape(n);
      DigitsHaveNoComma(DecimalDigits(n));
    }
  }

  lemma GroupedIntStripsToText(i: int)
    ensures StripCommas(GroupedInt(i)) == IntText(i)
  {
    if i < 0 {
      var g := Grouped(-i);
      calc {
        StripCommas(GroupedInt(i));
        StripCommas("-" + g);
        { StripCommasAppend("-", g); assert StripCommas("-") == "-"; }
        "-" + StripCommas(g);
        { GroupedStripsToDigits(-i); }
        IntText(i);
      }
    } else {
      GroupedStripsToDigits(i);
    }
  }

  /** A run of separator groups: each a comma followed by exactly three
      digits. */
  predicate IsCommaTail(s: string)
    decreases |s|
  {
    |s| == 0 || (4 <= |s| && s[0] == ',' && AllDigits(s[1..4]) && IsCommaTail(s[4..]))
  }

  lemma {:induction false} CommaTailAppend(a: string, g: string)
    requires IsCommaTail(a) && |g| == 3 && AllDigits(g)
    ensures IsCommaTail(a + "," + g)
    decreases |a|
  {
    if |a| == 0 {
      assert a + "," + g == "," + g;
      assert ("," + g)[4..] == "";
    } else {
      CommaTailAppend(a[4..], g);
      assert (a + "," + g)[4..] == a[4..] + "," + g;
      assert (a + "," + g)[1..4] == a[1..4];
    }
  }

  /** The leading group of a grouped amount. */
  function LeadGroup(n: nat): (r: nat)
    ensures r < 1000
  {
    if n < 1000 then n else LeadGroup(n / 1000)
  }

  /** The separator groups that follow the leading group. */
  function TailGroups(n: nat): string {
    if n < 1000 then "" else TailGroups(n / 1000) + "," + Pad3(n % 1000)
  }

  /** Every grouped amount is one to three leading digits followed by
      well-formed separator groups. */
  lemma {:induction false} GroupedShape(n: nat)
    ensures Grouped(n) == DecimalDigits(LeadGroup(n)) + TailGroups(n)
    ensures IsCommaTail(TailGroups(n))
    ensures 1 <= |DecimalDigits(LeadGroup(n))| <= 3
  {
    if n >= 1000 {
      var q, r := n / 1000, n % 1000;
      GroupedShape(q);
      assert Grouped(n) == DecimalDigits(LeadGroup(q)) + TailGroups(q) + "," + Pad3(r);
      assert TailGroups(n) == TailGroups(q) + "," + Pad3(r);
      Pad3Shape(r);
      CommaTailAppend(TailGroups(q), Pad3(r));
    } else {
      ShortDigits(n);
    }
  }

  /** Below a thousand `str(n)` has one to three digits. */
  lemma ShortDigits(n: nat)
    requires n < 1000
    ensures 1 <= |DecimalDigits(n)| <= 3
  {
    if n >= 10 {
      assert |DecimalDigits(n)| == |DecimalDigits(n / 10)| + 1;
      if n >= 100 {
        assert |DecimalDigits(n / 10)| == |DecimalDigits(n / 10 / 10)| + 1;
      }
    }
  }

  lemma Pad3Zero()
    ensures Pad3(0) == "000"
  {
    assert DigitChar(0) == '0';
  }

  /** An amount as the rupiah formatting shows it. */
  lemma GroupedExample()
    ensures Grouped(150000) == "150,000"
  {
    Pad3Zero();
    assert DecimalDigits(15) == DecimalDigits(1) + [DigitChar(5)] == "15";
    assert DecimalDigits(150) == DecimalDigits(15) + [DigitChar(0)] == "150";
  }

  /** An amount of more than two groups. */
  lemma GroupedIntExample()
    ensures GroupedInt(1200000) == "1,200,000"
  {
    Pad3Zero();
    assert Pad3(200) == "200";
    assert Grouped(1200) == "1" + "," + "200";
  }
}
