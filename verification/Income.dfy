/** The money on a pay stub: a yearly income printed as a monthly one, and read back. Arithmetic is
    exact. */
module Income {
  import opened Prelude
  import Decimal

  // ---- Rounding ---------------------------------------------------------------------------------

  /** The nearest whole number to `n / d`; of two equally near, the even one. */
  function RoundHalfEven(n: nat, d: nat): (r: nat)
    requires d > 0
  {
    var q, twice := n / d, 2 * (n % d);
    if twice < d || (twice == d && q % 2 == 0) then q else q + 1
  }

  /** Cents of a twelfth of a whole-dollar yearly income. */
  function MonthlyCents(annual: nat): nat
  {
    RoundHalfEven(100 * annual, 12)
  }

  /** Twelve times a monthly amount, in whole dollars. */
  function AnnualFromCents(cents: nat): nat
  {
    RoundHalfEven(12 * cents, 100)
  }

  /** No yearly income is lost: the twelfth is never off by more than a third of a cent, so twelve of
      them are never off by more than four cents, and rounding restores the dollars. */
  lemma YearOfMonths(annual: nat)
    ensures -4 <= 12 * MonthlyCents(annual) - 100 * annual <= 4
    ensures AnnualFromCents(MonthlyCents(annual)) == annual
  {
    var cents := MonthlyCents(annual);
    assert 100 * annual == 12 * (100 * annual / 12) + 100 * annual % 12;
    assert -6 <= 12 * cents - 100 * annual <= 6;
    assert (12 * cents - 100 * annual) % 4 == 0;
    var error := 12 * cents - 100 * annual;
    if error >= 0 {
      DivideNear(annual, error);
    } else {
      DivideBelow(annual, -error);
    }
  }

  lemma DivideNear(annual: nat, e: nat)
    requires e < 50
    ensures (100 * annual + e) / 100 == annual && (100 * annual + e) % 100 == e
  {
  }

  lemma DivideBelow(annual: nat, e: nat)
    requires 0 < e < 50 && 100 * annual >= e
    ensures (100 * annual - e) / 100 == annual - 1 && (100 * annual - e) % 100 == 100 - e
  {
  }

  // ---- Printing ---------------------------------------------------------------------------------

  function Pad(n: nat, width: nat): (s: string)
    requires n < 1000 && width <= 3
  {
    var s := Decimal.Show(n);
    if |s| >= width then s
    else if |s| + 1 == width then "0" + s
    else "00" + s
  }

  /** Whole dollars in groups of three digits. */
  function Grouped(n: nat): (s: string)
  {
    if n < 1000 then Decimal.Show(n) else Grouped(n / 1000) + "," + Pad(n % 1000, 3)
  }

  /** An amount with comma grouping and two decimals. */
  function Printed(cents: nat): (s: string)
  {
    Grouped(cents / 100) + "." + Pad(cents % 100, 2)
  }

  function RemoveCommas(s: string): (r: string)
    ensures ',' !in r
  {
    if s == "" then "" else (if s[0] == ',' then "" else [s[0]]) + RemoveCommas(s[1..])
  }

  /** The cents of a plain decimal with two decimals; nothing before the point counts as zero. */
  function ReadCents(s: string): Option<nat>
  {
    if |s| < 3 || s[|s| - 3] != '.' || !Decimal.AllDigits(s[..|s| - 3]) || !Decimal.AllDigits(s[|s| - 2..]) then None
    else Some(100 * Decimal.Read(s[..|s| - 3]) + Decimal.Read(s[|s| - 2..]))
  }

  lemma Associative(a: string, b: string, c: string)
    ensures a + (b + c) == (a + b) + c
  {
  }

  lemma {:induction false} RemoveCommasConcat(a: string, b: string)
    ensures RemoveCommas(a + b) == RemoveCommas(a) + RemoveCommas(b)
  {
    if a == "" {
      assert a + b == b;
    } else {
      RemoveCommasConcat(a[1..], b);
      assert (a + b)[0] == a[0] && (a + b)[1..] == a[1..] + b;
      var head := if a[0] == ',' then "" else [a[0]];
      assert RemoveCommas(a + b) == head + RemoveCommas(a[1..] + b);
      assert RemoveCommas(a) == head + RemoveCommas(a[1..]);
      Associative(head, RemoveCommas(a[1..]), RemoveCommas(b));
    }
  }

  lemma {:induction false} NoCommasToRemove(s: string)
    requires ',' !in s
    ensures RemoveCommas(s) == s
  {
    if s != "" {
      NoCommasToRemove(s[1..]);
      assert s == [s[0]] + s[1..];
    }
  }

  lemma DigitsHaveNoComma(s: string)
    requires Decimal.AllDigits(s)
    ensures ',' !in s
  {
    forall i | 0 <= i < |s| ensures s[i] != ',' {
      assert Decimal.IsDigit(s[i]);
    }
  }

  lemma {:induction false} ReadConcat(a: string, b: string)
    requires Decimal.AllDigits(a) && Decimal.AllDigits(b)
    ensures Decimal.AllDigits(a + b)
    ensures Decimal.Read(a + b) == Decimal.Read(a) * Power(|b|) + Decimal.Read(b)
  {
    if b == "" {
      assert a + b == a;
    } else {
      var n := |b| - 1;
      ReadConcat(a, b[..n]);
      assert (a + b)[..|a + b| - 1] == a + b[..n];
      assert Power(|b|) == 10 * Power(n);
      assert Decimal.Read(a) * Power(|b|) == 10 * (Decimal.Read(a) * Power(n));
    }
  }

  function Power(d: nat): nat
  {
    if d == 0 then 1 else 10 * Power(d - 1)
  }

  /** Padded to a width, a number below that power of ten has exactly that many digits. */
  lemma PadReads(n: nat, width: nat)
    requires (width == 2 && n < 100) || (width == 3 && n < 1000)
    ensures |Pad(n, width)| == width && Decimal.AllDigits(Pad(n, width)) && Decimal.Read(Pad(n, width)) == n
  {
    Decimal.ReadShow(n);
    ShortShow(n);
    var s := Decimal.Show(n);
    if |s| + 1 == width {
      assert Decimal.Read("0") == 10 * Decimal.Read("") + 0;
      ReadConcat("0", s);
    } else if |s| < width {
      assert Decimal.Read("0") == 10 * Decimal.Read("") + 0;
      assert "00"[..1] == "0";
      ReadConcat("00", s);
    }
  }

  lemma ShortShow(n: nat)
    requires n < 1000
    ensures n < 10 <==> |Decimal.Show(n)| == 1
    ensures n < 100 <==> |Decimal.Show(n)| <= 2
    ensures |Decimal.Show(n)| <= 3
  {
  }

  predicate DigitsAndCommas(s: string)
  {
    forall i :: 0 <= i < |s| ==> Decimal.IsDigit(s[i]) || s[i] == ','
  }

  lemma RemoveOne(c: char)
    ensures RemoveCommas([c]) == if c == ',' then "" else [c]
  {
    assert [c][1..] == "";
  }

  /** One more group of three digits. */
  lemma GroupAppended(head: string, tail: string)
    requires Decimal.AllDigits(tail)
    ensures RemoveCommas(head + "," + tail) == RemoveCommas(head) + tail
  {
    hide RemoveCommas;
    DigitsHaveNoComma(tail);
    NoCommasToRemove(tail);
    RemoveCommasConcat(head + ",", tail);
    RemoveCommasConcat(head, ",");
    RemoveOne(',');
    assert RemoveCommas(head) + "" == RemoveCommas(head);
  }

  /** Commas only group: without them the digits read back as the number. */
  lemma {:induction false} GroupedReads(n: nat)
    ensures Grouped(n) != "" && DigitsAndCommas(Grouped(n))
    ensures var plain := RemoveCommas(Grouped(n));
            plain != "" && Decimal.AllDigits(plain) && Decimal.Read(plain) == n
  {
    hide Decimal.Show, Decimal.Read, RemoveCommas, Pad;
    if n < 1000 {
      DigitsHaveNoComma(Decimal.Show(n));
      NoCommasToRemove(Decimal.Show(n));
      Decimal.ReadShow(n);
    } else {
      GroupedReads(n / 1000);
      PadReads(n % 1000, 3);
      var head, tail := Grouped(n / 1000), Pad(n % 1000, 3);
      GroupAppended(head, tail);
      ReadConcat(RemoveCommas(head), tail);
      assert Power(3) == 1000;
    }
  }

  lemma SplitDecimal(plain: string, rest: string)
    requires |rest| == 2
    ensures var s := plain + "." + rest;
            |s| == |plain| + 3 && s[|s| - 3] == '.' && s[..|s| - 3] == plain && s[|s| - 2..] == rest
  {
  }

  /** Printing an amount and removing the commas leaves a plain decimal of the same amount. */
  lemma PrintedReads(cents: nat)
    ensures ReadCents(RemoveCommas(Printed(cents))) == Some(cents)
  {
    hide Decimal.Show, Decimal.Read, RemoveCommas, Pad, Grouped;
    var dollars, rest := Grouped(cents / 100), Pad(cents % 100, 2);
    GroupedReads(cents / 100);
    PadReads(cents % 100, 2);
    DigitsHaveNoComma(rest);
    NoCommasToRemove(rest);
    RemoveCommasConcat(dollars + ".", rest);
    RemoveCommasConcat(dollars, ".");
    RemoveOne('.');
    SplitDecimal(RemoveCommas(dollars), rest);
  }

  /** The income a stub's normalised monthly amount stands for. */
  function DeclaredAnnual(normalized: string): Option<nat>
  {
    match ReadCents(normalized)
    case None => None
    case Some(cents) => Some(AnnualFromCents(cents))
  }

  /** The round trip of every whole-dollar yearly income. */
  lemma IncomeRoundTrip(annual: nat)
    ensures DeclaredAnnual(RemoveCommas(Printed(MonthlyCents(annual)))) == Some(annual)
  {
    PrintedReads(MonthlyCents(annual));
    YearOfMonths(annual);
  }
}
