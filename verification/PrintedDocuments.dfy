/** The synthetic pay stub and identity document as they are printed, and what the extractor reads off
    them. Printed lines are taken as the page's text. */
module PrintedDocuments {
  import opened Prelude
  import opened Regex
  import opened Extractor
  import Decimal
  import Income
  import Pdf

  // ---- What is printed --------------------------------------------------------------------------

  const ID_TITLE := "SYNTHETIC GOVERNMENT-ISSUED ID (DEMO ONLY)"
  const SYNTHETIC_NOTE := "This is a synthetic document " + "generated for demo/testing purposes only."

  function PayStubLines(employer: string, givenName: string, familyName: string, annualIncome: nat, tenure: nat): seq<string>
  {
    ["SYNTHETIC PAY STUB -- " + employer,
     "Employee: " + givenName + " " + familyName,
     "Pay period: Monthly    Gross pay: $" + Income.Printed(Income.MonthlyCents(annualIncome)),
     "Tenure: " + Decimal.Show(tenure) + " months",
     SYNTHETIC_NOTE]
  }

  function IdentityLines(givenName: string, familyName: string, dateOfBirth: string, street: string, city: string,
                         syntheticId: string): seq<string>
  {
    [ID_TITLE,
     "Name: " + givenName + " " + familyName,
     "Date of birth: " + dateOfBirth,
     "Address: " + street + ", " + city,
     "Synthetic ID: " + syntheticId,
     SYNTHETIC_NOTE]
  }

  // ---- Matching step by step --------------------------------------------------------------------

  lemma StepOne(k: Class, p: Pattern, s: string, at: nat)
    requires at < |s| && In(k, s[at])
    ensures MatchAt([One(k)] + p, s, at) == MatchAt(p, s, at + 1)
  {
    assert ([One(k)] + p)[1..] == p;
  }

  lemma StepMark(p: Pattern, s: string, at: nat, m: seq<nat>)
    requires at <= |s| && MatchAt(p, s, at) == Some(m)
    ensures MatchAt([Mark] + p, s, at) == Some([at] + m)
  {
    assert ([Mark] + p)[1..] == p;
  }

  /** A repetition that keeps all it can. */
  lemma StepMany(k: Class, least: nat, p: Pattern, s: string, at: nat, n: nat, m: seq<nat>)
    requires at + n <= |s| && least <= n && Run(k, s, at) == n && MatchAt(p, s, at + n) == Some(m)
    ensures MatchAt([Many(k, least)] + p, s, at) == Some(m)
  {
    var q := [Many(k, least)] + p;
    assert q[1..] == p;
    FullRun(q, s, at, n, m);
  }

  /** A repetition that has to give back all but `n`. */
  lemma StepManyBack(k: Class, least: nat, p: Pattern, s: string, at: nat, n: nat, m: seq<nat>)
    requires at <= |s| && least <= n <= Run(k, s, at) && MatchAt(p, s, at + n) == Some(m)
    requires forall e :: at + n < e <= at + Run(k, s, at) ==> MatchAt(p, s, e) == None
    ensures MatchAt([Many(k, least)] + p, s, at) == Some(m)
  {
    var q := [Many(k, least)] + p;
    assert q[1..] == p;
    LongestIs(q, s, at, Run(k, s, at), n, m);
  }

  lemma CommaNeeded(p: Pattern, s: string, at: nat)
    requires at <= |s| && (at == |s| || s[at] != ',')
    ensures MatchAt([Mark] + ([One(Is(','))] + p), s, at) == None
  {
    var q := [One(Is(','))] + p;
    assert ([Mark] + q)[1..] == q;
    assert q[0] == One(Is(','));
    assert MatchAt(q, s, at) == None;
  }

  // ---- The pay stub -----------------------------------------------------------------------------

  lemma AmountPattern()
    ensures AMOUNT_TAIL == [SPACES] + ([One(Is('$'))] + ([Mark] + ([Many(DigitOrComma, 1)]
                           + ([One(Is('.'))] + ([One(Digit)] + ([One(Digit)] + [Mark]))))))
  {
  }

  lemma DigitClass(c: char)
    requires Decimal.IsDigit(c)
    ensures In(Digit, c) && In(DigitOrComma, c) && !In(Space, c)
  {
  }

  /** The amount after the label is matched whole: all its groups, the point, two decimals. */
  lemma AmountMatches(s: string, at: nat, dollars: string, cents: string)
    requires Income.DigitsAndCommas(dollars) && dollars != "" && |cents| == 2 && Decimal.AllDigits(cents)
    requires OccursAt(" $" + dollars + "." + cents, s, at)
    ensures MatchAt(AMOUNT_TAIL, s, at) == Some([at + 2, at + 2 + |dollars| + 3, at + 2 + |dollars| + 3])
  {
    hide MatchAt, Run;
    var whole := " $" + dollars + "." + cents;
    var start, dot := at + 2, at + 2 + |dollars|;
    assert s[at] == whole[0] == ' ' && s[at + 1] == whole[1] == '$';
    forall i | start <= i < dot ensures In(DigitOrComma, s[i]) {
      assert s[i] == whole[i - at] == dollars[i - start];
    }
    assert s[dot] == whole[dot - at] == '.';
    assert s[dot + 1] == whole[dot + 1 - at] == cents[0] && s[dot + 2] == whole[dot + 2 - at] == cents[1];
    DigitClass(cents[0]);
    DigitClass(cents[1]);
    RunIs(Space, s, at, 1);
    RunIs(DigitOrComma, s, start, |dollars|);
    AmountPattern();
    hide AMOUNT_TAIL;
    EndMatches(s, dot + 3);
    StepOne(Digit, [Mark], s, dot + 2);
    StepOne(Digit, [One(Digit)] + [Mark], s, dot + 1);
    StepOne(Is('.'), [One(Digit)] + ([One(Digit)] + [Mark]), s, dot);
    var p := [One(Is('.'))] + ([One(Digit)] + ([One(Digit)] + [Mark]));
    StepMany(DigitOrComma, 1, p, s, start, |dollars|, [dot + 3, dot + 3]);
    StepMark([Many(DigitOrComma, 1)] + p, s, start, [dot + 3, dot + 3]);
    StepOne(Is('$'), [Mark] + ([Many(DigitOrComma, 1)] + p), s, at + 1);
    assert [start] + [dot + 3, dot + 3] == [start, dot + 3, dot + 3];
    StepMany(Space, 0, [One(Is('$'))] + ([Mark] + ([Many(DigitOrComma, 1)] + p)), s, at, 1, [start, dot + 3, dot + 3]);
  }

  lemma EndMatches(s: string, at: nat)
    requires at <= |s|
    ensures MatchAt([Mark], s, at) == Some([at, at])
  {
    assert [Mark] + [] == [Mark];
    StepMark([], s, at, [at]);
    assert [at] + [at] == [at, at];
  }

  /** Text in which a label does not occur before a position. */
  ghost predicate NotBefore(tag: string, s: string, at: nat)
  {
    forall i :: 0 <= i < at ==> !OccursAt(tag, s, i)
  }

  /** A labelled pattern is found at the first occurrence of its label, when it matches there. */
  lemma LabelledFound(tag: string, tail: Pattern, s: string, at: nat, m: seq<nat>)
    requires OccursAt(tag, s, at) && NotBefore(tag, s, at)
    requires MatchAt(tail, s, at + |tag|) == Some(m)
    ensures Search(Text(tag) + tail, s, 0) == Some(m)
  {
    hide OccursAt, MatchAt, Search;
    assert at + |tag| <= |s| by { OccursInside(tag, s, at); }
    TextMatches(tag, tail, s, at);
    forall i | 0 <= i < at ensures MatchAt(Text(tag) + tail, s, i) == None {
      TextMatches(tag, tail, s, i);
    }
    SearchFinds(Text(tag) + tail, s, 0, at, m);
  }

  lemma OccursInside(tag: string, s: string, at: nat)
    requires OccursAt(tag, s, at)
    ensures at + |tag| <= |s|
  {
  }

  /** A printed monthly amount, wherever its label first stands in the text, is read off whole. */
  lemma AmountIsRead(before: string, cents: nat, after: string, page: int)
    requires NotBefore("Gross pay:", before + "Gross pay: $" + Income.Printed(cents) + after, |before|)
    ensures var text := before + "Gross pay: $" + Income.Printed(cents) + after;
            var found := FirstFound([PageText(page, text)], GROSS_PAY);
            found.Some? && Piece(found.value, 0) == Income.Printed(cents)
  {
    hide Income.Printed, MatchAt, Search, Text, AMOUNT_TAIL;
    var amount := Income.Printed(cents);
    var text := before + "Gross pay: $" + amount + after;
    var at := |before| + 10;
    var dollars, decimals := PrintedParts(cents);
    assert text[|before|..|before| + 10] == "Gross pay:";
    assert OccursAt("Gross pay:", text, |before|);
    assert text == (before + "Gross pay:") + (" $" + amount) + after;
    assert " $" + amount == " $" + dollars + "." + decimals;
    assert text[at..at + |" $" + amount|] == " $" + amount;
    AmountMatches(text, at, dollars, decimals);
    var m := [at + 2, at + 2 + |amount|, at + 2 + |amount|];
    LabelledFound("Gross pay:", AMOUNT_TAIL, text, |before|, m);
    assert text[at + 2..at + 2 + |amount|] == amount;
  }

  lemma PrintedParts(cents: nat) returns (dollars: string, decimals: string)
    ensures Income.Printed(cents) == dollars + "." + decimals
    ensures Income.DigitsAndCommas(dollars) && dollars != "" && |decimals| == 2 && Decimal.AllDigits(decimals)
  {
    dollars, decimals := Income.Grouped(cents / 100), Income.Pad(cents % 100, 2);
    Income.GroupedReads(cents / 100);
    Income.PadReads(cents % 100, 2);
  }

  // ---- Labels among lines -----------------------------------------------------------------------

  /** A label that does not stand anywhere in a text. */
  ghost predicate Clean(tag: string, s: string)
  {
    forall i :: 0 <= i <= |s| ==> !OccursAt(tag, s, i)
  }

  lemma CharAt(tag: string, s: string, i: nat, k: nat)
    requires OccursAt(tag, s, i) && k < |tag|
    ensures s[i + k] == tag[k]
  {
    assert s[i..i + |tag|][k] == s[i + k];
  }

  /** A start without the label's first character adds no occurrence. */
  lemma StartClean(tag: string, start: string, body: string)
    requires tag != "" && tag[0] !in start && Clean(tag, body)
    ensures Clean(tag, start + body)
  {
    forall i | 0 <= i <= |start + body| ensures !OccursAt(tag, start + body, i) {
      if OccursAt(tag, start + body, i) {
        CharAt(tag, start + body, i, 0);
        if i >= |start| {
          assert (start + body)[i..i + |tag|] == body[i - |start|..i - |start| + |tag|];
          assert OccursAt(tag, body, i - |start|);
        }
        assert false;
      }
    }
  }

  /** An occurrence of a one-line label lies within one line. */
  lemma OccurrenceInLine(tag: string, a: string, b: string, i: nat)
    requires '\n' !in tag && OccursAt(tag, a + "\n" + b, i)
    ensures i + |tag| <= |a| || i >= |a| + 1 || tag == ""
  {
    var s := a + "\n" + b;
    assert s[|a|] == '\n';
    if i <= |a| < i + |tag| {
      CharAt(tag, s, i, |a| - i);
      assert false;
    }
  }

  lemma LinesClean(tag: string, a: string, b: string)
    requires tag != "" && '\n' !in tag && Clean(tag, a) && Clean(tag, b)
    ensures Clean(tag, a + "\n" + b)
  {
    var s := a + "\n" + b;
    forall i | 0 <= i <= |s| ensures !OccursAt(tag, s, i) {
      if OccursAt(tag, s, i) {
        OccurrenceInLine(tag, a, b, i);
        if i + |tag| <= |a| {
          assert s[i..i + |tag|] == a[i..i + |tag|];
          assert OccursAt(tag, a, i);
        } else {
          assert s[i..i + |tag|] == b[i - |a| - 1..i - |a| - 1 + |tag|];
          assert OccursAt(tag, b, i - |a| - 1);
        }
        assert false;
      }
    }
  }

  /** Before a line in which the label stands after a harmless start, it does not occur. */
  lemma NotBeforeLine(tag: string, a: string, start: string, rest: string)
    requires tag != "" && '\n' !in tag && Clean(tag, a) && tag[0] !in start
    ensures NotBefore(tag, a + "\n" + start + rest, |a| + 1 + |start|)
  {
    var s := a + "\n" + start + rest;
    assert s == a + "\n" + (start + rest);
    assert forall j :: |a| + 1 <= j < |a| + 1 + |start| ==> s[j] in start;
    forall i | 0 <= i < |a| + 1 + |start| ensures !OccursAt(tag, s, i) {
      if OccursAt(tag, s, i) {
        OccurrenceInLine(tag, a, start + rest, i);
        CharAt(tag, s, i, 0);
        if i + |tag| <= |a| {
          assert s[i..i + |tag|] == a[i..i + |tag|];
          assert OccursAt(tag, a, i);
        }
        assert false;
      }
    }
  }

  // ---- The income round trip --------------------------------------------------------------------

  const GROSS := "Gross pay:"

  /** The text of five lines, seen from the second, the third and the fourth. */
  lemma FiveLines(a: string, b: string, c: string, d: string, e: string)
    ensures var text := Pdf.Join([a, b, c, d, e]);
            && text == a + ("\n" + Pdf.Join([b, c, d, e]))
            && text == a + "\n" + b + "\n" + (c + ("\n" + Pdf.Join([d, e])))
            && text == (a + "\n" + (b + "\n" + c)) + "\n" + (d + ("\n" + e))
  {
    assert [a, b, c, d, e] == [a] + [b, c, d, e] && [b, c, d, e] == [b] + [c, d, e]
        && [c, d, e] == [c] + [d, e] && [d, e] == [d] + [e];
    assert Pdf.Join([e]) == e;
    hide Pdf.Join;
    JoinTwo(a, [b, c, d, e]);
    JoinTwo(b, [c, d, e]);
    JoinTwo(c, [d, e]);
    JoinTwo(d, [e]);
    var x, y := d + "\n" + e, Pdf.Join([b, c, d, e]);
    assert x == d + ("\n" + e) && a + "\n" + y == a + ("\n" + y) && c + "\n" + x == c + ("\n" + x);
    RegroupLines(a, b, c, x);
  }

  lemma RegroupLines(a: string, b: string, c: string, more: string)
    ensures a + "\n" + (b + "\n" + (c + "\n" + more)) == a + "\n" + b + "\n" + (c + "\n" + more)
    ensures a + "\n" + (b + "\n" + (c + "\n" + more)) == (a + "\n" + (b + "\n" + c)) + "\n" + more
  {
    var x := c + "\n" + more;
    assert a + "\n" + (b + "\n" + x) == a + "\n" + b + "\n" + x;
    assert b + "\n" + x == b + "\n" + c + "\n" + more;
  }

  lemma JoinTwo(a: string, more: seq<string>)
    requires more != []
    ensures Pdf.Join([a] + more) == a + "\n" + Pdf.Join(more)
  {
    assert ([a] + more)[1..] == more;
  }

  /** The income round trip through the printed pay stub: unless a name spells the label, the one gross
      pay fact read off the page is the printed amount, and it stands for the very income the stub was
      printed for. */
  lemma PayStubGivesIncome(employer: string, givenName: string, familyName: string, annual: nat, tenure: nat,
                           page: int, checksum: string)
    requires Clean(GROSS, employer) && Clean(GROSS, givenName + " " + familyName)
    ensures var pages := [PageText(page, Pdf.Join(PayStubLines(employer, givenName, familyName, annual, tenure)))];
            var amount := Income.Printed(Income.MonthlyCents(annual));
            && GrossFacts(FirstFound(pages, GROSS_PAY), checksum)
               == [Fact(GrossMonthlyIncome, amount, Income.RemoveCommas(amount), page, checksum)]
            && Income.DeclaredAnnual(Income.RemoveCommas(amount)) == Some(annual)
  {
    hide FirstFound, Pdf.Join, Decimal.Show, Income.Printed, Income.MonthlyCents, Income.RemoveCommas, Piece, Income.DeclaredAnnual;
    var lines := PayStubLines(employer, givenName, familyName, annual, tenure);
    var cents := Income.MonthlyCents(annual);
    var first, second, start := lines[0], lines[1], "Pay period: Monthly    ";
    FiveLines(lines[0], lines[1], lines[2], lines[3], lines[4]);
    assert lines == [lines[0], lines[1], lines[2], lines[3], lines[4]];
    var after := "\n" + Pdf.Join([lines[3], lines[4]]);
    StubHeadClean(employer, givenName, familyName);
    var head := first + "\n" + second;
    var before := head + "\n" + start;
    var rest := "Gross pay: $" + Income.Printed(cents) + after;
    NotBeforeLine(GROSS, head, start, rest);
    LineParts(head, start, "Gross pay: $", Income.Printed(cents), after);
    assert "Pay period: Monthly    Gross pay: $" == start + "Gross pay: $";
    assert Pdf.Join(lines) == before + "Gross pay: $" + Income.Printed(cents) + after;
    AmountIsRead(before, cents, after, page);
    Income.IncomeRoundTrip(annual);
    OnlyPageFound(Pdf.Join(lines), page, GROSS_PAY);
  }

  lemma StubHeadClean(employer: string, givenName: string, familyName: string)
    requires Clean(GROSS, employer) && Clean(GROSS, givenName + " " + familyName)
    ensures Clean(GROSS, "SYNTHETIC PAY STUB -- " + employer + "\n" + ("Employee: " + givenName + " " + familyName))
  {
    hide Clean;
    StartClean(GROSS, "SYNTHETIC PAY STUB -- ", employer);
    StartClean(GROSS, "Employee: ", givenName + " " + familyName);
    assert "Employee: " + (givenName + " " + familyName) == "Employee: " + givenName + " " + familyName;
    LinesClean(GROSS, "SYNTHETIC PAY STUB -- " + employer, "Employee: " + givenName + " " + familyName);
  }

  lemma LineParts(head: string, start: string, tag: string, amount: string, after: string)
    ensures head + "\n" + ((start + tag + amount) + after) == (head + "\n" + start) + (tag + amount + after)
    ensures (head + "\n" + start) + (tag + amount + after) == head + "\n" + start + tag + amount + after
  {
    var a := head + "\n" + start;
    assert (start + tag + amount) + after == start + (tag + amount + after);
    assert head + "\n" + (start + (tag + amount + after)) == a + (tag + amount + after);
  }

  lemma OnlyPageFound(text: string, page: int, p: Pattern)
    ensures FirstFound([PageText(page, text)], p).Some? ==> FirstFound([PageText(page, text)], p).value.page == PageText(page, text)
  {
    assert [PageText(page, text)][1..] == [];
  }

  // ---- The address round trip -------------------------------------------------------------------

  const LABEL := "Address:"

  /** One line of text without white space around it. */
  predicate Trimmed(s: string)
  {
    s != "" && !IsSpace(s[0]) && !IsSpace(s[|s| - 1]) && '\n' !in s
  }

  const CITY_TAIL: Pattern := [SPACES] + ([Mark] + ([REST_OF_LINE] + [Mark]))

  lemma AddressPattern()
    ensures ADDRESS_TAIL == [SPACES] + ([Mark] + ([REST_OF_LINE] + ([Mark] + ([One(Is(','))] + CITY_TAIL))))
  {
  }

  /** The rest of a line after some white space. */
  lemma CityMatches(s: string, at: nat, spaces: nat, length: nat)
    requires at + spaces + length <= |s| && length >= 1
    requires Run(Space, s, at) == spaces && Run(Dot, s, at + spaces) == length
    ensures MatchAt(CITY_TAIL, s, at) == Some([at + spaces, at + spaces + length, at + spaces + length])
  {
    hide MatchAt, Run;
    var start, end := at + spaces, at + spaces + length;
    EndMatches(s, end);
    StepMany(Dot, 1, [Mark], s, start, length, [end, end]);
    StepMark([REST_OF_LINE] + [Mark], s, start, [end, end]);
    assert [start] + [end, end] == [start, end, end];
    StepMany(Space, 0, [Mark] + ([REST_OF_LINE] + [Mark]), s, at, spaces, [start, end, end]);
  }

  /** A printed address line in its text: the label at `at`, street and city, and something after the
      line. */
  ghost predicate AddressAt(s: string, at: nat, street: string, city: string)
  {
    var start := at + |LABEL| + 1;
    var end := start + |street| + 2 + |city|;
    && end + 1 < |s| && s[end] == '\n' && !IsSpace(s[end + 1])
    && s[at + |LABEL|] == ' ' && s[start..start + |street|] == street
    && s[start + |street|] == ',' && s[start + |street| + 1] == ' '
    && s[start + |street| + 2..end] == city
  }

  lemma AddressChars(s: string, at: nat, street: string, city: string)
    requires AddressAt(s, at, street, city) && Trimmed(street) && Trimmed(city)
    ensures var start := at + |LABEL| + 1;
            var comma := start + |street|;
            var end := comma + 2 + |city|;
            && Run(Space, s, at + |LABEL|) == 1
            && Run(Dot, s, start) == end - start
            && Run(Space, s, comma + 1) == 1
            && Run(Dot, s, comma + 2) == |city|
            && (forall i :: 0 <= i < |street| ==> s[start + i] == street[i])
            && (forall i :: 0 <= i < |city| ==> s[comma + 2 + i] == city[i])
  {
    hide Run;
    var start := at + |LABEL| + 1;
    var comma := start + |street|;
    var end := comma + 2 + |city|;
    forall i | 0 <= i < |street| ensures s[start + i] == street[i] {
      assert s[start..comma][i] == s[start + i];
    }
    forall i | 0 <= i < |city| ensures s[comma + 2 + i] == city[i] {
      assert s[comma + 2..end][i] == s[comma + 2 + i];
    }
    forall i | start <= i < end ensures In(Dot, s[i]) {
      if i < comma {
        assert s[i] == street[i - start];
      } else if i >= comma + 2 {
        assert s[i] == city[i - comma - 2];
      }
    }
    assert s[start] == street[0] && s[comma + 2] == city[0];
    RunIs(Space, s, at + |LABEL|, 1);
    RunIs(Dot, s, start, end - start);
    RunIs(Space, s, comma + 1, 1);
    RunIs(Dot, s, comma + 2, |city|);
  }

  /** Without a comma in the city the greedy split stops at the printed comma, however many the street
      has. */
  lemma SplitAtStreet(s: string, at: nat, street: string, city: string)
    requires AddressAt(s, at, street, city) && Trimmed(street) && Trimmed(city) && ',' !in city
    ensures var start := at + |LABEL| + 1;
            var comma := start + |street|;
            MatchAt(ADDRESS_TAIL, s, at + |LABEL|)
            == Some([start, comma, comma + 2, comma + 2 + |city|, comma + 2 + |city|])
  {
    AddressChars(s, at, street, city);
    hide Run, MatchAt;
    var start := at + |LABEL| + 1;
    var comma := start + |street|;
    var end := comma + 2 + |city|;
    CityMatches(s, comma + 1, 1, |city|);
    AddressPattern();
    hide ADDRESS_TAIL, CITY_TAIL;
    var p := [Mark] + ([One(Is(','))] + CITY_TAIL);
    StepOne(Is(','), CITY_TAIL, s, comma);
    StepMark([One(Is(','))] + CITY_TAIL, s, comma, [comma + 2, end, end]);
    assert [comma] + [comma + 2, end, end] == [comma, comma + 2, end, end];
    forall e | comma < e <= end ensures MatchAt(p, s, e) == None {
      if comma + 2 <= e < end {
        assert s[e] == city[e - comma - 2];
      }
      CommaNeeded(CITY_TAIL, s, e);
    }
    StepManyBack(Dot, 1, p, s, start, |street|, [comma, comma + 2, end, end]);
    StepMark([REST_OF_LINE] + p, s, start, [comma, comma + 2, end, end]);
    assert [start] + [comma, comma + 2, end, end] == [start, comma, comma + 2, end, end];
    StepMany(Space, 0, [Mark] + ([REST_OF_LINE] + p), s, at + |LABEL|, 1, [start, comma, comma + 2, end, end]);
  }

  lemma {:induction false} RunStopsBefore(k: Class, s: string, at: nat, j: nat)
    requires at <= j < |s| && !In(k, s[j])
    ensures at + Run(k, s, at) <= j
    ensures !In(k, s[at + Run(k, s, at)])
    decreases j - at
  {
    if at < j && In(k, s[at]) {
      RunStopsBefore(k, s, at + 1, j);
    }
  }

  /** A repetition never settles for less than a length that works. */
  lemma {:induction false} LongestAtLeast(p: Pattern, s: string, at: nat, n: nat, k: nat) returns (e: nat)
    requires p != [] && p[0].Many? && at + n <= |s| && p[0].least <= k <= n
    requires MatchAt(p[1..], s, at + k).Some?
    ensures at + k <= e <= at + n && MatchAt(p[1..], s, e).Some? && Longest(p, s, at, n) == MatchAt(p[1..], s, e)
    decreases n
  {
    if MatchAt(p[1..], s, at + n).None? {
      e := LongestAtLeast(p, s, at, n - 1, k);
    } else {
      e := at + n;
    }
  }

  const FROM_COMMA: Pattern := [Mark] + ([One(Is(','))] + CITY_TAIL)

  /** A split at any comma of the line would do: something follows it. */
  lemma SplitWorksAt(s: string, comma: nat, next: nat)
    requires comma < next < |s| && s[comma] == ',' && !IsSpace(s[next])
    ensures MatchAt(FROM_COMMA, s, comma).Some?
  {
    RunStopsBefore(Space, s, comma + 1, next);
    var spaces := Run(Space, s, comma + 1);
    var at := comma + 1 + spaces;
    assert at < |s| && In(Dot, s[at]);
    NonEmptyRun(Dot, s, at);
    CityMatches(s, comma + 1, spaces, Run(Dot, s, at));
    hide Run, MatchAt, CITY_TAIL;
    var cityMarks := MatchAt(CITY_TAIL, s, comma + 1).value;
    StepOne(Is(','), CITY_TAIL, s, comma);
    StepMark([One(Is(','))] + CITY_TAIL, s, comma, cityMarks);
  }

  /** With a comma in the city the split comes later: the first group reaches past the street. */
  lemma SplitPastStreet(s: string, at: nat, street: string, city: string, c: nat)
    requires AddressAt(s, at, street, city) && Trimmed(street) && Trimmed(city)
    requires c < |city| && city[c] == ','
    ensures var start := at + |LABEL| + 1;
            var m := MatchAt(ADDRESS_TAIL, s, at + |LABEL|);
            m.Some? && |m.value| == 5 && m.value[0] == start && start + |street| < m.value[1] <= |s|
  {
    AddressChars(s, at, street, city);
    hide Run, MatchAt, Longest, AddressAt;
    var start := at + |LABEL| + 1;
    var comma := start + |street|;
    var end := comma + 2 + |city|;
    var last := comma + 2 + c;
    assert s[last] == city[c];
    assert end + 1 < |s| && !IsSpace(s[end + 1]) by { AfterLine(s, at, street, city); }
    SplitWorksAt(s, last, end + 1);
    AddressPattern();
    hide ADDRESS_TAIL, CITY_TAIL;
    var q := [REST_OF_LINE] + FROM_COMMA;
    assert q[1..] == FROM_COMMA;
    var e := LongestAtLeast(q, s, start, end - start, last - start);
    ManyIsLongest(Dot, 1, FROM_COMMA, s, start);
    MarkFirst([One(Is(','))] + CITY_TAIL, s, e);
    AddressMarks(s, e);
    hide FROM_COMMA;
    var m := MatchAt(q, s, start).value;
    StepMark(q, s, start, m);
    StepMany(Space, 0, [Mark] + q, s, at + |LABEL|, 1, [start] + m);
  }

  lemma AfterLine(s: string, at: nat, street: string, city: string)
    requires AddressAt(s, at, street, city)
    ensures var end := at + |LABEL| + 1 + |street| + 2 + |city|; end + 1 < |s| && !IsSpace(s[end + 1])
  {
  }

  lemma NonEmptyRun(k: Class, s: string, at: nat)
    requires at < |s| && In(k, s[at])
    ensures Run(k, s, at) >= 1
  {
  }

  lemma ManyIsLongest(k: Class, least: nat, p: Pattern, s: string, at: nat)
    requires at <= |s|
    ensures MatchAt([Many(k, least)] + p, s, at) == Longest([Many(k, least)] + p, s, at, Run(k, s, at))
  {
  }

  lemma MarkFirst(p: Pattern, s: string, at: nat)
    requires at <= |s| && MatchAt([Mark] + p, s, at).Some?
    ensures MatchAt([Mark] + p, s, at).value != [] && MatchAt([Mark] + p, s, at).value[0] == at
  {
  }

  lemma AddressMarks(s: string, at: nat)
    requires at <= |s| && MatchAt(FROM_COMMA, s, at).Some?
    ensures |MatchAt(FROM_COMMA, s, at).value| == 4
  {
    hide MatchAt;
    MatchIsInside(FROM_COMMA, s, at);
  }

  lemma SixLines(a: string, b: string, c: string, d: string, more: seq<string>)
    requires more != []
    ensures Pdf.Join([a, b, c, d] + more) == a + "\n" + (b + "\n" + c) + "\n" + (d + ("\n" + Pdf.Join(more)))
  {
    assert [a, b, c, d] + more == [a] + ([b] + ([c] + ([d] + more)));
    hide Pdf.Join;
    JoinTwo(a, [b] + ([c] + ([d] + more)));
    JoinTwo(b, [c] + ([d] + more));
    JoinTwo(c, [d] + more);
    JoinTwo(d, more);
    var rest := d + "\n" + Pdf.Join(more);
    assert rest == d + ("\n" + Pdf.Join(more));
    assert b + "\n" + (c + "\n" + rest) == (b + "\n" + c) + "\n" + rest;
    assert a + "\n" + ((b + "\n" + c) + "\n" + rest) == a + "\n" + (b + "\n" + c) + "\n" + rest;
  }

  lemma IdentityHeadClean(names: string, date: string)
    requires Clean(LABEL, names) && Clean(LABEL, date)
    ensures Clean(LABEL, ID_TITLE + "\n" + (("Name: " + names) + "\n" + ("Date of birth: " + date)))
  {
    TitleHasNoLabel();
    hide Clean, ID_TITLE;
    StartClean(LABEL, "Name: ", names);
    StartClean(LABEL, "Date of birth: ", date);
    var a, b := "Name: " + names, "Date of birth: " + date;
    LinesClean(LABEL, a, b);
    LinesClean(LABEL, ID_TITLE, a + "\n" + b);
  }

  lemma TitleHasNoLabel()
    ensures Clean(LABEL, ID_TITLE)
  {
    assert Clean(LABEL, "");
    hide Clean;
    assert ID_TITLE + "" == ID_TITLE;
    StartClean(LABEL, ID_TITLE, "");
  }

  /** The text around a printed address line. */
  lemma AddressPlaced(head: string, street: string, city: string, more: string)
    requires more != "" && !IsSpace(more[0])
    ensures var s := head + "\n" + ("Address: " + street + ", " + city + ("\n" + more));
            OccursAt(LABEL, s, |head| + 1) && AddressAt(s, |head| + 1, street, city)
  {
    var front := head + "\n";
    var line := "Address: " + street + ", " + city;
    var s := front + (line + ("\n" + more));
    assert s == front + LABEL + (" " + street + ", " + city + "\n" + more) by {
      assert line == LABEL + (" " + street + ", " + city);
    }
    var start := |front| + |LABEL| + 1;
    var lead := front + LABEL + " ";
    assert s == lead + street + (", " + city + "\n" + more);
    assert s == (lead + street + ", ") + city + ("\n" + more);
    assert s[start..start + |street|] == street;
    var cityStart := start + |street| + 2;
    assert s[cityStart..cityStart + |city|] == city;
    assert s[|front|..|front| + |LABEL|] == LABEL;
  }

  lemma {:induction false} StripRightKeeps(s: string, i: nat)
    requires i < |s| && !IsSpace(s[i])
    ensures |StripRight(s)| > i
    decreases |s|
  {
    if IsSpace(s[|s| - 1]) {
      StripRightKeeps(s[..|s| - 1], i);
    }
  }

  lemma TrimmedStrips(s: string)
    requires Trimmed(s)
    ensures Strip(s) == s
  {
  }

  /** Stripping what starts like a trimmed street and goes on past a comma leaves more than the
      street. */
  lemma LongerStrips(s: string, street: string)
    requires Trimmed(street) && |street| < |s| && s[..|street|] == street && s[|street|] == ','
    ensures Strip(s) != street
  {
    assert s[0] == street[0];
    assert StripLeft(s) == s;
    StripRightKeeps(s, |street|);
  }

  lemma FoundOnePage(page: PageText, p: Pattern, m: seq<nat>)
    requires Search(p, page.text, 0) == Some(m)
    ensures FirstFound([page], p) == Some(Found(page, m))
  {
  }

  lemma ReadsStreet(text: string, at: nat, street: string, city: string, page: int, checksum: string)
    requires AddressAt(text, at, street, city) && Trimmed(street) && Trimmed(city) && ',' !in city
    requires OccursAt(LABEL, text, at) && NotBefore(LABEL, text, at)
    ensures AddressFacts(FirstFound([PageText(page, text)], ADDRESS), checksum)
            == [Fact(StreetAddress, street, street, page, checksum), Fact(City, city, city, page, checksum)]
  {
    SplitAtStreet(text, at, street, city);
    hide Search, MatchAt, OccursAt, Strip, Trimmed, IsSpace, NotBefore, FirstFound;
    var start := at + |LABEL| + 1;
    var comma := start + |street|;
    var m := [start, comma, comma + 2, comma + 2 + |city|, comma + 2 + |city|];
    LabelledFound(LABEL, ADDRESS_TAIL, text, at, m);
    FoundOnePage(PageText(page, text), ADDRESS, m);
    hide ADDRESS, ADDRESS_TAIL;
    TrimmedStrips(street);
    TrimmedStrips(city);
  }

  lemma ReadsMore(text: string, at: nat, street: string, city: string, c: nat, page: int, checksum: string)
    requires AddressAt(text, at, street, city) && Trimmed(street) && Trimmed(city) && c < |city| && city[c] == ','
    requires OccursAt(LABEL, text, at) && NotBefore(LABEL, text, at)
    ensures AddressFacts(FirstFound([PageText(page, text)], ADDRESS), checksum)
            != [Fact(StreetAddress, street, street, page, checksum), Fact(City, city, city, page, checksum)]
  {
    hide Search, MatchAt, OccursAt, Strip, Trimmed, IsSpace, NotBefore, FirstFound, AddressAt, Piece;
    SplitPastStreet(text, at, street, city, c);
    var m := MatchAt(ADDRESS_TAIL, text, at + |LABEL|).value;
    LabelledFound(LABEL, ADDRESS_TAIL, text, at, m);
    FoundOnePage(PageText(page, text), ADDRESS, m);
    MatchIsInside(ADDRESS_TAIL, text, at + |LABEL|);
    hide ADDRESS, ADDRESS_TAIL;
    LateSplit(text, at, street, city, m[1]);
    PieceIsGroup(PageText(page, text), m);
  }

  /** The address facts of a one-page document whose first label is an address line. */
  lemma AddressRead(text: string, at: nat, street: string, city: string, page: int, checksum: string)
    requires AddressAt(text, at, street, city) && Trimmed(street) && Trimmed(city)
    requires OccursAt(LABEL, text, at) && NotBefore(LABEL, text, at)
    ensures AddressFacts(FirstFound([PageText(page, text)], ADDRESS), checksum)
            == [Fact(StreetAddress, street, street, page, checksum), Fact(City, city, city, page, checksum)]
            <==> ',' !in city
  {
    hide AddressAt, Trimmed, OccursAt, NotBefore, AddressFacts, FirstFound;
    if ',' !in city {
      ReadsStreet(text, at, street, city, page, checksum);
    } else {
      var c :| 0 <= c < |city| && city[c] == ',';
      ReadsMore(text, at, street, city, c, page, checksum);
    }
  }

  lemma LateSplit(text: string, at: nat, street: string, city: string, e: nat)
    requires AddressAt(text, at, street, city) && Trimmed(street)
    requires at + |LABEL| + 1 + |street| < e <= |text|
    ensures Strip(text[at + |LABEL| + 1..e]) != street
  {
    hide Trimmed, Strip;
    var start := at + |LABEL| + 1;
    var piece := text[start..e];
    assert piece[..|street|] == text[start..start + |street|];
    assert piece[|street|] == text[start + |street|];
    LongerStrips(piece, street);
  }

  lemma PieceIsGroup(page: PageText, m: seq<nat>)
    requires |m| == 5 && Positions(m, 0, |page.text|)
    ensures Piece(Found(page, m), 0) == page.text[m[0]..m[1]]
  {
  }

  /** The address round trip through the printed identity document: street and city are read off exactly
      as printed if and only if the city has no comma. The street may have any number of them. */
  lemma IdentityGivesAddressIff(givenName: string, familyName: string, dateOfBirth: string, street: string, city: string,
                                syntheticId: string, page: int, checksum: string)
    requires Clean(LABEL, givenName + " " + familyName) && Clean(LABEL, dateOfBirth)
    requires Trimmed(street) && Trimmed(city)
    ensures var lines := IdentityLines(givenName, familyName, dateOfBirth, street, city, syntheticId);
            var found := FirstFound([PageText(page, Pdf.Join(lines))], ADDRESS);
            AddressFacts(found, checksum)
            == [Fact(StreetAddress, street, street, page, checksum), Fact(City, city, city, page, checksum)]
            <==> ',' !in city
  {
    hide FirstFound, Pdf.Join, Clean, Trimmed, AddressFacts, AddressAt, NotBefore, OccursAt, IsSpace;
    var lines := IdentityLines(givenName, familyName, dateOfBirth, street, city, syntheticId);
    var names, more := givenName + " " + familyName, [lines[4], lines[5]];
    assert lines == [lines[0], lines[1], lines[2], lines[3]] + more;
    SixLines(lines[0], lines[1], lines[2], lines[3], more);
    assert lines[1] == "Name: " + names;
    IdentityHeadClean(names, dateOfBirth);
    var head := lines[0] + "\n" + (lines[1] + "\n" + lines[2]);
    assert Pdf.Join(more) != "" && !IsSpace(Pdf.Join(more)[0]) by { LastLines(syntheticId); }
    AddressPlaced(head, street, city, Pdf.Join(more));
    var text := Pdf.Join(lines);
    assert text == head + "\n" + (lines[3] + ("\n" + Pdf.Join(more)));
    NotBeforeLine(LABEL, head, "", lines[3] + ("\n" + Pdf.Join(more)));
    assert head + "\n" + "" == head + "\n";
    AddressRead(text, |head| + 1, street, city, page, checksum);
  }

  lemma LastLines(syntheticId: string)
    ensures var more := ["Synthetic ID: " + syntheticId, SYNTHETIC_NOTE];
            Pdf.Join(more) != "" && !IsSpace(Pdf.Join(more)[0])
  {
  }
}
