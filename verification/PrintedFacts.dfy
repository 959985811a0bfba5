/** Printing, then extracting, gives back every printed field: the whole fact list of a printed pay stub
    and of a printed identity document. */
module PrintedFacts {
  import opened Prelude
  import opened Regex
  import opened Extractor
  import opened PrintedDocuments
  import Decimal
  import Income
  import Pdf

  lemma MissingChar(tag: string, s: string, k: nat)
    requires k < |tag| && tag[k] !in s
    ensures Clean(tag, s)
  {
    forall i | 0 <= i <= |s| ensures !OccursAt(tag, s, i) {
      if OccursAt(tag, s, i) {
        CharAt(tag, s, i, k);
        assert false;
      }
    }
  }

  /** A word: no white space, no colon. */
  predicate Word(s: string)
  {
    s != "" && forall i :: 0 <= i < |s| ==> !IsSpace(s[i])
  }

  /** A piece of text and the class that reads just it. */
  lemma RunOver(k: Class, s: string, at: nat, piece: string)
    requires OccursAt(piece, s, at)
    requires forall i :: 0 <= i < |piece| ==> In(k, piece[i])
    requires at + |piece| == |s| || !In(k, s[at + |piece|])
    ensures Run(k, s, at) == |piece|
  {
    forall i | at <= i < at + |piece| ensures In(k, s[i]) {
      assert s[at..at + |piece|][i - at] == s[i];
    }
    RunIs(k, s, at, |piece|);
  }

  // ---- Pay stub ---------------------------------------------------------------------------------

  lemma EmployerTail()
    ensures NAME_TAIL == CITY_TAIL
  {
  }

  /** The employer's name runs to the end of the first line. */
  lemma EmployerFound(employer: string, rest: string)
    requires Trimmed(employer) && rest != "" && rest[0] == '\n'
    ensures var s := "SYNTHETIC PAY STUB -- " + employer + rest;
            Search(EMPLOYER_NAME, s, 0) == Some([22, 22 + |employer|, 22 + |employer|])
            && s[22..22 + |employer|] == employer
  {
    var s := "SYNTHETIC PAY STUB -- " + employer + rest;
    assert OccursAt("SYNTHETIC PAY STUB", s, 0);
    assert s[18] == ' ' && s[19] == '-' && s[20] == '-' && s[21] == ' ';
    assert OccursAt("--", s, 19);
    assert s[22..22 + |employer|] == employer;
    assert s[22] == employer[0] && s[22 + |employer|] == '\n';
    hide MatchAt, Run, Search, Text, OccursAt;
    RunIs(Space, s, 18, 1);
    RunIs(Space, s, 21, 1);
    assert OccursAt(employer, s, 22) by { SliceIs(s, 22, employer); }
    RunOver(Dot, s, 22, employer);
    EmployerTail();
    hide NAME_TAIL, CITY_TAIL;
    CityMatches(s, 21, 1, |employer|);
    var m := [22, 22 + |employer|, 22 + |employer|];
    TextMatches("--", NAME_TAIL, s, 19);
    StepMany(Space, 0, Text("--") + NAME_TAIL, s, 18, 1, m);
    TextMatches("SYNTHETIC PAY STUB", [SPACES] + (Text("--") + NAME_TAIL), s, 0);
    SearchFinds(EMPLOYER_NAME, s, 0, 0, m);
  }

  lemma Stands(before: string, piece: string, after: string)
    ensures OccursAt(piece, before + piece + after, |before|)
  {
    var s := before + piece + after;
    assert s[|before|..|before| + |piece|] == piece;
  }

  lemma StandsWithin(whole: string, s: string, at: nat, i: nat, piece: string)
    requires OccursAt(whole, s, at) && OccursAt(piece, whole, i)
    ensures OccursAt(piece, s, at + i)
  {
    forall k | 0 <= k < |piece| ensures s[at + i + k] == piece[k] {
      CharAt(whole, s, at, i + k);
      CharAt(piece, whole, i, k);
    }
    assert s[at + i..at + i + |piece|] == piece;
  }

  lemma SliceIs(s: string, at: nat, piece: string)
    requires at + |piece| <= |s| && s[at..at + |piece|] == piece
    ensures OccursAt(piece, s, at)
  {
  }

  /** A line that begins with a label, below lines the label does not occur in. */
  lemma LabelPlaced(tag: string, head: string, body: string)
    requires tag != "" && '\n' !in tag && Clean(tag, head)
    ensures var s := head + "\n" + (tag + body);
            OccursAt(tag, s, |head| + 1) && NotBefore(tag, s, |head| + 1)
  {
    hide Clean, NotBefore, OccursAt;
    NotBeforeLine(tag, head, "", tag + body);
    Stands(head + "\n", tag, body);
    assert head + "\n" + "" == head + "\n";
    assert head + "\n" + (tag + body) == head + "\n" + tag + body;
  }

  /** What stands behind the label of that line. */
  lemma BodyPlaced(tag: string, head: string, before: string, piece: string, after: string)
    ensures var s := head + "\n" + (tag + (before + piece + after));
            OccursAt(piece, s, |head| + 1 + |tag| + |before|)
  {
    hide OccursAt;
    Stands(before, piece, after);
    var body := before + piece + after;
    Stands(head + "\n" + tag, body, "");
    assert head + "\n" + (tag + body) == head + "\n" + tag + body + "";
    StandsWithin(body, head + "\n" + (tag + body), |head| + 1 + |tag|, |before|, piece);
  }

  lemma OccursSlice(piece: string, s: string, at: nat)
    requires OccursAt(piece, s, at)
    ensures at + |piece| <= |s| && s[at..at + |piece|] == piece
  {
  }

  lemma NumberPattern()
    ensures NUMBER_TAIL + Text("months")
            == [SPACES] + ([Mark] + ([Many(Digit, 1)] + ([Mark] + ([SPACES] + Text("months")))))
  {
  }

  lemma NumberRuns(s: string, at: nat, digits: string)
    requires digits != "" && Decimal.AllDigits(digits)
    requires OccursAt(" " + digits + " months", s, at)
    ensures at + 1 + |digits| + 7 <= |s| && s[at + 1..at + 1 + |digits|] == digits
    ensures Run(Space, s, at) == 1 && Run(Digit, s, at + 1) == |digits| && Run(Space, s, at + 1 + |digits|) == 1
    ensures OccursAt("months", s, at + 2 + |digits|)
  {
    NumberPlaced(s, at, digits);
    hide Run, OccursAt;
    RunIs(Space, s, at, 1);
    SliceIs(s, at + 1, digits);
    forall i | 0 <= i < |digits| ensures In(Digit, digits[i]) {
      DigitClass(digits[i]);
    }
    RunOver(Digit, s, at + 1, digits);
    RunIs(Space, s, at + 1 + |digits|, 1);
    SliceIs(s, at + 2 + |digits|, "months");
  }

  lemma MonthsMatch(s: string, at: nat)
    requires OccursAt("months", s, at)
    ensures at + 6 <= |s| && MatchAt(Text("months"), s, at) == Some([at + 6])
  {
    hide MatchAt, Text;
    assert at + 6 <= |s|;
    assert Text("months") + [] == Text("months");
    TextMatches("months", [], s, at);
    EmptyMatches(s, at + 6);
  }

  /** A number after its label, followed by its unit. */
  lemma NumberMatches(s: string, at: nat, digits: string)
    requires digits != "" && Decimal.AllDigits(digits)
    requires OccursAt(" " + digits + " months", s, at)
    ensures MatchAt(NUMBER_TAIL + Text("months"), s, at)
            == Some([at + 1, at + 1 + |digits|, at + 1 + |digits| + 7])
    ensures s[at + 1..at + 1 + |digits|] == digits
  {
    var start, end := at + 1, at + 1 + |digits|;
    NumberPattern();
    hide MatchAt, Run, Text, OccursAt, NUMBER_TAIL;
    NumberRuns(s, at, digits);
    MonthsMatch(s, end + 1);
    StepMany(Space, 0, Text("months"), s, end, 1, [end + 7]);
    StepMark([SPACES] + Text("months"), s, end, [end + 7]);
    var p := [Mark] + ([SPACES] + Text("months"));
    assert [end] + [end + 7] == [end, end + 7];
    StepMany(Digit, 1, p, s, start, |digits|, [end, end + 7]);
    StepMark([Many(Digit, 1)] + p, s, start, [end, end + 7]);
    assert [start] + [end, end + 7] == [start, end, end + 7];
    StepMany(Space, 0, [Mark] + ([Many(Digit, 1)] + p), s, at, 1, [start, end, end + 7]);
  }

  lemma EmptyMatches(s: string, at: nat)
    requires at <= |s|
    ensures MatchAt([], s, at) == Some([at])
  {
  }

  lemma NumberPlaced(s: string, at: nat, digits: string)
    requires digits != "" && Decimal.AllDigits(digits)
    requires OccursAt(" " + digits + " months", s, at)
    ensures at + 1 + |digits| + 7 <= |s|
    ensures s[at] == ' ' && !IsSpace(s[at + 1]) && s[at + 1..at + 1 + |digits|] == digits
    ensures s[at + 1 + |digits|] == ' ' && s[at + 2 + |digits|] == 'm'
    ensures s[at + 2 + |digits|..at + 8 + |digits|] == "months"
  {
    var whole := " " + digits + " months";
    Stands(" ", digits, " months");
    StandsWithin(whole, s, at, 1, digits);
    assert OccursAt("months", whole, 2 + |digits|) by {
      Stands(" " + digits + " ", "months", "");
      assert whole == " " + digits + " " + "months" + "";
    }
    StandsWithin(whole, s, at, 2 + |digits|, "months");
    CharAt(whole, s, at, 0);
    CharAt(digits, s, at + 1, 0);
    CharAt(whole, s, at, 1 + |digits|);
    CharAt("months", s, at + 2 + |digits|, 0);
    DigitClass(digits[0]);
  }

  predicate IsAmount(s: string)
  {
    forall i :: 0 <= i < |s| ==> Decimal.IsDigit(s[i]) || s[i] == ',' || s[i] == '.'
  }

  lemma PrintedIsAmount(cents: nat)
    ensures IsAmount(Income.Printed(cents))
  {
    var dollars, decimals := PrintedParts(cents);
    forall i | 0 <= i < |Income.Printed(cents)|
      ensures var c := Income.Printed(cents)[i]; Decimal.IsDigit(c) || c == ',' || c == '.'
    {
      if i < |dollars| {
        assert Income.Printed(cents)[i] == dollars[i];
      } else if i > |dollars| {
        assert Income.Printed(cents)[i] == decimals[i - |dollars| - 1];
      }
    }
  }

  const TENURE_LABEL := "Tenure:"

  /** A start that cannot share an occurrence of a label with what follows. */
  lemma StartClear(tag: string, start: string, body: string)
    requires |tag| >= 2 && start != "" && tag[1] !in start && tag[0] != start[|start| - 1] && Clean(tag, body)
    ensures Clean(tag, start + body)
  {
    forall i | 0 <= i <= |start + body| ensures !OccursAt(tag, start + body, i) {
      if OccursAt(tag, start + body, i) {
        CharAt(tag, start + body, i, 0);
        CharAt(tag, start + body, i, 1);
        if i >= |start| {
          assert (start + body)[i..i + |tag|] == body[i - |start|..i - |start| + |tag|];
          assert OccursAt(tag, body, i - |start|);
        }
        assert false;
      }
    }
  }

  lemma StubLabelsClean(employer: string, names: string, amount: string)
    requires Clean(TENURE_LABEL, employer) && Clean(TENURE_LABEL, names) && IsAmount(amount)
    ensures Clean(TENURE_LABEL, "SYNTHETIC PAY STUB -- " + employer)
    ensures Clean(TENURE_LABEL, "Employee: " + names)
    ensures Clean(TENURE_LABEL, "Pay period: Monthly    Gross pay: $" + amount)
  {
    hide Clean;
    StartClear(TENURE_LABEL, "SYNTHETIC PAY STUB -- ", employer);
    StartClean(TENURE_LABEL, "Employee: ", names);
    AmountLineClean(amount);
  }

  lemma AmountLineClean(amount: string)
    requires IsAmount(amount)
    ensures Clean(TENURE_LABEL, "Pay period: Monthly    Gross pay: $" + amount)
  {
    assert 'T' !in amount;
    MissingChar(TENURE_LABEL, "Pay period: Monthly    Gross pay: $" + amount, 0);
  }

  /** The facts of one page for a pattern that matches it. */
  lemma OneGroupRead(page: PageText, p: Pattern, m: seq<nat>, checksum: string, piece: string)
    requires Search(p, page.text, 0) == Some(m) && |m| == 3 && m[0] <= m[1] <= m[2] <= |page.text|
    requires page.text[m[0]..m[1]] == piece
    ensures FirstFound([page], p) == Some(Found(page, m)) && Piece(Found(page, m), 0) == piece
  {
    hide Search;
    FoundOnePage(page, p, m);
  }

  lemma TenureFound(head: string, tenure: nat, rest: string)
    requires Clean(TENURE_LABEL, head)
    ensures var s := head + "\n" + ("Tenure: " + Decimal.Show(tenure) + " months" + rest);
            var start := |head| + 9;
            var end := start + |Decimal.Show(tenure)|;
            && Search(TENURE, s, 0) == Some([start, end, end + 7]) && end + 7 <= |s|
            && s[start..end] == Decimal.Show(tenure)
  {
    hide Decimal.Show, MatchAt, Search, Text, Clean, NotBefore, OccursAt, NUMBER_TAIL;
    var digits := Decimal.Show(tenure);
    var s := head + "\n" + ("Tenure: " + digits + " months" + rest);
    var at := |head| + 1;
    ghost var number := " " + digits + " months";
    assert "Tenure: " + digits + " months" + rest == TENURE_LABEL + ("" + number + rest);
    LabelPlaced(TENURE_LABEL, head, "" + number + rest);
    BodyPlaced(TENURE_LABEL, head, "", number, rest);
    OccursSlice(number, s, at + 7);
    NumberPlaced(s, at + 7, digits);
    NumberMatches(s, at + 7, digits);
    LabelledFound(TENURE_LABEL, NUMBER_TAIL + Text("months"), s, at, [at + 8, at + 8 + |digits|, at + 8 + |digits| + 7]);
  }

  /** Every field of a printed pay stub comes back: unless the employer or a name spells a label of the
      stub, extracting from its page gives the employer, the printed amount and the tenure, and nothing
      else. */
  lemma PayStubRoundTrip(employer: string, givenName: string, familyName: string, annual: nat, tenure: nat, page: int,
                         checksum: string)
    requires Trimmed(employer) && Clean(GROSS, employer) && Clean(TENURE_LABEL, employer)
    requires Clean(GROSS, givenName + " " + familyName) && Clean(TENURE_LABEL, givenName + " " + familyName)
    ensures var pages := [PageText(page, Pdf.Join(PayStubLines(employer, givenName, familyName, annual, tenure)))];
            var amount := Income.Printed(Income.MonthlyCents(annual));
            IncomeProofFacts(pages, checksum) ==
              [Fact(EmployerName, employer, employer, page, checksum),
               Fact(GrossMonthlyIncome, amount, Income.RemoveCommas(amount), page, checksum),
               Fact(TenureMonths, Decimal.Show(tenure), Decimal.Show(tenure), page, checksum)]
  {
    hide FirstFound, Pdf.Join, Decimal.Show, Income.Printed, Income.MonthlyCents, Income.RemoveCommas, Piece, Search, Clean,
      EMPLOYER_NAME, GROSS_PAY, TENURE, GrossFacts, Strip, Trimmed;
    var lines := PayStubLines(employer, givenName, familyName, annual, tenure);
    var text := Pdf.Join(lines);
    var names, amount := givenName + " " + familyName, Income.Printed(Income.MonthlyCents(annual));
    assert lines == [lines[0], lines[1], lines[2], lines[3], lines[4]];
    FiveLines(lines[0], lines[1], lines[2], lines[3], lines[4]);
    PrintedIsAmount(Income.MonthlyCents(annual));
    StubLabelsClean(employer, names, amount);
    PayStubGivesIncome(employer, givenName, familyName, annual, tenure, page, checksum);
    EmployerFound(employer, "\n" + Pdf.Join([lines[1], lines[2], lines[3], lines[4]]));
    OneGroupRead(PageText(page, text), EMPLOYER_NAME, [22, 22 + |employer|, 22 + |employer|], checksum, employer);
    TrimmedStrips(employer);
    assert lines[1] == "Employee: " + names;
    LinesClean(TENURE_LABEL, lines[1], lines[2]);
    LinesClean(TENURE_LABEL, lines[0], lines[1] + "\n" + lines[2]);
    var head := lines[0] + "\n" + (lines[1] + "\n" + lines[2]);
    TenureFound(head, tenure, "\n" + lines[4]);
    var start := |head| + 9;
    var end := start + |Decimal.Show(tenure)|;
    OneGroupRead(PageText(page, text), TENURE, [start, end, end + 7], checksum, Decimal.Show(tenure));
  }

  // ---- Identity document ------------------------------------------------------------------------

  const NAME_LABEL := "Name:"
  const DATE_LABEL := "Date of birth:"
  const ID_LABEL := "Synthetic ID:"

  lemma WordsPattern()
    ensures TWO_WORDS_TAIL == [SPACES] + ([Mark] + ([Many(NonSpace, 1)] + ([Mark] + ([Many(Space, 1)]
                              + ([Mark] + ([Many(NonSpace, 1)] + [Mark]))))))
  {
  }

  /** Two words after a label, up to the end of the line. */
  lemma WordsMatch(s: string, at: nat, first: string, second: string)
    requires Word(first) && Word(second)
    requires at + 2 + |first| + |second| < |s|
    requires s[at] == ' ' && OccursAt(first, s, at + 1) && s[at + 1 + |first|] == ' '
    requires OccursAt(second, s, at + 2 + |first|) && s[at + 2 + |first| + |second|] == '\n'
    ensures var a, b := at + 1, at + 2 + |first|;
            MatchAt(TWO_WORDS_TAIL, s, at) == Some([a, a + |first|, b, b + |second|, b + |second|])
  {
    var a, b, end := at + 1, at + 2 + |first|, at + 2 + |first| + |second|;
    WordRuns(s, at, first, second);
    WordsPattern();
    hide MatchAt, Run, OccursAt, TWO_WORDS_TAIL;
    EndMatches(s, end);
    StepMany(NonSpace, 1, [Mark], s, b, |second|, [end, end]);
    StepMark([Many(NonSpace, 1)] + [Mark], s, b, [end, end]);
    assert [b] + [end, end] == [b, end, end];
    var p := [Mark] + ([Many(NonSpace, 1)] + [Mark]);
    StepMany(Space, 1, p, s, a + |first|, 1, [b, end, end]);
    StepMark([Many(Space, 1)] + p, s, a + |first|, [b, end, end]);
    assert [a + |first|] + [b, end, end] == [a + |first|, b, end, end];
    var q := [Mark] + ([Many(Space, 1)] + p);
    StepMany(NonSpace, 1, q, s, a, |first|, [a + |first|, b, end, end]);
    StepMark([Many(NonSpace, 1)] + q, s, a, [a + |first|, b, end, end]);
    assert [a] + [a + |first|, b, end, end] == [a, a + |first|, b, end, end];
    StepMany(Space, 0, [Mark] + ([Many(NonSpace, 1)] + q), s, at, 1, [a, a + |first|, b, end, end]);
  }

  lemma WordRuns(s: string, at: nat, first: string, second: string)
    requires Word(first) && Word(second) && at + 2 + |first| + |second| < |s|
    requires s[at] == ' ' && OccursAt(first, s, at + 1) && s[at + 1 + |first|] == ' '
    requires OccursAt(second, s, at + 2 + |first|) && s[at + 2 + |first| + |second|] == '\n'
    ensures Run(Space, s, at) == 1 && Run(NonSpace, s, at + 1) == |first|
    ensures Run(Space, s, at + 1 + |first|) == 1 && Run(NonSpace, s, at + 2 + |first|) == |second|
  {
    hide Run;
    CharAt(first, s, at + 1, 0);
    CharAt(second, s, at + 2 + |first|, 0);
    hide OccursAt;
    RunIs(Space, s, at, 1);
    RunOver(NonSpace, s, at + 1, first);
    RunIs(Space, s, at + 1 + |first|, 1);
    RunOver(NonSpace, s, at + 2 + |first|, second);
  }

  predicate IsDate(s: string)
  {
    && |s| == 10 && s[4] == '-' && s[7] == '-'
    && forall i :: 0 <= i < 10 && i != 4 && i != 7 ==> Decimal.IsDigit(s[i])
  }

  /** Single characters one after another. */
  lemma {:induction false} ExactMatches(p: Pattern, rest: Pattern, s: string, at: nat)
    requires at + |p| <= |s| && forall i :: 0 <= i < |p| ==> p[i].One? && In(p[i].k, s[at + i])
    ensures MatchAt(p + rest, s, at) == MatchAt(rest, s, at + |p|)
    decreases |p|
  {
    if p == [] {
      assert p + rest == rest;
    } else {
      assert p + rest == [One(p[0].k)] + (p[1..] + rest);
      StepOne(p[0].k, p[1..] + rest, s, at);
      forall i | 0 <= i < |p[1..]| ensures p[1..][i].One? && In(p[1..][i].k, s[at + 1 + i]) {
        assert p[1..][i] == p[i + 1];
      }
      ExactMatches(p[1..], rest, s, at + 1);
    }
  }

  lemma DatePattern()
    ensures DATE_TAIL == [SPACES] + ([Mark] + (DATE + [Mark])) && |DATE| == 10
    ensures forall i :: 0 <= i < 10 ==> DATE[i] == One(if i == 4 || i == 7 then Is('-') else Digit)
  {
    assert [SPACES, Mark] == [SPACES] + [Mark];
  }

  lemma DateMatches(s: string, at: nat, date: string)
    requires IsDate(date) && at + 11 <= |s| && s[at] == ' ' && OccursAt(date, s, at + 1)
    ensures MatchAt(DATE_TAIL, s, at) == Some([at + 1, at + 11, at + 11])
  {
    hide MatchAt, Run;
    DatePattern();
    hide DATE, DATE_TAIL;
    forall i | 0 <= i < 10 ensures DATE[i].One? && In(DATE[i].k, s[at + 1 + i]) {
      CharAt(date, s, at + 1, i);
      if i != 4 && i != 7 {
        DigitClass(date[i]);
      }
    }
    CharAt(date, s, at + 1, 0);
    DigitClass(date[0]);
    RunIs(Space, s, at, 1);
    EndMatches(s, at + 11);
    ExactMatches(DATE, [Mark], s, at + 1);
    StepMark(DATE + [Mark], s, at + 1, [at + 11, at + 11]);
    assert [at + 1] + [at + 11, at + 11] == [at + 1, at + 11, at + 11];
    StepMany(Space, 0, [Mark] + (DATE + [Mark]), s, at, 1, [at + 1, at + 11, at + 11]);
  }

  /** Letters, digits, underscores and dashes. */
  predicate IsId(s: string)
  {
    s != "" && forall i :: 0 <= i < |s| ==> In(WordOrDash, s[i]) && !IsSpace(s[i])
  }

  lemma IdMatches(s: string, at: nat, id: string)
    requires IsId(id) && at + 1 + |id| < |s| && s[at] == ' ' && OccursAt(id, s, at + 1) && s[at + 1 + |id|] == '\n'
    ensures MatchAt(ID_TAIL, s, at) == Some([at + 1, at + 1 + |id|, at + 1 + |id|])
  {
    hide MatchAt, Run;
    CharAt(id, s, at + 1, 0);
    RunIs(Space, s, at, 1);
    RunOver(WordOrDash, s, at + 1, id);
    hide OccursAt;
    var end := at + 1 + |id|;
    assert ID_TAIL == [SPACES] + ([Mark] + ([Many(WordOrDash, 1)] + [Mark]));
    EndMatches(s, end);
    StepMany(WordOrDash, 1, [Mark], s, at + 1, |id|, [end, end]);
    StepMark([Many(WordOrDash, 1)] + [Mark], s, at + 1, [end, end]);
    assert [at + 1] + [end, end] == [at + 1, end, end];
    StepMany(Space, 0, [Mark] + ([Many(WordOrDash, 1)] + [Mark]), s, at, 1, [at + 1, end, end]);
  }

  lemma NamesFound(head: string, first: string, second: string, rest: string)
    requires Clean(NAME_LABEL, head) && Word(first) && Word(second) && rest != "" && rest[0] == '\n'
    ensures var s := head + "\n" + ("Name: " + first + " " + second + rest);
            var a := |head| + 7;
            var b := a + |first| + 1;
            && Search(IDENTITY_NAME, s, 0) == Some([a, a + |first|, b, b + |second|, b + |second|])
            && b + |second| <= |s| && s[a..a + |first|] == first && s[b..b + |second|] == second
  {
    hide MatchAt, Search, Text, Clean, NotBefore, OccursAt, TWO_WORDS_TAIL, Word;
    var s := head + "\n" + ("Name: " + first + " " + second + rest);
    var at := |head| + 1;
    var a, b := at + 6, at + 7 + |first|;
    ghost var body := " " + first + (" " + second + rest);
    assert "Name: " + first + " " + second + rest == NAME_LABEL + body;
    LabelPlaced(NAME_LABEL, head, body);
    BodyPlaced(NAME_LABEL, head, " ", first, " " + second + rest);
    assert body == " " + first + " " + second + rest;
    BodyPlaced(NAME_LABEL, head, " " + first + " ", second, rest);
    OccursSlice(first, s, a);
    OccursSlice(second, s, b);
    WordsMatch(s, at + 5, first, second);
    LabelledFound(NAME_LABEL, TWO_WORDS_TAIL, s, at, [a, a + |first|, b, b + |second|, b + |second|]);
  }

  lemma DateFound(head: string, date: string, rest: string)
    requires Clean(DATE_LABEL, head) && IsDate(date)
    ensures var s := head + "\n" + ("Date of birth: " + date + rest);
            var a := |head| + 16;
            && Search(DATE_OF_BIRTH, s, 0) == Some([a, a + 10, a + 10]) && a + 10 <= |s| && s[a..a + 10] == date
  {
    hide MatchAt, Search, Text, Clean, NotBefore, OccursAt, DATE_TAIL;
    var s := head + "\n" + ("Date of birth: " + date + rest);
    var at := |head| + 1;
    assert "Date of birth: " + date + rest == DATE_LABEL + (" " + date + rest);
    LabelPlaced(DATE_LABEL, head, " " + date + rest);
    BodyPlaced(DATE_LABEL, head, " ", date, rest);
    OccursSlice(date, s, at + 15);
    DateMatches(s, at + 14, date);
    LabelledFound(DATE_LABEL, DATE_TAIL, s, at, [at + 15, at + 25, at + 25]);
  }

  lemma IdFound(head: string, id: string, rest: string)
    requires Clean(ID_LABEL, head) && IsId(id) && rest != "" && rest[0] == '\n'
    ensures var s := head + "\n" + ("Synthetic ID: " + id + rest);
            var a := |head| + 15;
            && Search(SYNTHETIC_ID, s, 0) == Some([a, a + |id|, a + |id|]) && a + |id| <= |s| && s[a..a + |id|] == id
  {
    hide MatchAt, Search, Text, Clean, NotBefore, OccursAt, ID_TAIL, IsId;
    var s := head + "\n" + ("Synthetic ID: " + id + rest);
    var at := |head| + 1;
    assert "Synthetic ID: " + id + rest == ID_LABEL + (" " + id + rest);
    LabelPlaced(ID_LABEL, head, " " + id + rest);
    BodyPlaced(ID_LABEL, head, " ", id, rest);
    OccursSlice(id, s, at + 14);
    IdMatches(s, at + 13, id);
    LabelledFound(ID_LABEL, ID_TAIL, s, at, [at + 14, at + 14 + |id|, at + 14 + |id|]);
  }

  /** The text of six lines, seen from the second, the third and the fifth. */
  lemma DocumentLines(a: string, b: string, c: string, d: string, e: string, f: string)
    ensures var text := Pdf.Join([a, b, c, d, e, f]);
            && text == a + "\n" + (b + ("\n" + Pdf.Join([c, d, e, f])))
            && text == (a + "\n" + b) + "\n" + (c + ("\n" + Pdf.Join([d, e, f])))
            && text == (a + "\n" + (b + "\n" + (c + "\n" + d))) + "\n" + (e + ("\n" + f))
  {
    assert [a, b, c, d, e, f] == [a] + [b, c, d, e, f] && [b, c, d, e, f] == [b] + [c, d, e, f]
        && [c, d, e, f] == [c] + [d, e, f] && [d, e, f] == [d] + [e, f] && [e, f] == [e] + [f];
    assert Pdf.Join([f]) == f;
    hide Pdf.Join;
    JoinTwo(a, [b, c, d, e, f]);
    JoinTwo(b, [c, d, e, f]);
    JoinTwo(c, [d, e, f]);
    JoinTwo(d, [e, f]);
    JoinTwo(e, [f]);
    Regroup2(a, b, Pdf.Join([c, d, e, f]));
    Regroup3(a, b, c, Pdf.Join([d, e, f]));
    Regroup5(a, b, c, d, e, f);
  }

  lemma Regroup2(a: string, b: string, more: string)
    ensures a + "\n" + (b + "\n" + more) == a + "\n" + (b + ("\n" + more))
  {
    assert b + "\n" + more == b + ("\n" + more);
  }

  lemma Regroup3(a: string, b: string, c: string, more: string)
    ensures a + "\n" + (b + "\n" + (c + "\n" + more)) == (a + "\n" + b) + "\n" + (c + ("\n" + more))
  {
    var x := c + "\n" + more;
    assert x == c + ("\n" + more);
    assert a + "\n" + (b + "\n" + x) == (a + "\n" + b) + "\n" + x;
  }

  lemma Regroup5(a: string, b: string, c: string, d: string, e: string, f: string)
    ensures a + "\n" + (b + "\n" + (c + "\n" + (d + "\n" + (e + "\n" + f))))
            == (a + "\n" + (b + "\n" + (c + "\n" + d))) + "\n" + (e + ("\n" + f))
  {
    var x := e + "\n" + f;
    assert x == e + ("\n" + f);
    assert c + "\n" + (d + "\n" + x) == (c + "\n" + d) + "\n" + x;
    var y := c + "\n" + d;
    assert b + "\n" + (y + "\n" + x) == (b + "\n" + y) + "\n" + x;
    var z := b + "\n" + y;
    assert a + "\n" + (z + "\n" + x) == (a + "\n" + z) + "\n" + x;
  }

  lemma DateHasNoColon(date: string)
    requires IsDate(date)
    ensures ':' !in date
  {
    forall i | 0 <= i < |date| ensures date[i] != ':' {
      if i != 4 && i != 7 {
        assert Decimal.IsDigit(date[i]);
      }
    }
  }

  /** No printed field spells the label of a later line. */
  ghost predicate LabelsClean(names: string, street: string, city: string)
  {
    && Clean(DATE_LABEL, names) && Clean(LABEL, names) && Clean(ID_LABEL, names)
    && Clean(ID_LABEL, street + ", " + city)
  }

  lemma IdentityLabelsClean(names: string, date: string, street: string, city: string)
    requires LabelsClean(names, street, city) && ':' !in date
    ensures Clean(NAME_LABEL, ID_TITLE)
    ensures Clean(DATE_LABEL, ID_TITLE) && Clean(DATE_LABEL, "Name: " + names)
    ensures Clean(LABEL, date)
    ensures Clean(ID_LABEL, ID_TITLE) && Clean(ID_LABEL, "Name: " + names)
    ensures Clean(ID_LABEL, "Date of birth: " + date) && Clean(ID_LABEL, "Address: " + (street + ", " + city))
  {
    hide Clean;
    TitleClean();
    hide ID_TITLE;
    StartClean(DATE_LABEL, "Name: ", names);
    MissingChar(LABEL, date, 7);
    StartClean(ID_LABEL, "Name: ", names);
    MissingChar(ID_LABEL, date, 12);
    StartClean(ID_LABEL, "Date of birth: ", date);
    StartClean(ID_LABEL, "Address: ", street + ", " + city);
  }

  lemma NoLowerCase(c: char)
    requires 'a' <= c <= 'z'
    ensures c !in ID_TITLE
  {
  }

  lemma TitleClean()
    ensures Clean(NAME_LABEL, ID_TITLE) && Clean(DATE_LABEL, ID_TITLE) && Clean(ID_LABEL, ID_TITLE)
  {
    hide Clean, ID_TITLE;
    NoLowerCase('a');
    NoLowerCase('y');
    MissingChar(NAME_LABEL, ID_TITLE, 1);
    MissingChar(DATE_LABEL, ID_TITLE, 1);
    MissingChar(ID_LABEL, ID_TITLE, 1);
  }

  lemma TwoGroupsRead(page: PageText, p: Pattern, m: seq<nat>, first: string, second: string)
    requires Search(p, page.text, 0) == Some(m) && |m| == 5 && m[0] <= m[1] <= m[2] <= m[3] <= m[4] <= |page.text|
    requires page.text[m[0]..m[1]] == first && page.text[m[2]..m[3]] == second
    ensures FirstFound([page], p) == Some(Found(page, m))
    ensures Piece(Found(page, m), 0) == first && Piece(Found(page, m), 1) == second
  {
    hide Search;
    FoundOnePage(page, p, m);
  }

  lemma NamesRead(title: string, first: string, second: string, more: string, page: int, checksum: string)
    requires Clean(NAME_LABEL, title) && Word(first) && Word(second)
    ensures var text := title + "\n" + (("Name: " + (first + " " + second)) + ("\n" + more));
            NameFacts(FirstFound([PageText(page, text)], IDENTITY_NAME), checksum)
            == [Fact(GivenName, first, LOWER(first), page, checksum), Fact(FamilyName, second, LOWER(second), page, checksum)]
  {
    hide FirstFound, Piece, Search, Clean, IDENTITY_NAME, Word;
    var rest := "\n" + more;
    var text := title + "\n" + (("Name: " + (first + " " + second)) + rest);
    assert ("Name: " + (first + " " + second)) + rest == "Name: " + first + " " + second + rest;
    NamesFound(title, first, second, rest);
    var a := |title| + 7;
    var b := a + |first| + 1;
    TwoGroupsRead(PageText(page, text), IDENTITY_NAME, [a, a + |first|, b, b + |second|, b + |second|], first, second);
  }

  lemma DateRead(head: string, date: string, more: string, page: int, checksum: string)
    requires Clean(DATE_LABEL, head) && IsDate(date)
    ensures var text := head + "\n" + (("Date of birth: " + date) + ("\n" + more));
            PlainFacts(DateOfBirth, FirstFound([PageText(page, text)], DATE_OF_BIRTH), checksum)
            == [Fact(DateOfBirth, date, date, page, checksum)]
  {
    hide FirstFound, Piece, Search, Clean, DATE_OF_BIRTH, IsDate;
    var text := head + "\n" + (("Date of birth: " + date) + ("\n" + more));
    DateFound(head, date, "\n" + more);
    OneGroupRead(PageText(page, text), DATE_OF_BIRTH, [|head| + 16, |head| + 26, |head| + 26], checksum, date);
  }

  lemma IdRead(head: string, id: string, more: string, page: int, checksum: string)
    requires Clean(ID_LABEL, head) && IsId(id)
    ensures var text := head + "\n" + (("Synthetic ID: " + id) + ("\n" + more));
            PlainFacts(SyntheticId, FirstFound([PageText(page, text)], SYNTHETIC_ID), checksum)
            == [Fact(SyntheticId, id, id, page, checksum)]
  {
    hide FirstFound, Piece, Search, Clean, SYNTHETIC_ID, IsId;
    var text := head + "\n" + (("Synthetic ID: " + id) + ("\n" + more));
    IdFound(head, id, "\n" + more);
    var a := |head| + 15;
    OneGroupRead(PageText(page, text), SYNTHETIC_ID, [a, a + |id|, a + |id|], checksum, id);
  }

  function PrintedFields(givenName: string, familyName: string, dateOfBirth: string, street: string, city: string,
                         syntheticId: string, page: int, checksum: string): seq<Fact>
  {
    [Fact(GivenName, givenName, LOWER(givenName), page, checksum),
     Fact(FamilyName, familyName, LOWER(familyName), page, checksum),
     Fact(DateOfBirth, dateOfBirth, dateOfBirth, page, checksum),
     Fact(StreetAddress, street, street, page, checksum),
     Fact(City, city, city, page, checksum),
     Fact(SyntheticId, syntheticId, syntheticId, page, checksum)]
  }

  lemma IdentityComesBack(givenName: string, familyName: string, dateOfBirth: string, street: string, city: string,
                          syntheticId: string, page: int, checksum: string)
    requires Word(givenName) && Word(familyName) && IsDate(dateOfBirth) && IsId(syntheticId)
    requires Trimmed(street) && Trimmed(city) && ',' !in city && LabelsClean(givenName + " " + familyName, street, city)
    ensures var lines := IdentityLines(givenName, familyName, dateOfBirth, street, city, syntheticId);
            IdentityFacts([PageText(page, Pdf.Join(lines))], checksum)
            == PrintedFields(givenName, familyName, dateOfBirth, street, city, syntheticId, page, checksum)
  {
    hide FirstFound, Pdf.Join, Clean, Trimmed, IsDate, IsId, AddressFacts, NameFacts, PlainFacts, ID_TITLE, SYNTHETIC_NOTE,
      IDENTITY_NAME, DATE_OF_BIRTH, ADDRESS, SYNTHETIC_ID;
    var names := givenName + " " + familyName;
    var b, c, d := "Name: " + names, "Date of birth: " + dateOfBirth, "Address: " + (street + ", " + city);
    var e := "Synthetic ID: " + syntheticId;
    IdentityAddressRead(givenName, familyName, dateOfBirth, street, city, syntheticId, page, checksum);
    DateHasNoColon(dateOfBirth);
    IdentityLabelsClean(names, dateOfBirth, street, city);
    LinesOf(givenName, familyName, dateOfBirth, street, city, syntheticId);
    DocumentLines(ID_TITLE, b, c, d, e, SYNTHETIC_NOTE);
    NamesRead(ID_TITLE, givenName, familyName, Pdf.Join([c, d, e, SYNTHETIC_NOTE]), page, checksum);
    LinesClean(DATE_LABEL, ID_TITLE, b);
    DateRead(ID_TITLE + "\n" + b, dateOfBirth, Pdf.Join([d, e, SYNTHETIC_NOTE]), page, checksum);
    LinesClean(ID_LABEL, c, d);
    LinesClean(ID_LABEL, b, c + "\n" + d);
    LinesClean(ID_LABEL, ID_TITLE, b + "\n" + (c + "\n" + d));
    IdRead(ID_TITLE + "\n" + (b + "\n" + (c + "\n" + d)), syntheticId, SYNTHETIC_NOTE, page, checksum);
  }

  lemma LinesOf(givenName: string, familyName: string, dateOfBirth: string, street: string, city: string, syntheticId: string)
    ensures IdentityLines(givenName, familyName, dateOfBirth, street, city, syntheticId)
            == [ID_TITLE, "Name: " + (givenName + " " + familyName), "Date of birth: " + dateOfBirth,
                "Address: " + (street + ", " + city), "Synthetic ID: " + syntheticId, SYNTHETIC_NOTE]
  {
    hide ID_TITLE, SYNTHETIC_NOTE;
    assert "Name: " + (givenName + " " + familyName) == "Name: " + givenName + " " + familyName;
    assert "Address: " + (street + ", " + city) == "Address: " + street + ", " + city;
  }

  lemma IdentityAddressRead(givenName: string, familyName: string, dateOfBirth: string, street: string, city: string,
                                 syntheticId: string, page: int, checksum: string)
    requires IsDate(dateOfBirth) && Trimmed(street) && Trimmed(city) && ',' !in city
    requires LabelsClean(givenName + " " + familyName, street, city)
    ensures var lines := IdentityLines(givenName, familyName, dateOfBirth, street, city, syntheticId);
            AddressFacts(FirstFound([PageText(page, Pdf.Join(lines))], ADDRESS), checksum)
            == [Fact(StreetAddress, street, street, page, checksum), Fact(City, city, city, page, checksum)]
  {
    hide FirstFound, Pdf.Join, Clean, Trimmed, AddressFacts, IsDate;
    DateHasNoColon(dateOfBirth);
    IdentityLabelsClean(givenName + " " + familyName, dateOfBirth, street, city);
    IdentityGivesAddressIff(givenName, familyName, dateOfBirth, street, city, syntheticId, page, checksum);
  }

  // ---- Names that are not words -----------------------------------------------------------------

  lemma {:induction false} RunClass(k: Class, s: string, at: nat)
    requires at <= |s|
    ensures forall i :: at <= i < at + Run(k, s, at) ==> In(k, s[i])
    decreases |s| - at
  {
    if at < |s| && In(k, s[at]) {
      RunClass(k, s, at + 1);
    }
  }

  /** How far a repetition that matches has gone. */
  lemma {:induction false} LongestAt(p: Pattern, s: string, at: nat, n: nat) returns (k: nat)
    requires p != [] && p[0].Many? && at + n <= |s| && Longest(p, s, at, n).Some?
    ensures p[0].least <= k <= n && MatchAt(p[1..], s, at + k) == Longest(p, s, at, n)
    decreases n
  {
    if MatchAt(p[1..], s, at + n).Some? {
      k := n;
    } else {
      k := LongestAt(p, s, at, n - 1);
    }
  }

  lemma ManyMatched(k: Class, least: nat, p: Pattern, s: string, at: nat, m: seq<nat>) returns (n: nat)
    requires at <= |s| && MatchAt([Many(k, least)] + p, s, at) == Some(m)
    ensures least <= n && at + n <= |s| && MatchAt(p, s, at + n) == Some(m)
    ensures forall i :: at <= i < at + n ==> In(k, s[i])
  {
    assert ([Many(k, least)] + p)[1..] == p;
    RunClass(k, s, at);
    n := LongestAt([Many(k, least)] + p, s, at, Run(k, s, at));
  }

  lemma MarkMatched(p: Pattern, s: string, at: nat, m: seq<nat>)
    requires at <= |s| && MatchAt([Mark] + p, s, at) == Some(m)
    ensures m != [] && m[0] == at && MatchAt(p, s, at) == Some(m[1..])
  {
    assert ([Mark] + p)[1..] == p;
  }

  /** Whatever the two groups of a name match, they are words. */
  lemma TwoWordsMatched(s: string, at: nat, m: seq<nat>)
    requires at <= |s| && MatchAt(TWO_WORDS_TAIL, s, at) == Some(m)
    ensures |m| >= 4 && m[0] <= m[1] <= |s| && m[2] <= m[3] <= |s|
    ensures Word(s[m[0]..m[1]]) && Word(s[m[2]..m[3]])
  {
    hide MatchAt;
    WordsPattern();
    var d := [Mark] + ([Many(NonSpace, 1)] + [Mark]);
    var c := [Mark] + ([Many(Space, 1)] + d);
    var b := [Mark] + ([Many(NonSpace, 1)] + c);
    var n := ManyMatched(Space, 0, b, s, at, m);
    MarkMatched([Many(NonSpace, 1)] + c, s, at + n, m);
    var k := ManyMatched(NonSpace, 1, c, s, at + n, m[1..]);
    MarkMatched([Many(Space, 1)] + d, s, at + n + k, m[1..]);
    var j := ManyMatched(Space, 1, d, s, at + n + k, m[1..][1..]);
    MarkMatched([Many(NonSpace, 1)] + [Mark], s, at + n + k + j, m[1..][1..]);
    var l := ManyMatched(NonSpace, 1, [Mark], s, at + n + k + j, m[1..][1..][1..]);
    assert [Mark] + [] == [Mark];
    MarkMatched([], s, at + n + k + j + l, m[1..][1..][1..]);
  }

  /** A labelled pattern that is found has been found behind its label. */
  lemma {:induction false} FoundAt(tag: string, tail: Pattern, s: string, from: nat) returns (at: nat)
    requires from <= |s| && Search(Text(tag) + tail, s, from).Some?
    ensures at + |tag| <= |s| && MatchAt(tail, s, at + |tag|) == Search(Text(tag) + tail, s, from)
    decreases |s| - from
  {
    hide MatchAt;
    TextMatches(tag, tail, s, from);
    if MatchAt(Text(tag) + tail, s, from).Some? {
      at := from;
    } else {
      at := FoundAt(tag, tail, s, from + 1);
    }
  }

  lemma NamesAreWords(page: PageText, given: string, family: string, checksum: string)
    requires NameFacts(FirstFound([page], IDENTITY_NAME), checksum)
             == [Fact(GivenName, given, LOWER(given), page.page, checksum), Fact(FamilyName, family, LOWER(family), page.page, checksum)]
    ensures Word(given) && Word(family)
  {
    hide Search, MatchAt, Word, TWO_WORDS_TAIL, Text, Piece;
    var f := FirstFound([page], IDENTITY_NAME).value;
    assert f.page == page && Search(IDENTITY_NAME, page.text, 0) == Some(f.marks) by { OneSearched(page, IDENTITY_NAME); }
    var at := FoundAt("Name:", TWO_WORDS_TAIL, page.text, 0);
    TwoWordsMatched(page.text, at + 5, f.marks);
    PatternMarks();
    FoundIsWell([page], IDENTITY_NAME, 2);
    PiecesOfTwo(f);
  }

  lemma OneSearched(page: PageText, p: Pattern)
    requires FirstFound([page], p).Some?
    ensures FirstFound([page], p) == Some(Found(page, FirstFound([page], p).value.marks))
    ensures Search(p, page.text, 0) == Some(FirstFound([page], p).value.marks)
  {
    hide Search;
    assert [page][1..] == [];
  }

  lemma PiecesOfTwo(f: Found)
    requires WellFound(f, 2)
    ensures Piece(f, 0) == f.page.text[f.marks[0]..f.marks[1]] && Piece(f, 1) == f.page.text[f.marks[2]..f.marks[3]]
  {
  }

  /** Six facts in the printed order can only have come from every pattern being found. */
  lemma PartsOf(names: Option<Found>, dates: Option<Found>, address: Option<Found>, ids: Option<Found>, checksum: string,
                whole: seq<Fact>)
    requires NameFacts(names, checksum) + PlainFacts(DateOfBirth, dates, checksum) + AddressFacts(address, checksum)
             + PlainFacts(SyntheticId, ids, checksum) == whole && |whole| == 6
    ensures NameFacts(names, checksum) == whole[..2] && AddressFacts(address, checksum) == whole[3..5]
  {
    hide Piece, Strip;
    var a, b, c, d := NameFacts(names, checksum), PlainFacts(DateOfBirth, dates, checksum), AddressFacts(address, checksum),
                      PlainFacts(SyntheticId, ids, checksum);
    assert |a| == 2 && |b| == 1 && |c| == 2 && |d| == 1;
    assert whole[..2] == a;
    assert whole[3..5] == c;
  }

  /** The identity round trip, exactly: unless a field spells the label of a later line, extracting from a
      printed identity document's page gives every field back, and nothing else, if and only if each
      name is one word and the city has no comma. */
  lemma IdentityFactsIff(givenName: string, familyName: string, dateOfBirth: string, street: string, city: string,
                             syntheticId: string, page: int, checksum: string)
    requires IsDate(dateOfBirth) && IsId(syntheticId) && Trimmed(street) && Trimmed(city)
    requires LabelsClean(givenName + " " + familyName, street, city)
    ensures var lines := IdentityLines(givenName, familyName, dateOfBirth, street, city, syntheticId);
            IdentityFacts([PageText(page, Pdf.Join(lines))], checksum)
            == PrintedFields(givenName, familyName, dateOfBirth, street, city, syntheticId, page, checksum)
            <==> Word(givenName) && Word(familyName) && ',' !in city
  {
    hide FirstFound, Pdf.Join, Clean, Trimmed, IsDate, IsId, AddressFacts, NameFacts, PlainFacts, IdentityLines, Word,
      IDENTITY_NAME, DATE_OF_BIRTH, ADDRESS, SYNTHETIC_ID;
    var lines := IdentityLines(givenName, familyName, dateOfBirth, street, city, syntheticId);
    var text := PageText(page, Pdf.Join(lines));
    var whole := PrintedFields(givenName, familyName, dateOfBirth, street, city, syntheticId, page, checksum);
    if Word(givenName) && Word(familyName) && ',' !in city {
      IdentityComesBack(givenName, familyName, dateOfBirth, street, city, syntheticId, page, checksum);
    }
    if IdentityFacts([text], checksum) == whole {
      PartsOf(FirstFound([text], IDENTITY_NAME), FirstFound([text], DATE_OF_BIRTH), FirstFound([text], ADDRESS),
              FirstFound([text], SYNTHETIC_ID), checksum, whole);
      assert whole[..2] == [whole[0], whole[1]] && whole[3..5] == [whole[3], whole[4]];
      NamesAreWords(text, givenName, familyName, checksum);
      assert Clean(LABEL, dateOfBirth) by {
        DateHasNoColon(dateOfBirth);
        MissingChar(LABEL, dateOfBirth, 7);
      }
      IdentityGivesAddressIff(givenName, familyName, dateOfBirth, street, city, syntheticId, page, checksum);
    }
  }
}
