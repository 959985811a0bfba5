/** The extractor as a whole on printed documents: what it takes a document for, and which facts it then
    reads off it. */
module ClassifiedDocuments {
  import opened Prelude
  import opened Regex
  import opened Extractor
  import opened PrintedDocuments
  import opened PrintedFacts
  import Decimal
  import Income
  import Pdf

  // ---- Markers ----------------------------------------------------------------------------------

  lemma ContainedIff(s: string, t: string)
    ensures Contains(s, t) <==> !Clean(t, s)
  {
  }

  lemma ClassifyOne(page: PageText)
    ensures Classify([page]) ==
              if !Clean("SYNTHETIC PAY STUB", page.text) then IncomeProof
              else if !Clean("GOVERNMENT-ISSUED ID", page.text) then IdentityDocument
              else Unknown
  {
    ContainedIff(page.text, PAY_STUB_MARKER);
    ContainedIff(page.text, IDENTITY_DOCUMENT_MARKER);
    hide Clean, Contains;
  }

  lemma StandsIn(before: string, t: string, after: string)
    ensures !Clean(t, before + t + after)
  {
    hide OccursAt;
    Stands(before, t, after);
  }

  /** A text with the marker in a part of it has the marker. */
  lemma PartsOfClean(t: string, before: string, part: string, after: string)
    ensures Clean(t, before + part + after) ==> Clean(t, part)
  {
    hide OccursAt;
    Stands(before, part, after);
    if !Clean(t, part) {
      var i :| 0 <= i <= |part| && OccursAt(t, part, i);
      StandsWithin(part, before + part + after, |before|, i, t);
      OccursInside(t, before + part + after, |before| + i);
    }
  }

  // ---- The pay stub -----------------------------------------------------------------------------

  lemma StubIsIncomeProof(employer: string, givenName: string, familyName: string, annual: nat, tenure: nat, page: int)
    ensures Classify([PageText(page, Pdf.Join(PayStubLines(employer, givenName, familyName, annual, tenure)))]) == IncomeProof
  {
    var lines := PayStubLines(employer, givenName, familyName, annual, tenure);
    var text := Pdf.Join(lines);
    assert |lines| == 5 && lines[0] == "SYNTHETIC PAY STUB -- " + employer;
    hide PayStubLines, Pdf.Join, Clean, Classify;
    assert lines == [lines[0], lines[1], lines[2], lines[3], lines[4]];
    FiveLines(lines[0], lines[1], lines[2], lines[3], lines[4]);
    StubMarked(employer, "\n" + Pdf.Join([lines[1], lines[2], lines[3], lines[4]]));
    ClassifyOne(PageText(page, text));
  }

  lemma StubMarked(employer: string, rest: string)
    ensures !Clean("SYNTHETIC PAY STUB", "SYNTHETIC PAY STUB -- " + employer + rest)
  {
    hide Clean;
    assert "SYNTHETIC PAY STUB -- " == "" + "SYNTHETIC PAY STUB" + " -- ";
    StandsIn("", "SYNTHETIC PAY STUB", " -- " + (employer + rest));
    MoveIn("SYNTHETIC PAY STUB", " -- ", employer, rest);
  }

  lemma MoveIn(marker: string, dashes: string, employer: string, rest: string)
    ensures "" + marker + (dashes + (employer + rest)) == ("" + marker + dashes) + employer + rest
  {
  }

  /** The round trip of a pay stub through the extractor: whatever is printed on it, it is taken for an
      income proof; unless the employer or a name spells a label of the stub, the facts are the employer,
      the printed amount and the tenure, and nothing else. */
  lemma StubRoundTrip(employer: string, givenName: string, familyName: string, annual: nat, tenure: nat, page: int,
                      checksum: string)
    requires Trimmed(employer) && Clean(GROSS, employer) && Clean(TENURE_LABEL, employer)
    requires Clean(GROSS, givenName + " " + familyName) && Clean(TENURE_LABEL, givenName + " " + familyName)
    ensures var pages := [PageText(page, Pdf.Join(PayStubLines(employer, givenName, familyName, annual, tenure)))];
            var amount := Income.Printed(Income.MonthlyCents(annual));
            FactsOf(pages, Classify(pages), checksum) ==
              [Fact(EmployerName, employer, employer, page, checksum),
               Fact(GrossMonthlyIncome, amount, Income.RemoveCommas(amount), page, checksum),
               Fact(TenureMonths, Decimal.Show(tenure), Decimal.Show(tenure), page, checksum)]
  {
    hide PayStubLines, Pdf.Join, Classify, Income.Printed, Income.MonthlyCents, Income.RemoveCommas, Decimal.Show, IncomeProofFacts;
    StubIsIncomeProof(employer, givenName, familyName, annual, tenure, page);
    PayStubRoundTrip(employer, givenName, familyName, annual, tenure, page, checksum);
  }

  // ---- The identity document --------------------------------------------------------------------

  const MARKER := "SYNTHETIC PAY STUB"

  lemma OnlySpace(first: string, second: string)
    requires Word(first) && Word(second)
    ensures var s := first + " " + second; forall i :: 0 <= i < |s| && s[i] == ' ' ==> i == |first|
  {
    var s := first + " " + second;
    assert forall i :: 0 <= i < |s| ==>
      s[i] == if i < |first| then first[i] else if i == |first| then ' ' else second[i - |first| - 1];
  }

  /** Two words hold one space, the marker two. */
  lemma NamesHaveNoMarker(first: string, second: string)
    requires Word(first) && Word(second)
    ensures Clean(MARKER, first + " " + second)
  {
    hide Word, OccursAt;
    var s := first + " " + second;
    OnlySpace(first, second);
    forall i | 0 <= i <= |s| ensures !OccursAt(MARKER, s, i) {
      if OccursAt(MARKER, s, i) {
        OccursInside(MARKER, s, i);
        CharAt(MARKER, s, i, 9);
        CharAt(MARKER, s, i, 13);
        assert false;
      }
    }
  }

  lemma TitleHasNoMarker()
    ensures Clean(MARKER, ID_TITLE) && Clean(MARKER, SYNTHETIC_NOTE)
  {
    assert 'P' !in ID_TITLE;
    NoteHasNoP();
    hide Clean, ID_TITLE, SYNTHETIC_NOTE;
    MissingChar(MARKER, ID_TITLE, 10);
    MissingChar(MARKER, SYNTHETIC_NOTE, 10);
  }

  lemma NoteHasNoP()
    ensures 'P' !in SYNTHETIC_NOTE
  {
  }

  lemma FieldsHaveNoMarker(names: string, date: string, street: string, city: string, id: string)
    requires Clean(MARKER, names) && IsDate(date) && Clean(MARKER, street + ", " + city) && IsId(id)
    ensures Clean(MARKER, "Name: " + names) && Clean(MARKER, "Date of birth: " + date)
    ensures Clean(MARKER, "Address: " + (street + ", " + city)) && Clean(MARKER, "Synthetic ID: " + id)
  {
    assert ' ' !in date by { DateHasNoSpace(date); }
    assert ' ' !in id;
    hide Clean, IsDate, IsId;
    MissingChar(MARKER, date, 9);
    MissingChar(MARKER, id, 9);
    StartClean(MARKER, "Name: ", names);
    StartClean(MARKER, "Date of birth: ", date);
    StartClean(MARKER, "Address: ", street + ", " + city);
    StartClear(MARKER, "Synthetic ID: ", id);
  }

  lemma DateHasNoSpace(date: string)
    requires IsDate(date)
    ensures ' ' !in date
  {
    forall i | 0 <= i < |date| ensures date[i] != ' ' {
      if i != 4 && i != 7 {
        assert Decimal.IsDigit(date[i]);
      }
    }
  }

  /** Six lines without the marker. */
  lemma SixLinesClean(a: string, b: string, c: string, d: string, e: string, f: string)
    requires Clean(MARKER, a) && Clean(MARKER, b) && Clean(MARKER, c) && Clean(MARKER, d) && Clean(MARKER, e) && Clean(MARKER, f)
    ensures Clean(MARKER, Pdf.Join([a, b, c, d, e, f]))
  {
    hide Clean, Pdf.Join;
    DocumentLines(a, b, c, d, e, f);
    LinesClean(MARKER, e, f);
    LinesClean(MARKER, c, d);
    LinesClean(MARKER, b, c + "\n" + d);
    LinesClean(MARKER, a, b + "\n" + (c + "\n" + d));
    LinesClean(MARKER, a + "\n" + (b + "\n" + (c + "\n" + d)), e + "\n" + f);
    var head := a + "\n" + (b + "\n" + (c + "\n" + d));
    assert head + "\n" + (e + "\n" + f) == head + "\n" + (e + ("\n" + f)) by { assert e + "\n" + f == e + ("\n" + f); }
  }

  /** An identity document is taken for one exactly when nothing on it spells the marker of a pay stub. */
  lemma IdentityClassified(givenName: string, familyName: string, dateOfBirth: string, street: string, city: string,
                           syntheticId: string, page: int)
    requires IsDate(dateOfBirth) && IsId(syntheticId)
    ensures var text := Pdf.Join(IdentityLines(givenName, familyName, dateOfBirth, street, city, syntheticId));
            && Classify([PageText(page, text)]) == (if Clean(MARKER, text) then IdentityDocument else IncomeProof)
            && (Clean(MARKER, text) ==> Clean(MARKER, street + ", " + city))
            && (Word(givenName) && Word(familyName) && Clean(MARKER, street + ", " + city) ==> Clean(MARKER, text))
  {
    hide Clean, Classify, Pdf.Join, IsDate, IsId, Word, IdentityLines;
    var b, c, d := "Name: " + (givenName + " " + familyName), "Date of birth: " + dateOfBirth, "Address: " + (street + ", " + city);
    var e := "Synthetic ID: " + syntheticId;
    LinesOf(givenName, familyName, dateOfBirth, street, city, syntheticId);
    DocumentLines(ID_TITLE, b, c, d, e, SYNTHETIC_NOTE);
    var text := Pdf.Join([ID_TITLE, b, c, d, e, SYNTHETIC_NOTE]);
    TitleMarked(b + ("\n" + Pdf.Join([c, d, e, SYNTHETIC_NOTE])));
    ClassifyOne(PageText(page, text));
    assert Classify([PageText(page, text)]) == if Clean(MARKER, text) then IdentityDocument else IncomeProof;
    TitleHasNoMarker();
    hide ID_TITLE, SYNTHETIC_NOTE, MARKER;
    if Clean(MARKER, text) {
      AddressInside(ID_TITLE, b, c, street + ", " + city, e, SYNTHETIC_NOTE);
    }
    if Word(givenName) && Word(familyName) && Clean(MARKER, street + ", " + city) {
      NamesHaveNoMarker(givenName, familyName);
      FieldsHaveNoMarker(givenName + " " + familyName, dateOfBirth, street, city, syntheticId);
      SixLinesClean(ID_TITLE, b, c, d, e, SYNTHETIC_NOTE);
    }
  }

  lemma TitleMarked(more: string)
    ensures !Clean("GOVERNMENT-ISSUED ID", ID_TITLE + "\n" + more)
  {
    hide Clean;
    assert ID_TITLE == "SYNTHETIC " + "GOVERNMENT-ISSUED ID" + " (DEMO ONLY)";
    hide ID_TITLE;
    var after := " (DEMO ONLY)" + "\n" + more;
    StandsIn("SYNTHETIC ", "GOVERNMENT-ISSUED ID", after);
    assert ID_TITLE + "\n" + more == "SYNTHETIC " + "GOVERNMENT-ISSUED ID" + after;
  }

  lemma AddressInside(a: string, b: string, c: string, address: string, e: string, f: string)
    requires Clean(MARKER, Pdf.Join([a, b, c, "Address: " + address, e, f]))
    ensures Clean(MARKER, address)
  {
    hide Clean, Pdf.Join, MARKER;
    var d := "Address: " + address;
    DocumentLines(a, b, c, d, e, f);
    var before, after := a + "\n" + (b + "\n" + (c + "\n" + "Address: ")), "\n" + (e + ("\n" + f));
    assert c + "\n" + d == (c + "\n" + "Address: ") + address;
    var x := c + "\n" + "Address: ";
    assert b + "\n" + (x + address) == (b + "\n" + x) + address;
    var y := b + "\n" + x;
    assert a + "\n" + (y + address) == (a + "\n" + y) + address;
    assert Pdf.Join([a, b, c, d, e, f]) == before + address + after;
    PartsOfClean(MARKER, before, address, after);
  }

  /** No income proof begins with a given name. */
  lemma OtherFacts(pages: seq<PageText>, checksum: string, whole: seq<Fact>)
    requires whole != [] && whole[0].factType == GivenName
    ensures IncomeProofFacts(pages, checksum) != whole
  {
    hide FirstFound, Piece, Strip;
  }

  /** The round trip of an identity document through the extractor, exactly: unless a field spells the label
      of a later line, the facts are every printed field, and nothing else, if and only if each name is
      one word, the city has no comma, and the address does not spell the marker of a pay stub. */
  lemma IdentityRoundTripIff(givenName: string, familyName: string, dateOfBirth: string, street: string, city: string,
                             syntheticId: string, page: int, checksum: string)
    requires IsDate(dateOfBirth) && IsId(syntheticId) && Trimmed(street) && Trimmed(city)
    requires LabelsClean(givenName + " " + familyName, street, city)
    ensures var pages := [PageText(page, Pdf.Join(IdentityLines(givenName, familyName, dateOfBirth, street, city, syntheticId)))];
            FactsOf(pages, Classify(pages), checksum)
            == PrintedFields(givenName, familyName, dateOfBirth, street, city, syntheticId, page, checksum)
            <==> Word(givenName) && Word(familyName) && ',' !in city && Clean(MARKER, street + ", " + city)
  {
    hide Clean, Trimmed, IsDate, IsId, LabelsClean, Pdf.Join, IdentityLines, Classify, IncomeProofFacts, IdentityFacts, Word, MARKER;
    IdentityClassified(givenName, familyName, dateOfBirth, street, city, syntheticId, page);
    IdentityFactsIff(givenName, familyName, dateOfBirth, street, city, syntheticId, page, checksum);
    var pages := [PageText(page, Pdf.Join(IdentityLines(givenName, familyName, dateOfBirth, street, city, syntheticId)))];
    OtherFacts(pages, checksum, PrintedFields(givenName, familyName, dateOfBirth, street, city, syntheticId, page, checksum));
  }
}
