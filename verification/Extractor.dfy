/** Deterministic extraction of facts from page text by the patterns of the known documents. */
module Extractor {
  import opened Prelude
  import opened Regex
  import Income

  datatype PageText = PageText(page: int, text: string)

  datatype FactType =
    | EmployerName | GrossMonthlyIncome | TenureMonths
    | GivenName | FamilyName | DateOfBirth | StreetAddress | City | SyntheticId

  /** The confidence of every fact is 1: a pattern matches or it does not. */
  datatype Fact = Fact(factType: FactType, value: string, normalized: string, page: int, sourceChecksum: string)

  datatype Classification = IncomeProof | IdentityDocument | Unknown

  const PAY_STUB_MARKER := "SYNTHETIC PAY STUB"
  const IDENTITY_DOCUMENT_MARKER := "GOVERNMENT-ISSUED ID"

  // ---- Patterns ---------------------------------------------------------------------------------

  const SPACES := Many(Space, 0)
  const REST_OF_LINE := Many(Dot, 1)

  const NAME_TAIL: Pattern := [SPACES, Mark, REST_OF_LINE, Mark]
  const AMOUNT_TAIL: Pattern :=
    [SPACES, One(Is('$')), Mark, Many(DigitOrComma, 1), One(Is('.')), One(Digit), One(Digit), Mark]
  const NUMBER_TAIL: Pattern := [SPACES, Mark, Many(Digit, 1), Mark, SPACES]
  const TWO_WORDS_TAIL: Pattern := [SPACES, Mark, Many(NonSpace, 1), Mark, Many(Space, 1), Mark, Many(NonSpace, 1), Mark]
  const DATE: Pattern :=
    [One(Digit), One(Digit), One(Digit), One(Digit), One(Is('-')),
     One(Digit), One(Digit), One(Is('-')), One(Digit), One(Digit)]
  const DATE_TAIL: Pattern := [SPACES, Mark] + (DATE + [Mark])
  const ADDRESS_TAIL: Pattern := [SPACES, Mark, REST_OF_LINE, Mark, One(Is(',')), SPACES, Mark, REST_OF_LINE, Mark]
  const ID_TAIL: Pattern := [SPACES, Mark, Many(WordOrDash, 1), Mark]

  const EMPLOYER_NAME: Pattern := Text("SYNTHETIC PAY STUB") + ([SPACES] + (Text("--") + NAME_TAIL))
  const GROSS_PAY: Pattern := Text("Gross pay:") + AMOUNT_TAIL
  const TENURE: Pattern := Text("Tenure:") + (NUMBER_TAIL + Text("months"))
  const IDENTITY_NAME: Pattern := Text("Name:") + TWO_WORDS_TAIL
  const DATE_OF_BIRTH: Pattern := Text("Date of birth:") + DATE_TAIL
  const ADDRESS: Pattern := Text("Address:") + ADDRESS_TAIL
  const SYNTHETIC_ID: Pattern := Text("Synthetic ID:") + ID_TAIL

  /** Lower-casing of a name, left uninterpreted. */
  const LOWER: string -> string

  // ---- Pages ------------------------------------------------------------------------------------

  /** A page and where a pattern matched in it. */
  datatype Found = Found(page: PageText, marks: seq<nat>)

  /** The first page the pattern occurs on, at its first occurrence there. */
  function FirstFound(pages: seq<PageText>, p: Pattern): Option<Found>
  {
    if pages == [] then None
    else
      match Search(p, pages[0].text, 0)
      case Some(marks) => Some(Found(pages[0], marks))
      case None => FirstFound(pages[1..], p)
  }

  method FindPage(pages: seq<PageText>, p: Pattern) returns (found: Option<Found>)
    ensures found == FirstFound(pages, p)
    ensures found.Some? ==>
      (exists i :: 0 <= i < |pages| && found.value.page == pages[i]
                   && Search(p, pages[i].text, 0) == Some(found.value.marks)
                   && forall j :: 0 <= j < i ==> Search(p, pages[j].text, 0) == None)
    ensures found.None? ==> forall i :: 0 <= i < |pages| ==> Search(p, pages[i].text, 0) == None
  {
    hide Search;
    var i := 0;
    while i < |pages|
      invariant 0 <= i <= |pages|
      invariant FirstFound(pages, p) == FirstFound(pages[i..], p)
      invariant forall j :: 0 <= j < i ==> Search(p, pages[j].text, 0) == None
    {
      var marks := Search(p, pages[i].text, 0);
      if marks.Some? {
        return Some(Found(pages[i], marks.value));
      }
      assert pages[i..][1..] == pages[i + 1..];
      i := i + 1;
    }
    return None;
  }

  /** Group `g` of a match. */
  function Group(f: Found, g: nat): string
    requires 2 * g + 1 < |f.marks| && f.marks[2 * g] <= f.marks[2 * g + 1] <= |f.page.text|
  {
    f.page.text[f.marks[2 * g]..f.marks[2 * g + 1]]
  }

  predicate WellFound(f: Found, groups: nat)
  {
    && |f.marks| == 2 * groups + 1
    && (forall i :: 0 <= i < |f.marks| ==> f.marks[i] <= |f.page.text|)
    && (forall i, j :: 0 <= i < j < |f.marks| ==> f.marks[i] <= f.marks[j])
  }

  lemma {:induction false} FoundIsWell(pages: seq<PageText>, p: Pattern, groups: nat)
    requires FirstFound(pages, p).Some? && Marks(p) == 2 * groups
    ensures WellFound(FirstFound(pages, p).value, groups)
    ensures FirstFound(pages, p).value.page in pages
  {
    hide Search;
    if Search(p, pages[0].text, 0).Some? {
      SearchIsInside(p, pages[0].text, 0);
    } else {
      FoundIsWell(pages[1..], p, groups);
    }
  }

  lemma TextMarks(t: string, p: Pattern)
    ensures Marks(Text(t) + p) == Marks(p)
  {
    assert Mark !in Text(t);
  }

  lemma OneGroupTails()
    ensures Marks(NAME_TAIL) == 2 && Marks(NUMBER_TAIL) == 2 && Marks(ID_TAIL) == 2
  {
  }

  lemma AmountTail()
    ensures Marks(AMOUNT_TAIL) == 2
  {
  }

  lemma DateTail()
    ensures Marks(DATE_TAIL) == 2
  {
    assert Mark !in DATE;
    hide DATE;
    assert Marks([SPACES, Mark]) == 1;
  }

  lemma WordsTail()
    ensures Marks(TWO_WORDS_TAIL) == 4
  {
  }

  lemma AddressTail()
    ensures Marks(ADDRESS_TAIL) == 4
  {
  }

  lemma PatternMarks()
    ensures Marks(EMPLOYER_NAME) == 2 && Marks(GROSS_PAY) == 2 && Marks(TENURE) == 2
    ensures Marks(IDENTITY_NAME) == 4 && Marks(DATE_OF_BIRTH) == 2 && Marks(ADDRESS) == 4 && Marks(SYNTHETIC_ID) == 2
  {
    OneGroupTails();
    AmountTail();
    DateTail();
    WordsTail();
    AddressTail();
    hide NAME_TAIL, AMOUNT_TAIL, NUMBER_TAIL, TWO_WORDS_TAIL, DATE_TAIL, ADDRESS_TAIL, ID_TAIL;
    TextMarks("SYNTHETIC PAY STUB", [SPACES] + (Text("--") + NAME_TAIL));
    TextMarks("--", NAME_TAIL);
    TextMarks("Gross pay:", AMOUNT_TAIL);
    TextMarks("Tenure:", NUMBER_TAIL + Text("months"));
    assert Mark !in Text("months");
    TextMarks("Name:", TWO_WORDS_TAIL);
    TextMarks("Date of birth:", DATE_TAIL);
    TextMarks("Address:", ADDRESS_TAIL);
    TextMarks("Synthetic ID:", ID_TAIL);
  }

  // ---- Facts ------------------------------------------------------------------------------------

  /** The text of group `g`. */
  function Piece(f: Found, g: nat): string
  {
    if WellFound(f, |f.marks| / 2) && 2 * g + 1 < |f.marks| then Group(f, g) else ""
  }

  function StripLeft(s: string): string
  {
    if s != "" && IsSpace(s[0]) then StripLeft(s[1..]) else s
  }

  function StripRight(s: string): string
  {
    if s != "" && IsSpace(s[|s| - 1]) then StripRight(s[..|s| - 1]) else s
  }

  function Strip(s: string): string
  {
    StripRight(StripLeft(s))
  }

  predicate Contains(s: string, t: string)
  {
    exists i :: 0 <= i <= |s| && OccursAt(t, s, i)
  }

  function Joined(pages: seq<PageText>): string
  {
    if pages == [] then ""
    else if |pages| == 1 then pages[0].text
    else pages[0].text + "\n" + Joined(pages[1..])
  }

  function Classify(pages: seq<PageText>): Classification
  {
    if Contains(Joined(pages), PAY_STUB_MARKER) then IncomeProof
    else if Contains(Joined(pages), IDENTITY_DOCUMENT_MARKER) then IdentityDocument
    else Unknown
  }

  function EmployerFacts(found: Option<Found>, checksum: string): seq<Fact>
  {
    match found
    case None => []
    case Some(f) => var name := Strip(Piece(f, 0)); [Fact(EmployerName, name, name, f.page.page, checksum)]
  }

  function GrossFacts(found: Option<Found>, checksum: string): seq<Fact>
  {
    match found
    case None => []
    case Some(f) =>
      [Fact(GrossMonthlyIncome, Piece(f, 0), Income.RemoveCommas(Piece(f, 0)), f.page.page, checksum)]
  }

  /** A fact that is kept as it was read. */
  function PlainFacts(t: FactType, found: Option<Found>, checksum: string): seq<Fact>
  {
    match found
    case None => []
    case Some(f) => [Fact(t, Piece(f, 0), Piece(f, 0), f.page.page, checksum)]
  }

  function NameFacts(found: Option<Found>, checksum: string): seq<Fact>
  {
    match found
    case None => []
    case Some(f) =>
      [Fact(GivenName, Piece(f, 0), LOWER(Piece(f, 0)), f.page.page, checksum),
       Fact(FamilyName, Piece(f, 1), LOWER(Piece(f, 1)), f.page.page, checksum)]
  }

  function AddressFacts(found: Option<Found>, checksum: string): seq<Fact>
  {
    match found
    case None => []
    case Some(f) =>
      var street, city := Strip(Piece(f, 0)), Strip(Piece(f, 1));
      [Fact(StreetAddress, street, street, f.page.page, checksum), Fact(City, city, city, f.page.page, checksum)]
  }

  function IncomeProofFacts(pages: seq<PageText>, checksum: string): seq<Fact>
  {
    EmployerFacts(FirstFound(pages, EMPLOYER_NAME), checksum)
    + GrossFacts(FirstFound(pages, GROSS_PAY), checksum)
    + PlainFacts(TenureMonths, FirstFound(pages, TENURE), checksum)
  }

  function IdentityFacts(pages: seq<PageText>, checksum: string): seq<Fact>
  {
    NameFacts(FirstFound(pages, IDENTITY_NAME), checksum)
    + PlainFacts(DateOfBirth, FirstFound(pages, DATE_OF_BIRTH), checksum)
    + AddressFacts(FirstFound(pages, ADDRESS), checksum)
    + PlainFacts(SyntheticId, FirstFound(pages, SYNTHETIC_ID), checksum)
  }

  function FactsOf(pages: seq<PageText>, classification: Classification, checksum: string): seq<Fact>
  {
    match classification
    case IncomeProof => IncomeProofFacts(pages, checksum)
    case IdentityDocument => IdentityFacts(pages, checksum)
    case Unknown => []
  }

  method ExtractIncomeProofFacts(pages: seq<PageText>, checksum: string) returns (facts: seq<Fact>)
    ensures facts == IncomeProofFacts(pages, checksum)
  {
    hide FirstFound, Piece, Strip, EMPLOYER_NAME, GROSS_PAY, TENURE;
    facts := [];
    var found := FindPage(pages, EMPLOYER_NAME);
    if found.Some? {
      var employerName := Strip(Piece(found.value, 0));
      facts := facts + [Fact(EmployerName, employerName, employerName, found.value.page.page, checksum)];
    }
    found := FindPage(pages, GROSS_PAY);
    if found.Some? {
      var raw := Piece(found.value, 0);
      facts := facts + [Fact(GrossMonthlyIncome, raw, Income.RemoveCommas(raw), found.value.page.page, checksum)];
    }
    found := FindPage(pages, TENURE);
    if found.Some? {
      var months := Piece(found.value, 0);
      facts := facts + [Fact(TenureMonths, months, months, found.value.page.page, checksum)];
    }
  }

  method ExtractIdentityFacts(pages: seq<PageText>, checksum: string) returns (facts: seq<Fact>)
    ensures facts == IdentityFacts(pages, checksum)
  {
    hide FirstFound, Piece, Strip, IDENTITY_NAME, DATE_OF_BIRTH, ADDRESS, SYNTHETIC_ID;
    facts := [];
    var found := FindPage(pages, IDENTITY_NAME);
    if found.Some? {
      var givenName, familyName := Piece(found.value, 0), Piece(found.value, 1);
      facts := facts + [Fact(GivenName, givenName, LOWER(givenName), found.value.page.page, checksum)];
      facts := facts + [Fact(FamilyName, familyName, LOWER(familyName), found.value.page.page, checksum)];
    }
    assert facts == NameFacts(FirstFound(pages, IDENTITY_NAME), checksum);
    found := FindPage(pages, DATE_OF_BIRTH);
    if found.Some? {
      var raw := Piece(found.value, 0);
      facts := facts + [Fact(DateOfBirth, raw, raw, found.value.page.page, checksum)];
    }
    found := FindPage(pages, ADDRESS);
    if found.Some? {
      var street, city := Strip(Piece(found.value, 0)), Strip(Piece(found.value, 1));
      facts := facts + [Fact(StreetAddress, street, street, found.value.page.page, checksum)];
      facts := facts + [Fact(City, city, city, found.value.page.page, checksum)];
    }
    found := FindPage(pages, SYNTHETIC_ID);
    if found.Some? {
      var syntheticId := Piece(found.value, 0);
      facts := facts + [Fact(SyntheticId, syntheticId, syntheticId, found.value.page.page, checksum)];
    }
  }

  // ---- Provenance -------------------------------------------------------------------------------

  /** The fact's value stands in the text of the page it cites. */
  ghost predicate Cited(pages: seq<PageText>, f: Fact)
  {
    exists page :: page in pages && page.page == f.page && Contains(page.text, f.value)
  }

  lemma SliceOccurs(s: string, a: nat, b: nat)
    requires a <= b <= |s|
    ensures Contains(s, s[a..b])
  {
    assert OccursAt(s[a..b], s, a);
  }

  lemma {:induction false} StripLeftSlice(s: string) returns (a: nat)
    ensures a <= |s| && StripLeft(s) == s[a..]
  {
    a := 0;
    if s != "" && IsSpace(s[0]) {
      var rest := StripLeftSlice(s[1..]);
      assert s[1..][rest..] == s[rest + 1..];
      a := rest + 1;
    }
  }

  lemma {:induction false} StripRightSlice(s: string) returns (b: nat)
    ensures b <= |s| && StripRight(s) == s[..b]
  {
    b := |s|;
    if s != "" && IsSpace(s[|s| - 1]) {
      b := StripRightSlice(s[..|s| - 1]);
      assert s[..|s| - 1][..b] == s[..b];
    }
  }

  lemma SliceOfSlice(s: string, a: nat, b: nat, i: nat, j: nat)
    requires a <= b <= |s| && i <= b - a && j <= b - a - i
    ensures s[a..b][i..][..j] == s[a + i..a + i + j]
  {
  }

  /** Stripping a slice leaves a slice. */
  lemma StripOccurs(s: string, a: nat, b: nat)
    requires a <= b <= |s|
    ensures Contains(s, Strip(s[a..b]))
  {
    hide StripLeft, StripRight;
    var i := StripLeftSlice(s[a..b]);
    var j := StripRightSlice(s[a..b][i..]);
    SliceOfSlice(s, a, b, i, j);
    SliceOccurs(s, a + i, a + i + j);
  }

  lemma PieceOccurs(pages: seq<PageText>, p: Pattern, groups: nat, g: nat)
    requires FirstFound(pages, p).Some? && Marks(p) == 2 * groups && g < groups
    ensures var f := FirstFound(pages, p).value;
            f.page in pages && Contains(f.page.text, Piece(f, g)) && Contains(f.page.text, Strip(Piece(f, g)))
  {
    hide FirstFound;
    var f := FirstFound(pages, p).value;
    FoundIsWell(pages, p, groups);
    SliceOccurs(f.page.text, f.marks[2 * g], f.marks[2 * g + 1]);
    StripOccurs(f.page.text, f.marks[2 * g], f.marks[2 * g + 1]);
  }

  /** A list of facts that are all cited. */
  ghost predicate AllCited(pages: seq<PageText>, facts: seq<Fact>)
  {
    forall i :: 0 <= i < |facts| ==> Cited(pages, facts[i])
  }

  lemma OneGroupCited(pages: seq<PageText>, p: Pattern, t: FactType, checksum: string)
    requires Marks(p) == 2
    ensures AllCited(pages, EmployerFacts(FirstFound(pages, p), checksum))
    ensures AllCited(pages, GrossFacts(FirstFound(pages, p), checksum))
    ensures AllCited(pages, PlainFacts(t, FirstFound(pages, p), checksum))
  {
    hide FirstFound, Piece, Strip, Contains, Marks, Income.RemoveCommas;
    if FirstFound(pages, p).Some? {
      PieceOccurs(pages, p, 1, 0);
    }
  }

  lemma TwoGroupsCited(pages: seq<PageText>, p: Pattern, checksum: string)
    requires Marks(p) == 4
    ensures AllCited(pages, NameFacts(FirstFound(pages, p), checksum))
    ensures AllCited(pages, AddressFacts(FirstFound(pages, p), checksum))
  {
    hide FirstFound, Piece, Strip, Contains, Marks;
    if FirstFound(pages, p).Some? {
      PieceOccurs(pages, p, 2, 0);
      PieceOccurs(pages, p, 2, 1);
    }
  }

  /** Every fact is read off the page it cites: its value occurs in that page's text. */
  lemma FactsAreCited(pages: seq<PageText>, classification: Classification, checksum: string)
    ensures AllCited(pages, FactsOf(pages, classification, checksum))
  {
    hide EMPLOYER_NAME, GROSS_PAY, TENURE, IDENTITY_NAME, DATE_OF_BIRTH, ADDRESS, SYNTHETIC_ID;
    PatternMarks();
    hide FirstFound, Cited, EmployerFacts, GrossFacts, PlainFacts, NameFacts, AddressFacts, Marks;
    match classification
    case IncomeProof =>
      OneGroupCited(pages, EMPLOYER_NAME, EmployerName, checksum);
      OneGroupCited(pages, GROSS_PAY, GrossMonthlyIncome, checksum);
      OneGroupCited(pages, TENURE, TenureMonths, checksum);
    case IdentityDocument =>
      TwoGroupsCited(pages, IDENTITY_NAME, checksum);
      OneGroupCited(pages, DATE_OF_BIRTH, DateOfBirth, checksum);
      TwoGroupsCited(pages, ADDRESS, checksum);
      OneGroupCited(pages, SYNTHETIC_ID, SyntheticId, checksum);
    case Unknown =>
  }

  /** No type of fact is reported twice. */
  lemma FactTypesAreDistinct(pages: seq<PageText>, classification: Classification, checksum: string, i: nat, j: nat)
    requires i < j < |FactsOf(pages, classification, checksum)|
    ensures FactsOf(pages, classification, checksum)[i].factType != FactsOf(pages, classification, checksum)[j].factType
  {
    hide FirstFound, Piece, Strip, EMPLOYER_NAME, GROSS_PAY, TENURE, IDENTITY_NAME, DATE_OF_BIRTH, ADDRESS, SYNTHETIC_ID;
  }

  lemma {:induction false} StripLeftEnds(s: string)
    ensures StripLeft(s) == "" || !IsSpace(StripLeft(s)[0])
  {
    if s != "" && IsSpace(s[0]) {
      StripLeftEnds(s[1..]);
    }
  }

  lemma {:induction false} StripRightEnds(s: string)
    ensures StripRight(s) <= s && (StripRight(s) == "" || !IsSpace(StripRight(s)[|StripRight(s)| - 1]))
  {
    if s != "" && IsSpace(s[|s| - 1]) {
      StripRightEnds(s[..|s| - 1]);
    }
  }

  lemma StripEnds(s: string)
    ensures Strip(s) == "" || (!IsSpace(Strip(s)[0]) && !IsSpace(Strip(s)[|Strip(s)| - 1]))
  {
    hide IsSpace;
    StripLeftEnds(s);
    StripRightEnds(StripLeft(s));
  }

  predicate IsLineFact(t: FactType)
  {
    t == EmployerName || t == StreetAddress || t == City
  }

  /** The facts that are read to the end of a line or up to a comma have no white space around them. */
  lemma FactsAreTrimmed(pages: seq<PageText>, classification: Classification, checksum: string, i: nat)
    requires i < |FactsOf(pages, classification, checksum)|
    requires IsLineFact(FactsOf(pages, classification, checksum)[i].factType)
    ensures var value := FactsOf(pages, classification, checksum)[i].value;
            value == "" || (!IsSpace(value[0]) && !IsSpace(value[|value| - 1]))
  {
    hide FirstFound, Piece, Strip, IsSpace, EMPLOYER_NAME, GROSS_PAY, TENURE, IDENTITY_NAME, DATE_OF_BIRTH, ADDRESS, SYNTHETIC_ID;
    var employer, address := FirstFound(pages, EMPLOYER_NAME), FirstFound(pages, ADDRESS);
    if classification == IncomeProof && employer.Some? {
      StripEnds(Piece(employer.value, 0));
    }
    if classification == IdentityDocument && address.Some? {
      StripEnds(Piece(address.value, 0));
      StripEnds(Piece(address.value, 1));
    }
  }
}
