/** A reader that follows a file from its end to its text: trailer, catalog, page tree, page, content,
    each by the reference it finds in the one before (ISO 32000-1, sections 7.5.5 and 7.7). */
module PdfDocument {
  import opened Prelude
  import opened Pdf
  import opened PdfReader
  import Decimal

  // ---- Entries of a dictionary ------------------------------------------------------------------

  /** The leftmost place a pattern occurs at, from a position on. */
  function FindFrom(s: string, pattern: string, from: nat): (at: Option<nat>)
    requires from <= |s|
    ensures at.Some? ==> from <= at.value && at.value + |pattern| <= |s| && StartsWith(s[at.value..], pattern)
    decreases |s| - from
  {
    if StartsWith(s[from..], pattern) then Some(from)
    else if from < |s| then FindFrom(s, pattern, from + 1)
    else None
  }

  /** What follows the first occurrence of a pattern. */
  function After(s: string, pattern: string): Option<string>
  {
    match FindFrom(s, pattern, 0)
    case None => None
    case Some(at) => Some(s[at + |pattern|..])
  }

  /** What precedes it. */
  function Before(s: string, pattern: string): Option<string>
  {
    match FindFrom(s, pattern, 0)
    case None => None
    case Some(at) => Some(s[..at])
  }

  function Number(s: string): Option<nat>
  {
    var digits := LeadingDigits(s);
    if digits == "" then None else Some(Decimal.Read(digits))
  }

  /** The number that follows a key. */
  function NumberAt(dictionary: string, key: string): Option<nat>
  {
    match After(dictionary, key)
    case None => None
    case Some(value) => Number(value)
  }

  /** The object a key refers to. */
  function Reference(dictionary: string, key: string): Option<nat>
  {
    match After(dictionary, key)
    case None => None
    case Some(value) =>
      if StartsWith(value[|LeadingDigits(value)|..], " 0 R") then Number(value) else None
  }

  // ---- Following references ---------------------------------------------------------------------

  /** The trailer: right after the last entry of the table, whose first entry is the free one, with the
      table's size in it. */
  function TrailerOf(file: string): Option<string>
  {
    match StartXref(file)
    case None => None
    case Some(at) =>
      if at > |file| || !StartsWith(file[at..], TABLE_LINE) then None
      else
        var size := LeadingDigits(file[at + |TABLE_LINE|..]);
        var entries := at + |TABLE_LINE| + |size| + 1;
        var end := entries + ENTRY_LENGTH * Decimal.Read(size);
        if end > |file| || !StartsWith(file[entries..], FIRST_ENTRY) || !StartsWith(file[end..], "trailer\n<< ") then None
        else if NumberAt(file[end..], "/Size ") != Some(Decimal.Read(size)) then None
        else Some(file[end..])
  }

  /** The text of an object, between its head and its end. */
  function ObjectText(file: string, number: nat): Option<string>
  {
    match ObjectOffset(file, number)
    case None => None
    case Some(at) =>
      var head := Decimal.Show(number) + " 0 obj\n";
      if at > |file| || !StartsWith(file[at..], head) then None else Before(file[at + |head|..], "\nendobj")
  }

  /** The object a key of a dictionary refers to, when it is of the type asked for. */
  function Follow(file: string, dictionary: Option<string>, key: string, ofType: string): Option<string>
  {
    match dictionary
    case None => None
    case Some(text) =>
      match Reference(text, key)
      case None => None
      case Some(number) =>
        match ObjectText(file, number)
        case None => None
        case Some(found) => if After(found, ofType).Some? then Some(found) else None
  }

  /** The only page of the file. */
  function PageOf(file: string): Option<string>
  {
    var catalog := Follow(file, TrailerOf(file), "/Root ", "/Type /Catalog ");
    var tree := Follow(file, catalog, "/Pages ", "/Type /Pages ");
    if tree.Some? && NumberAt(tree.value, "/Count ") == Some(1) then Follow(file, tree, "/Kids [", "/Type /Page ") else None
  }

  /** The name of the font that the page's resources give the name the text selects. */
  function FontOf(file: string, page: string): Option<string>
  {
    match Follow(file, After(page, "/Resources << /Font << "), "/F1 ", "/Type /Font ")
    case None => None
    case Some(font) =>
      match After(font, "/BaseFont /")
      case None => None
      case Some(name) => Before(name, " ")
  }

  /** The bytes of the page's content stream. */
  function ContentOf(file: string, page: string): Option<string>
  {
    match Reference(page, "/Contents ")
    case None => None
    case Some(number) =>
      match ObjectOffset(file, number)
      case None => None
      case Some(at) => if at > |file| then None else ReadStream(file[at..], number)
  }

  function TitleOf(file: string): Option<string>
  {
    match TrailerOf(file)
    case None => None
    case Some(trailer) =>
      match After(trailer, "/Info << /Title (")
      case None => None
      case Some(value) =>
        match Scan(value, 0)
        case None => None
        case Some((title, _)) => Some(title)
  }

  datatype Document = Document(title: string, font: string, lines: seq<string>)

  /** A document, by following the file from its end. */
  function ReadPdf(file: string): Option<Document>
  {
    var page := PageOf(file);
    if !StartsWith(file, "%PDF-1.4\n") || page.None? || FontOf(file, page.value).None? || TitleOf(file).None? then None
    else
      match ContentOf(file, page.value)
      case None => None
      case Some(content) =>
        if !StartsWith(content, TEXT_START) then None
        else
          match ReadShown(content[|TEXT_START|..], true)
          case None => None
          case Some(lines) => Some(Document(TitleOf(file).value, FontOf(file, page.value).value, lines))
  }

  // ---- Where a key is found ---------------------------------------------------------------------

  lemma {:induction false} FoundAt(s: string, pattern: string, from: nat, at: nat)
    requires from <= at <= |s| && StartsWith(s[at..], pattern)
    requires forall i :: from <= i < at ==> !StartsWith(s[i..], pattern)
    ensures FindFrom(s, pattern, from) == Some(at)
    decreases at - from
  {
    hide StartsWith;
    if from < at {
      FoundAt(s, pattern, from + 1, at);
    }
  }

  lemma CharOf(s: string, pattern: string, i: nat, k: nat)
    requires i <= |s| && k < |pattern| && StartsWith(s[i..], pattern)
    ensures i + k < |s| && s[i + k] == pattern[k]
  {
    assert s[i..][..|pattern|][k] == pattern[k];
  }

  /** A pattern with a character that what precedes it does not have. */
  lemma FoundAfter(before: string, pattern: string, after: string, k: nat)
    requires k < |pattern| && pattern[k] !in before && pattern[k] !in pattern[..k]
    ensures After(before + pattern + after, pattern) == Some(after)
    ensures Before(before + pattern + after, pattern) == Some(before)
  {
    var s, at := before + pattern + after, |before|;
    assert s[at..] == pattern + after;
    forall j | 0 <= j < at + k ensures s[j] != pattern[k] {
      assert s[j] == if j < at then before[j] else pattern[..k][j - at];
    }
    forall i | 0 <= i < at ensures !StartsWith(s[i..], pattern) {
      if StartsWith(s[i..], pattern) {
        CharOf(s, pattern, i, k);
        assert false;
      }
    }
    StartsWithConcat(pattern, after);
    FoundAt(s, pattern, 0, at);
    assert s[at + |pattern|..] == after;
    assert s[..at] == before;
  }

  lemma RefersTo(dictionary: string, key: string, number: nat, rest: string)
    requires After(dictionary, key) == Some(Decimal.Show(number) + (" 0 R" + rest))
    ensures Reference(dictionary, key) == Some(number)
  {
    hide Decimal.Show, LeadingDigits, After, Decimal.Read;
    var value := Decimal.Show(number) + (" 0 R" + rest);
    assert (" 0 R" + rest)[0] == ' ';
    ShownNumber(number, " 0 R" + rest);
    assert value[|Decimal.Show(number)|..] == " 0 R" + rest;
    StartsWithConcat(" 0 R", rest);
  }

  // ---- What the writer has put there ------------------------------------------------------------

  /** An entry that refers to an object, behind entries that do not share a character with its key. */
  lemma ReferenceFound(before: string, key: string, number: nat, rest: string, k: nat)
    requires k < |key| && key[k] !in before && key[k] !in key[..k]
    ensures Reference(before + key + (Decimal.Show(number) + (" 0 R" + rest)), key) == Some(number)
  {
    hide After, Before, Reference, Decimal.Show;
    var value := Decimal.Show(number) + (" 0 R" + rest);
    FoundAfter(before, key, value, k);
    RefersTo(before + key + value, key, number, rest);
  }

  lemma ShownDigit(n: nat)
    requires n < 10
    ensures Decimal.Show(n) == [Decimal.DigitChar(n)]
  {
  }

  lemma CatalogParts()
    ensures CATALOG_TYPE == "<< " + "/Type /Catalog " + "" && '/' !in "<< " && 'P' !in CATALOG_TYPE
    ensures CATALOG_PAGES == "/Pages " + (Decimal.Show(2) + (" 0 R" + " >>"))
  {
    ShownDigit(2);
  }

  lemma CatalogEntries()
    ensures After(CATALOG, "/Type /Catalog ").Some? && Reference(CATALOG, "/Pages ") == Some(2)
  {
    CatalogParts();
    hide After, Before, Reference, Decimal.Show, CATALOG_TYPE, CATALOG_PAGES;
    FoundAfter("<< ", "/Type /Catalog ", CATALOG_PAGES, 0);
    assert CATALOG == "<< " + "/Type /Catalog " + CATALOG_PAGES;
    ReferenceFound(CATALOG_TYPE, "/Pages ", 2, " >>", 1);
    assert CATALOG == CATALOG_TYPE + "/Pages " + (Decimal.Show(2) + (" 0 R" + " >>"));
  }

  lemma TreeParts()
    ensures PAGES_TYPE == "<< " + "/Type /Pages " + "" && '/' !in "<< " && 'K' !in PAGES_TYPE && 'C' !in PAGES_TYPE && 'C' !in PAGES_KIDS
    ensures PAGES_KIDS == "/Kids [" + (Decimal.Show(3) + (" 0 R" + "] "))
    ensures PAGES_COUNT == "/Count " + (Decimal.Show(1) + " >>")
  {
    ShownDigit(3);
    ShownDigit(1);
  }

  lemma TreeEntries()
    ensures After(PAGES, "/Type /Pages ").Some? && NumberAt(PAGES, "/Count ") == Some(1) && Reference(PAGES, "/Kids [") == Some(3)
  {
    TreeParts();
    hide After, Before, Reference, Decimal.Show, LeadingDigits, PAGES_TYPE, PAGES_KIDS, PAGES_COUNT;
    FoundAfter("<< ", "/Type /Pages ", PAGES_KIDS + PAGES_COUNT, 0);
    assert PAGES == "<< " + "/Type /Pages " + (PAGES_KIDS + PAGES_COUNT);
    FoundAfter(PAGES_TYPE + PAGES_KIDS, "/Count ", Decimal.Show(1) + " >>", 1);
    assert PAGES == PAGES_TYPE + PAGES_KIDS + "/Count " + (Decimal.Show(1) + " >>");
    ShownNumber(1, " >>");
    ReferenceFound(PAGES_TYPE, "/Kids [", 3, "] " + PAGES_COUNT, 1);
    var kids := Decimal.Show(3) + (" 0 R" + "] ");
    assert kids + PAGES_COUNT == Decimal.Show(3) + (" 0 R" + ("] " + PAGES_COUNT));
    assert PAGES == PAGES_TYPE + "/Kids [" + (kids + PAGES_COUNT);
  }

  /** What follows the key of the fonts in a page. */
  const FONTS := PAGE_FONT + PAGE_BOX + PAGE_CONTENTS

  lemma PageType()
    ensures PAGE_TYPE == "<< " + "/Type /Page " + "/Parent 2 0 R " && '/' !in "<< " && 's' !in PAGE_TYPE
  {
  }

  lemma PageParts()
    ensures PAGE_CONTENTS == "/Contents " + (Decimal.Show(5) + (" 0 R" + " >>"))
    ensures 'C' !in PAGE_TYPE && 'C' !in PAGE_RESOURCES && 'C' !in PAGE_FONT && 'C' !in PAGE_BOX
    ensures PAGE_RESOURCES == "/Resources << /Font << "
  {
    ShownDigit(5);
  }

  lemma PageEntries()
    ensures After(PAGE, "/Type /Page ").Some? && Reference(PAGE, "/Contents ") == Some(5)
    ensures After(PAGE, "/Resources << /Font << ") == Some(FONTS)
  {
    PageType();
    PageParts();
    hide After, Before, Reference, Decimal.Show, PAGE_TYPE, PAGE_RESOURCES, PAGE_FONT, PAGE_BOX, PAGE_CONTENTS;
    assert PAGE == PAGE_TYPE + PAGE_RESOURCES + FONTS;
    FoundAfter(PAGE_TYPE, PAGE_RESOURCES, FONTS, 3);
    var before := PAGE_TYPE + PAGE_RESOURCES + PAGE_FONT + PAGE_BOX;
    ReferenceFound(before, "/Contents ", 5, " >>", 1);
    assert PAGE == before + "/Contents " + (Decimal.Show(5) + (" 0 R" + " >>"));
    FoundAfter("<< ", "/Type /Page ", "/Parent 2 0 R " + (PAGE_RESOURCES + FONTS), 0);
    assert PAGE == "<< " + "/Type /Page " + ("/Parent 2 0 R " + (PAGE_RESOURCES + FONTS));
  }

  lemma FontParts()
    ensures PAGE_FONT == "/F1 " + (Decimal.Show(4) + (" 0 R" + " >> >> ")) && '/' !in "<< "
    ensures FONT_TYPE == "<< " + "/Type /Font " + "/Subtype /Type1 " && 'B' !in FONT_TYPE
    ensures FONT_NAME == "/BaseFont /" + ("Helvetica" + " " + ">>") && ' ' !in "Helvetica"
  {
    ShownDigit(4);
  }

  lemma FontEntries()
    ensures Reference(FONTS, "/F1 ") == Some(4) && After(FONT, "/Type /Font ").Some?
    ensures After(FONT, "/BaseFont /") == Some("Helvetica" + " " + ">>")
    ensures Before("Helvetica" + " " + ">>", " ") == Some("Helvetica")
  {
    FontParts();
    hide After, Before, Reference, Decimal.Show, PAGE_FONT, PAGE_BOX, PAGE_CONTENTS, FONT_TYPE, FONT_NAME;
    var more := PAGE_BOX + PAGE_CONTENTS;
    ReferenceFound("", "/F1 ", 4, " >> >> " + more, 0);
    var f1 := Decimal.Show(4) + (" 0 R" + " >> >> ");
    assert f1 + more == Decimal.Show(4) + (" 0 R" + (" >> >> " + more));
    assert FONTS == "" + "/F1 " + (f1 + more);
    FoundAfter("<< ", "/Type /Font ", "/Subtype /Type1 " + FONT_NAME, 0);
    assert FONT == "<< " + "/Type /Font " + ("/Subtype /Type1 " + FONT_NAME);
    FoundAfter(FONT_TYPE, "/BaseFont /", "Helvetica" + " " + ">>", 1);
    assert FONT == FONT_TYPE + "/BaseFont /" + ("Helvetica" + " " + ">>");
    FoundAfter("Helvetica", " ", ">>", 0);
  }

  lemma TrailerParts()
    ensures TRAILER_SIZE == "trailer\n<< " + "/Size " && 'S' !in "trailer\n<< "
    ensures 'R' !in TRAILER_SIZE && 'I' !in TRAILER_SIZE && 'I' !in TRAILER_ROOT
    ensures TRAILER_ROOT == " " + "/Root " + (Decimal.Show(1) + (" 0 R" + " "))
    ensures TRAILER_INFO == "/Info << /Title (" && TRAILER_END == ")" + " >> >>\n"
    ensures 'R' !in Decimal.Show(6) && 'I' !in Decimal.Show(6)
  {
    ShownDigit(1);
    ShownDigit(6);
  }

  lemma TrailerEntries(title: string, more: string)
    ensures var text := Trailer(title, 6) + more;
            && StartsWith(text, "trailer\n<< ") && NumberAt(text, "/Size ") == Some(6) && Reference(text, "/Root ") == Some(1)
            && After(text, "/Info << /Title (") == Some(Escaped(title) + ")" + (" >> >>\n" + more))
  {
    TrailerParts();
    hide After, Before, Reference, NumberAt, Decimal.Show, EscapePdfText, Escaped, StartsWith, TRAILER_SIZE, TRAILER_ROOT, TRAILER_INFO,
      TRAILER_END;
    ThreeReplacesAreOnePass(title);
    var text, size, shown := Trailer(title, 6) + more, Decimal.Show(6), Escaped(title) + TRAILER_END + more;
    assert shown == Escaped(title) + ")" + (" >> >>\n" + more);
    var info := TRAILER_INFO + shown;
    assert text == TRAILER_SIZE + size + TRAILER_ROOT + TRAILER_INFO + shown;
    FoundAfter(TRAILER_SIZE + size + TRAILER_ROOT, TRAILER_INFO, shown, 1);
    assert text == TRAILER_SIZE + size + TRAILER_ROOT + info;
    SizeFound(info, text);
    RootFound(info, size, text);
  }

  lemma SizeFound(info: string, text: string)
    requires text == TRAILER_SIZE + Decimal.Show(6) + TRAILER_ROOT + info
    ensures StartsWith(text, "trailer\n<< ") && NumberAt(text, "/Size ") == Some(6)
  {
    TrailerParts();
    hide After, Before, Decimal.Show, Decimal.Read, LeadingDigits, TRAILER_SIZE, TRAILER_ROOT;
    var size, rest := Decimal.Show(6), TRAILER_ROOT + info;
    FoundAfter("trailer\n<< ", "/Size ", size + rest, 1);
    assert text == "trailer\n<< " + "/Size " + (size + rest);
    assert rest[0] == ' ';
    ShownNumber(6, rest);
    StartsWithConcat("trailer\n<< ", "/Size " + (size + rest));
    assert text == "trailer\n<< " + ("/Size " + (size + rest));
  }

  lemma RootFound(info: string, size: string, text: string)
    requires text == TRAILER_SIZE + size + TRAILER_ROOT + info && 'R' !in size
    ensures Reference(text, "/Root ") == Some(1)
  {
    TrailerParts();
    hide After, Before, Reference, Decimal.Show, TRAILER_SIZE, TRAILER_ROOT;
    var before := TRAILER_SIZE + size + " ";
    ReferenceFound(before, "/Root ", 1, " " + info, 1);
    var one := Decimal.Show(1) + (" 0 R" + " ");
    assert one + info == Decimal.Show(1) + (" 0 R" + (" " + info));
    assert text == before + "/Root " + (one + info);
  }

  // ---- The whole file ---------------------------------------------------------------------------

  /** The text of an object that is written at the start of `s`. */
  lemma ObjectAtHead(s: string, k: nat, body: string)
    requires StartsWith(s, IndirectObject(k, body)) && '\n' !in body
    ensures var head := Decimal.Show(k) + " 0 obj\n";
            StartsWith(s, head) && Before(s[|head|..], "\nendobj") == Some(body)
  {
    hide Decimal.Show, Before, After, StartsWith;
    var head := Decimal.Show(k) + " 0 obj\n";
    StartsWithPart(s, k, body);
    var rest := RestOf(s, IndirectObject(k, body));
    assert IndirectObject(k, body) == head + (body + "\nendobj\n");
    hide IndirectObject;
    assert s == head + (body + "\nendobj" + ("\n" + rest));
    assert s[|head|..] == body + "\nendobj" + ("\n" + rest);
    FoundAfter(body, "\nendobj", "\n" + rest, 0);
  }

  lemma RestOf(s: string, prefix: string) returns (rest: string)
    requires StartsWith(s, prefix)
    ensures s == prefix + rest
  {
    rest := s[|prefix|..];
  }

  /** An object of one line is read whole. */
  lemma ObjectTextFound(title: string, bodies: seq<string>, k: nat)
    requires 1 <= k <= |bodies| && Small(OffsetsOf(bodies)) && '\n' !in bodies[k - 1]
    ensures ObjectText(FileOf(title, bodies), k) == Some(bodies[k - 1])
  {
    hide FileOf, OffsetsOf, ObjectOffset, Small, StartsWith, IndirectObject, ObjectText;
    ObjectFound(title, bodies, k);
    TextAt(FileOf(title, bodies), k, OffsetsOf(bodies)[k - 1], bodies[k - 1]);
  }

  lemma TextAt(file: string, k: nat, at: nat, body: string)
    requires ObjectOffset(file, k) == Some(at) && at <= |file| && '\n' !in body
    requires StartsWith(file[at..], IndirectObject(k, body))
    ensures ObjectText(file, k) == Some(body)
  {
    hide ObjectOffset, StartsWith, Decimal.Show, Before, IndirectObject;
    var head := Decimal.Show(k) + " 0 obj\n";
    ObjectAtHead(file[at..], k, body);
    PrefixFits(file[at..], head);
    assert file[at + |head|..] == file[at..][|head|..];
  }

  lemma PrefixFits(s: string, prefix: string)
    requires StartsWith(s, prefix)
    ensures |prefix| <= |s|
  {
  }

  /** The trailer stands right behind the last entry. */
  lemma TrailerFound(title: string, bodies: seq<string>)
    requires |bodies| == 5 && Small(OffsetsOf(bodies))
    ensures var more := STARTXREF + Decimal.Show(|UpTo(bodies)|) + END_OF_FILE;
            TrailerOf(FileOf(title, bodies)) == Some(Trailer(title, 6) + more)
  {
    hide UpTo, OffsetsOf, Small, Trailer, LeadingDigits, Decimal.Show, StartXref, XrefTable, StartsWith, NumberAt, XREF, TABLE_LINE,
      FIRST_ENTRY, Decimal.Read;
    var start, at := UpTo(bodies), |UpTo(bodies)|;
    var more := STARTXREF + Decimal.Show(at) + END_OF_FILE;
    var rest := Trailer(title, 6) + more;
    var file := FileOf(title, bodies);
    StartXrefOf(start + XrefTable(bodies) + Trailer(title, 6), at);
    assert file == start + XrefTable(bodies) + rest;
    assert file == start + XrefTable(bodies) + Trailer(title, 6) + STARTXREF + Decimal.Show(at) + END_OF_FILE;
    hide FileOf, STARTXREF, END_OF_FILE;
    AfterTable(start, bodies, rest);
    TrailerEntries(title, more);
  }

  /** The table's size, its free entry, and what follows its last entry. */
  lemma AfterTable(start: string, bodies: seq<string>, rest: string)
    requires |bodies| == 5 && Small(OffsetsOf(bodies))
    ensures var file := start + XrefTable(bodies) + rest;
            && |start| + |TABLE_LINE| <= |file| && StartsWith(file[|start|..], TABLE_LINE)
            && var size := LeadingDigits(file[|start| + |TABLE_LINE|..]);
            && Decimal.Read(size) == 6
            && var entries := |start| + |TABLE_LINE| + |size| + 1;
            && entries + ENTRY_LENGTH * 6 <= |file|
            && StartsWith(file[entries..], FIRST_ENTRY) && file[entries + ENTRY_LENGTH * 6..] == rest
  {
    SameTokens();
    TokenLengths();
    Decimal.ReadShow(6);
    EntriesAt(OffsetsOf(bodies), 0);
    hide OffsetsOf, Entries, Small, LeadingDigits, Decimal.Show, Decimal.Read, XREF, FREE_ENTRY, TABLE_LINE, FIRST_ENTRY, StartsWith;
    var entries, size := Entries(OffsetsOf(bodies)), Decimal.Show(6);
    var table := "\n" + FREE_ENTRY + entries + rest;
    var file := start + XrefTable(bodies) + rest;
    Regroup(start, XREF, size, "\n", FREE_ENTRY, entries, rest);
    assert table[0] == '\n';
    TableStart(start, 6, table);
    Tail(start + XREF + size + "\n", FREE_ENTRY, entries, rest);
    StartsWithConcat(FREE_ENTRY, entries + rest);
  }

  lemma Tail(a: string, free: string, entries: string, rest: string)
    ensures var file := a + free + entries + rest;
            file[|a|..] == free + (entries + rest) && file[|a| + |free| + |entries|..] == rest
  {
  }

  lemma NoFeeds()
    ensures '\n' !in CATALOG && '\n' !in PAGES && '\n' !in PAGE && '\n' !in FONT
  {
    NoFeedsInTree();
    NoFeedsInPage();
    NoFeedsInFont();
    hide CATALOG_TYPE, CATALOG_PAGES, PAGES_TYPE, PAGES_KIDS, PAGES_COUNT, PAGE_TYPE, PAGE_RESOURCES, PAGE_FONT, PAGE_BOX,
      PAGE_CONTENTS, FONT_TYPE, FONT_NAME;
  }

  lemma NoFeedsInTree()
    ensures '\n' !in CATALOG_TYPE && '\n' !in CATALOG_PAGES && '\n' !in PAGES_TYPE && '\n' !in PAGES_KIDS && '\n' !in PAGES_COUNT
  {
  }

  lemma NoFeedsInPage()
    ensures '\n' !in PAGE_TYPE && '\n' !in PAGE_RESOURCES && '\n' !in PAGE_FONT
    ensures '\n' !in PAGE_BOX && '\n' !in PAGE_CONTENTS
  {
  }

  lemma NoFeedsInFont()
    ensures '\n' !in FONT_TYPE && '\n' !in FONT_NAME
  {
  }

  /** From the end of the file to its page. */
  lemma PageFound(title: string, content: string)
    ensures PageOf(FileOf(title, Bodies(content))) == Some(PAGE)
  {
    hide FileOf, OffsetsOf, Small, StreamBody, ObjectText, TrailerOf, Trailer, After, Reference, NumberAt, CATALOG, PAGES, PAGE, FONT,
      Decimal.Show, UpTo;
    var bodies := Bodies(content);
    OffsetsAreSmall(content);
    TrailerFound(title, bodies);
    TrailerEntries(title, STARTXREF + Decimal.Show(|UpTo(bodies)|) + END_OF_FILE);
    NoFeeds();
    CatalogEntries();
    TreeEntries();
    PageEntries();
    ObjectTextFound(title, bodies, 1);
    ObjectTextFound(title, bodies, 2);
    ObjectTextFound(title, bodies, 3);
  }

  lemma FontFound(title: string, content: string)
    ensures FontOf(FileOf(title, Bodies(content)), PAGE) == Some("Helvetica")
  {
    hide FileOf, OffsetsOf, Small, StreamBody, ObjectText, After, Before, Reference, CATALOG, PAGES, PAGE, FONT, FONTS;
    var bodies := Bodies(content);
    OffsetsAreSmall(content);
    NoFeeds();
    PageEntries();
    FontEntries();
    ObjectTextFound(title, bodies, 4);
  }

  lemma TitleFound(title: string, content: string)
    ensures TitleOf(FileOf(title, Bodies(content))) == Some(NormalEol(title))
  {
    hide FileOf, OffsetsOf, Small, Bodies, TrailerOf, Trailer, After, Reference, NumberAt, Scan, Escaped, NormalEol, Decimal.Show, UpTo;
    var bodies := Bodies(content);
    var more := STARTXREF + Decimal.Show(|UpTo(bodies)|) + END_OF_FILE;
    OffsetsAreSmall(content);
    TrailerFound(title, bodies);
    TrailerEntries(title, more);
    ScanUndoesEscape(title, " >> >>\n" + more);
  }

  lemma ContentFound(title: string, content: string)
    ensures ContentOf(FileOf(title, Bodies(content)), PAGE) == Some(content)
  {
    hide FileOf, OffsetsOf, Small, StreamBody, Reference, CATALOG, PAGES, PAGE, FONT, ObjectOffset, ReadStream, IndirectObject;
    var bodies := Bodies(content);
    var file := FileOf(title, bodies);
    OffsetsAreSmall(content);
    PageEntries();
    ObjectFound(title, bodies, 5);
    var at, object5 := OffsetsOf(bodies)[4], IndirectObject(5, StreamBody(content));
    assert file[at..] == object5 + file[at..][|object5|..];
    StreamIsRead(5, content, file[at..][|object5|..]);
  }

  lemma HeaderFound(title: string, bodies: seq<string>)
    ensures StartsWith(FileOf(title, bodies), "%PDF-1.4\n")
  {
    hide IndirectObject, XrefTable, Trailer, Decimal.Show;
    UpToGrows(bodies, 0);
    assert bodies[..0] == [] && UpTo([]) == HEADER;
    hide UpTo;
    var rest := FileOf(title, bodies)[|UpTo(bodies)|..];
    assert FileOf(title, bodies) == UpTo(bodies) + rest;
  }

  /** The round trip. Whatever the title and the lines, following a written file from its end, by the
      references in it alone, gives the title, the font and every line, in order, the lines in their
      Latin-1 form, and every end-of-line as a line feed. */
  lemma WrittenFileReads(title: string, lines: seq<string>)
    ensures ReadPdf(FileOf(title, Bodies(ContentStream(lines))))
            == Some(Document(NormalEol(title), "Helvetica", Decoded(lines)))
  {
    hide FileOf, Bodies, ContentStream, PageOf, FontOf, TitleOf, ContentOf, ReadShown, ShownBytes, TEXT_START, NormalEol, StartsWith, PAGE;
    var content := ContentStream(lines);
    HeaderFound(title, Bodies(content));
    PageFound(title, content);
    FontFound(title, content);
    TitleFound(title, content);
    ContentFound(title, content);
    ContentSplits(lines);
    StartsWithConcat(TEXT_START, ShownBytes(lines, true));
    assert content[|TEXT_START|..] == ShownBytes(lines, true);
    ShownIsRead(lines, true);
  }

  /** A document comes back unchanged if and only if every character of its lines is Latin-1 and neither
      they nor the title has a carriage return. */
  lemma TextSurvivesIff(title: string, lines: seq<string>)
    ensures ReadPdf(FileOf(title, Bodies(ContentStream(lines)))) == Some(Document(title, "Helvetica", lines))
            <==> IsLatin1(lines) && '\r' !in title && forall i :: 0 <= i < |lines| ==> '\r' !in lines[i]
  {
    hide FileOf, ContentStream, ReadPdf, NormalEol, Bodies, IsBytes;
    WrittenFileReads(title, lines);
    NormalEolKeeps(title);
    forall i | 0 <= i < |lines| ensures Decoded(lines)[i] == lines[i] <==> IsBytes(lines[i]) && '\r' !in lines[i] {
      DecodedKeeps(lines[i]);
    }
    if IsLatin1(lines) && (forall i :: 0 <= i < |lines| ==> '\r' !in lines[i]) {
      assert Decoded(lines) == lines;
    }
  }
}
