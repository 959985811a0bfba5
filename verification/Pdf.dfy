/** The minimal PDF writer: escaping, the content stream, the objects and their offsets, the
    cross-reference table and the trailer. A byte string is a string of characters below 256. */
module Pdf {
  import opened Prelude
  import Decimal

  // ---- Text -------------------------------------------------------------------------------------

  function Replace(s: string, c: char, escape: string): string
  {
    if s == "" then "" else (if s[0] == c then escape else [s[0]]) + Replace(s[1..], c, escape)
  }

  /** The writer's escaping: three replacements, one after another, the backslash first. */
  function EscapePdfText(text: string): string
  {
    Replace(Replace(Replace(text, '\\', "\\\\"), '(', "\\("), ')', "\\)")
  }

  function EscapeChar(c: char): string
  {
    if c == '\\' then "\\\\" else if c == '(' then "\\(" else if c == ')' then "\\)" else [c]
  }

  /** Escaping character by character. */
  function Escaped(s: string): string
  {
    if s == "" then "" else EscapeChar(s[0]) + Escaped(s[1..])
  }

  lemma Associative(a: string, b: string, c: string)
    ensures a + (b + c) == (a + b) + c
  {
  }

  lemma {:induction false} ReplaceConcat(a: string, b: string, c: char, escape: string)
    ensures Replace(a + b, c, escape) == Replace(a, c, escape) + Replace(b, c, escape)
  {
    if a == "" {
      assert a + b == b;
    } else {
      ReplaceConcat(a[1..], b, c, escape);
      assert (a + b)[0] == a[0] && (a + b)[1..] == a[1..] + b;
      var head := if a[0] == c then escape else [a[0]];
      assert Replace(a + b, c, escape) == head + Replace(a[1..] + b, c, escape);
      assert Replace(a, c, escape) == head + Replace(a[1..], c, escape);
      Associative(head, Replace(a[1..], c, escape), Replace(b, c, escape));
    }
  }

  lemma EscapeOneChar(c: char)
    ensures EscapePdfText([c]) == EscapeChar(c)
  {
    if c == '\\' {
      assert Replace([c], '\\', "\\\\") == "\\\\";
      assert Replace("\\\\", '(', "\\(") == "\\" + Replace("\\", '(', "\\(") == "\\\\";
      assert Replace("\\\\", ')', "\\)") == "\\" + Replace("\\", ')', "\\)") == "\\\\";
    } else if c == '(' {
      assert Replace([c], '\\', "\\\\") == "(";
      assert Replace("(", '(', "\\(") == "\\(";
      assert Replace("\\(", ')', "\\)") == "\\" + Replace("(", ')', "\\)") == "\\(";
    } else {
      assert Replace([c], '\\', "\\\\") == [c];
      assert Replace([c], '(', "\\(") == [c];
    }
  }

  /** The three replacements do not interfere: together they escape each character by itself. */
  lemma {:induction false} ThreeReplacesAreOnePass(text: string)
    ensures EscapePdfText(text) == Escaped(text)
  {
    if text != "" {
      var head, tail := [text[0]], text[1..];
      assert text == head + tail;
      ThreeReplacesAreOnePass(tail);
      EscapeOneChar(text[0]);
      var a, b := Replace(head, '\\', "\\\\"), Replace(tail, '\\', "\\\\");
      ReplaceConcat(head, tail, '\\', "\\\\");
      ReplaceConcat(a, b, '(', "\\(");
      ReplaceConcat(Replace(a, '(', "\\("), Replace(b, '(', "\\("), ')', "\\)");
    }
  }

  /** Latin-1 with a question mark for every character it lacks. */
  function Encoded(s: string): (bytes: string)
    ensures |bytes| == |s|
    ensures forall i :: 0 <= i < |s| ==> bytes[i] == if s[i] as int < 256 then s[i] else '?'
  {
    seq(|s|, i requires 0 <= i < |s| => if s[i] as int < 256 then s[i] else '?')
  }

  predicate IsBytes(s: string)
  {
    forall i :: 0 <= i < |s| ==> s[i] as int < 256
  }

  predicate IsAscii(s: string)
  {
    forall i :: 0 <= i < |s| ==> s[i] as int < 128
  }

  lemma EncodedConcat(a: string, b: string)
    ensures Encoded(a + b) == Encoded(a) + Encoded(b)
  {
  }

  lemma {:induction false} EscapedConcat(a: string, b: string)
    ensures Escaped(a + b) == Escaped(a) + Escaped(b)
  {
    hide EscapeChar;
    if a == "" {
      assert a + b == b;
    } else {
      EscapedConcat(a[1..], b);
      assert (a + b)[0] == a[0] && (a + b)[1..] == a[1..] + b;
      var head := EscapeChar(a[0]);
      assert Escaped(a + b) == head + Escaped(a[1..] + b);
      assert Escaped(a) == head + Escaped(a[1..]);
      Associative(head, Escaped(a[1..]), Escaped(b));
    }
  }

  /** Escaping and encoding commute: nothing that is replaced needs escaping. */
  lemma {:induction false} EscapeEncodeCommute(s: string)
    ensures Encoded(Escaped(s)) == Escaped(Encoded(s))
  {
    if s == "" {
      assert Encoded(s) == "";
    } else {
      EscapeEncodeCommute(s[1..]);
      EncodedConcat(EscapeChar(s[0]), Escaped(s[1..]));
      assert Encoded(EscapeChar(s[0])) == EscapeChar(Encoded(s)[0]);
      assert Encoded(s)[1..] == Encoded(s[1..]);
    }
  }

  // ---- The content stream -----------------------------------------------------------------------

  function Join(lines: seq<string>): string
  {
    if lines == [] then ""
    else if |lines| == 1 then lines[0]
    else lines[0] + "\n" + Join(lines[1..])
  }

  const CONTENT_START: seq<string> := ["BT", "/F1 12 Tf", "72 720 Td", "14 TL"]

  function ShowOperator(line: string): string
  {
    "(" + EscapePdfText(line) + ") Tj"
  }

  /** The operators of the first lines, with a line feed between two. */
  function LineOperators(lines: seq<string>): seq<string>
  {
    if lines == [] then []
    else
      var n := |lines| - 1;
      LineOperators(lines[..n]) + (if n > 0 then ["T*"] else []) + [ShowOperator(lines[n])]
  }

  function ContentStream(lines: seq<string>): string
  {
    Encoded(Join(CONTENT_START + LineOperators(lines) + ["ET"]))
  }

  // ---- The file ---------------------------------------------------------------------------------

  const HEADER := "%PDF-1.4\n"
  /** The entries of the dictionaries, each object a line. */
  const CATALOG_TYPE := "<< /Type /Catalog "
  const CATALOG_PAGES := "/Pages 2 0 R >>"
  const PAGES_TYPE := "<< /Type /Pages "
  const PAGES_KIDS := "/Kids [3 0 R] "
  const PAGES_COUNT := "/Count 1 >>"
  const PAGE_TYPE := "<< /Type /Page /Parent 2 0 R "
  const PAGE_RESOURCES := "/Resources << /Font << "
  const PAGE_FONT := "/F1 4 0 R >> >> "
  const PAGE_BOX := "/MediaBox [0 0 612 792] "
  const PAGE_CONTENTS := "/Contents 5 0 R >>"
  const FONT_TYPE := "<< /Type /Font /Subtype /Type1 "
  const FONT_NAME := "/BaseFont /Helvetica >>"

  const CATALOG := CATALOG_TYPE + CATALOG_PAGES
  const PAGES := PAGES_TYPE + PAGES_KIDS + PAGES_COUNT
  const PAGE := PAGE_TYPE + PAGE_RESOURCES + PAGE_FONT + PAGE_BOX + PAGE_CONTENTS
  const FONT := FONT_TYPE + FONT_NAME

  const STREAM_HEAD := "<< /Length "
  const STREAM_OPEN := " >>\nstream\n"
  const STREAM_CLOSE := "\nendstream"

  function StreamBody(content: string): string
  {
    STREAM_HEAD + Decimal.Show(|content|) + STREAM_OPEN + content + STREAM_CLOSE
  }

  function Bodies(content: string): seq<string>
  {
    [CATALOG, PAGES, PAGE, FONT, StreamBody(content)]
  }

  /** One numbered object. */
  function IndirectObject(number: nat, body: string): string
  {
    Decimal.Show(number) + " 0 obj\n" + body + "\nendobj\n"
  }

  /** The file up to the end of its first objects. */
  function UpTo(bodies: seq<string>): string
  {
    if bodies == [] then HEADER
    else UpTo(bodies[..|bodies| - 1]) + IndirectObject(|bodies|, bodies[|bodies| - 1])
  }

  function Zeros(n: nat): string
  {
    if n == 0 then "" else "0" + Zeros(n - 1)
  }

  /** Zero-padded to ten digits; longer numbers are printed whole. */
  function Pad10(n: nat): string
  {
    var s := Decimal.Show(n);
    if |s| >= 10 then s else Zeros(10 - |s|) + s
  }

  const XREF := "xref\n0 "
  const STARTXREF := "startxref\n"
  const END_OF_FILE := "\n%%EOF"
  const FREE_ENTRY := "0000000000 65535 f \n"

  function Entry(offset: nat): string
  {
    Pad10(offset) + " 00000 n \n"
  }

  function Entries(offsets: seq<nat>): string
  {
    if offsets == [] then "" else Entries(offsets[..|offsets| - 1]) + Entry(offsets[|offsets| - 1])
  }

  function OffsetsOf(bodies: seq<string>): (offsets: seq<nat>)
    ensures |offsets| == |bodies|
  {
    if bodies == [] then []
    else OffsetsOf(bodies[..|bodies| - 1]) + [|UpTo(bodies[..|bodies| - 1])|]
  }

  function XrefTable(bodies: seq<string>): string
  {
    XREF + Decimal.Show(|bodies| + 1) + "\n" + FREE_ENTRY + Entries(OffsetsOf(bodies))
  }

  const TRAILER_SIZE := "trailer\n<< /Size "
  const TRAILER_ROOT := " /Root 1 0 R "
  const TRAILER_INFO := "/Info << /Title ("
  const TRAILER_END := ") >> >>\n"

  function Trailer(title: string, size: nat): string
  {
    TRAILER_SIZE + Decimal.Show(size) + TRAILER_ROOT + TRAILER_INFO + EscapePdfText(title) + TRAILER_END
  }

  function FileOf(title: string, bodies: seq<string>): string
  {
    UpTo(bodies) + XrefTable(bodies) + Trailer(title, |bodies| + 1)
    + STARTXREF + Decimal.Show(|UpTo(bodies)|) + END_OF_FILE
  }

  datatype EncodeError = NotAscii

  method WriteContent(lines: seq<string>) returns (content: string)
    ensures content == ContentStream(lines)
  {
    hide Join, EscapePdfText;
    var contentLines := CONTENT_START;
    var i := 0;
    while i < |lines|
      invariant 0 <= i <= |lines|
      invariant contentLines == CONTENT_START + LineOperators(lines[..i])
    {
      hide ShowOperator;
      assert lines[..i + 1][..i] == lines[..i];
      if i > 0 {
        contentLines := contentLines + ["T*"];
      }
      contentLines := contentLines + [ShowOperator(lines[i])];
      i := i + 1;
    }
    assert lines[..i] == lines;
    contentLines := contentLines + ["ET"];
    content := Encoded(Join(contentLines));
  }

  /** The writer. Lines may hold any characters; a title beyond ASCII raises. */
  method BuildMinimalPdf(title: string, lines: seq<string>) returns (r: Result<string, EncodeError>)
    ensures r == if IsAscii(title) then Ok(FileOf(title, Bodies(ContentStream(lines)))) else Err(NotAscii)
  {
    hide ContentStream, EscapePdfText, Decimal.Show, Bodies, UpTo, Entries, Trailer, IsAscii, OffsetsOf;
    var content := WriteContent(lines);
    var objects := Bodies(content);
    var buffer, offsets := WriteObjects(objects);
    var xrefOffset := |buffer|;
    var objectCount := |objects| + 1;
    var xref := XREF + Decimal.Show(objectCount) + "\n";
    buffer := buffer + xref;
    buffer := buffer + FREE_ENTRY;
    buffer := WriteEntries(buffer, offsets);
    assert buffer == UpTo(objects) + XrefTable(objects);
    var trailer := Trailer(title, objectCount) + STARTXREF + Decimal.Show(xrefOffset) + END_OF_FILE;
    if !IsAscii(title) {
      return Err(NotAscii);
    }
    hide XrefTable;
    assert buffer + trailer == FileOf(title, objects);
    return Ok(buffer + trailer);
  }

  method WriteObjects(objects: seq<string>) returns (buffer: string, offsets: seq<nat>)
    ensures buffer == UpTo(objects) && offsets == OffsetsOf(objects)
  {
    hide Decimal.Show;
    buffer, offsets := HEADER, [];
    var i := 0;
    while i < |objects|
      invariant 0 <= i <= |objects|
      invariant buffer == UpTo(objects[..i]) && offsets == OffsetsOf(objects[..i])
    {
      assert objects[..i + 1][..i] == objects[..i];
      offsets := offsets + [|buffer|];
      buffer := buffer + (Decimal.Show(i + 1) + " 0 obj\n");
      buffer := buffer + objects[i];
      buffer := buffer + "\nendobj\n";
      assert buffer == UpTo(objects[..i + 1]);
      i := i + 1;
    }
    assert objects[..i] == objects;
  }

  method WriteEntries(start: string, offsets: seq<nat>) returns (buffer: string)
    ensures buffer == start + Entries(offsets)
  {
    hide Entry;
    buffer := start;
    var i := 0;
    while i < |offsets|
      invariant 0 <= i <= |offsets|
      invariant buffer == start + Entries(offsets[..i])
    {
      assert offsets[..i + 1][..i] == offsets[..i];
      buffer := buffer + Entry(offsets[i]);
      i := i + 1;
    }
    assert offsets[..i] == offsets;
  }
}
