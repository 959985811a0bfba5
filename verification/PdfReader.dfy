/** A reader that follows the file format (ISO 32000-1, sections 7.3.4.2, 7.5.4 and 7.5.5), and the
    proof that it finds in a written file exactly what was written. */
module PdfReader {
  import opened Prelude
  import opened Pdf
  import Decimal

  // ---- Pieces of strings ------------------------------------------------------------------------

  predicate StartsWith(s: string, prefix: string)
  {
    |prefix| <= |s| && s[..|prefix|] == prefix
  }

  predicate EndsWith(s: string, suffix: string)
  {
    |suffix| <= |s| && s[|s| - |suffix|..] == suffix
  }

  /** What follows the last line feed. */
  function LastLine(s: string): (line: string)
    ensures |line| <= |s| && s[|s| - |line|..] == line
  {
    if s == "" || s[|s| - 1] == '\n' then "" else LastLine(s[..|s| - 1]) + [s[|s| - 1]]
  }

  lemma {:induction false} LastLineOf(head: string, line: string)
    requires head != "" && head[|head| - 1] == '\n' && '\n' !in line
    ensures LastLine(head + line) == line
  {
    if line == "" {
      assert head + line == head;
    } else {
      var n := |line| - 1;
      LastLineOf(head, line[..n]);
      assert (head + line)[..|head + line| - 1] == head + line[..n];
    }
  }

  /** The longest run of digits at the start. */
  function LeadingDigits(s: string): (digits: string)
    ensures Decimal.AllDigits(digits) && StartsWith(s, digits)
  {
    if s == "" || !Decimal.IsDigit(s[0]) then "" else [s[0]] + LeadingDigits(s[1..])
  }

  lemma {:induction false} LeadingDigitsOf(digits: string, rest: string)
    requires Decimal.AllDigits(digits) && (rest == "" || !Decimal.IsDigit(rest[0]))
    ensures LeadingDigits(digits + rest) == digits
  {
    if digits == "" {
      assert digits + rest == rest;
    } else {
      LeadingDigitsOf(digits[1..], rest);
      assert (digits + rest)[1..] == digits[1..] + rest;
    }
  }

  lemma ShownNumber(n: nat, rest: string)
    requires rest == "" || !Decimal.IsDigit(rest[0])
    ensures LeadingDigits(Decimal.Show(n) + rest) == Decimal.Show(n)
    ensures Decimal.Read(LeadingDigits(Decimal.Show(n) + rest)) == n
    ensures '\n' !in Decimal.Show(n)
  {
    LeadingDigitsOf(Decimal.Show(n), rest);
    Decimal.ReadShow(n);
    var s := Decimal.Show(n);
    forall i | 0 <= i < |s| ensures s[i] != '\n' {
      assert Decimal.IsDigit(s[i]);
    }
  }

  // ---- The trailer and the table ----------------------------------------------------------------

  /** The tokens of the format, in the reader's own words. */
  const END_MARKER := "\n%%EOF"
  const START_LINE := "startxref\n"
  const TABLE_LINE := "xref\n0 "
  const FIRST_ENTRY := "0000000000 65535 f \n"
  const LENGTH_ENTRY := "<< /Length "
  const DATA_START := " >>\nstream\n"
  const DATA_END := "\nendstream"

  lemma SameTokens()
    ensures END_MARKER == END_OF_FILE && START_LINE == STARTXREF && TABLE_LINE == XREF && FIRST_ENTRY == FREE_ENTRY
    ensures LENGTH_ENTRY == STREAM_HEAD && DATA_START == STREAM_OPEN && DATA_END == STREAM_CLOSE
  {
  }

  /** The offset on the line before the end-of-file marker, after the line `startxref`. */
  function StartXref(file: string): Option<nat>
  {
    if !EndsWith(file, END_MARKER) then None
    else
      var head := file[..|file| - |END_MARKER|];
      var line := LastLine(head);
      if line != "" && Decimal.AllDigits(line) && EndsWith(head[..|head| - |line|], START_LINE)
      then Some(Decimal.Read(line))
      else None
  }

  const ENTRY_LENGTH := 20

  /** The in-use entry for object `k` of the table at `at`: exactly twenty bytes per entry, the free
      entry first. */
  function EntryOffset(file: string, at: nat, k: nat): Option<nat>
  {
    if at > |file| || !StartsWith(file[at..], TABLE_LINE) then None
    else
      var counted := file[at + |TABLE_LINE|..];
      var size := LeadingDigits(counted);
      var entry := at + |TABLE_LINE| + |size| + 1 + ENTRY_LENGTH * k;
      if entry + ENTRY_LENGTH > |file| then None
      else
        var bytes := file[entry..entry + ENTRY_LENGTH];
        if bytes[10..] == " 00000 n \n" && Decimal.AllDigits(bytes[..10]) then Some(Decimal.Read(bytes[..10])) else None
  }

  /** Where the file says object `k` is. */
  function ObjectOffset(file: string, k: nat): Option<nat>
  {
    match StartXref(file)
    case None => None
    case Some(at) => EntryOffset(file, at, k)
  }

  lemma EndsConcat(a: string, b: string)
    ensures EndsWith(a + b, b)
  {
  }

  lemma StartXrefOf(head: string, at: nat)
    ensures StartXref(head + STARTXREF + Decimal.Show(at) + END_OF_FILE) == Some(at)
  {
    SameTokens();
    hide Decimal.Show, Decimal.Read, LastLine, EndsWith, END_OF_FILE, END_MARKER, START_LINE;
    assert STARTXREF != "" && STARTXREF[|STARTXREF| - 1] == '\n';
    hide STARTXREF;
    EndsConcat(head + STARTXREF + Decimal.Show(at), END_OF_FILE);
    EndsConcat(head, STARTXREF);
    var start := head + STARTXREF;
    var file := start + Decimal.Show(at) + END_OF_FILE;
    ShownNumber(at, "");
    assert Decimal.Show(at) + "" == Decimal.Show(at);
    LastLineOf(start, Decimal.Show(at));
    assert file[..|file| - |END_OF_FILE|] == start + Decimal.Show(at);
    assert (start + Decimal.Show(at))[..|start|] == start;
    assert Decimal.Read(Decimal.Show(at)) == at by { Decimal.ReadShow(at); }
  }

  // ---- Ten digits -------------------------------------------------------------------------------

  function Power10(d: nat): nat
  {
    if d == 0 then 1 else 10 * Power10(d - 1)
  }

  const TEN_DIGITS := 10_000_000_000

  lemma {:induction false} ShowLength(n: nat, d: nat)
    requires d >= 1 && n < Power10(d)
    ensures |Decimal.Show(n)| <= d
  {
    if n >= 10 {
      assert d > 1;
      ShowLength(n / 10, d - 1);
    }
  }

  lemma {:induction false} ReadZeros(z: nat, s: string)
    requires Decimal.AllDigits(s)
    ensures Decimal.AllDigits(Zeros(z) + s) && Decimal.Read(Zeros(z) + s) == Decimal.Read(s) && |Zeros(z)| == z
  {
    if z == 0 {
      assert Zeros(z) + s == s;
    } else {
      ReadZeros(z - 1, s);
      assert Zeros(z) + s == "0" + (Zeros(z - 1) + s);
      LeadingZero(Zeros(z - 1) + s);
    }
  }

  lemma {:induction false} LeadingZero(s: string)
    requires Decimal.AllDigits(s)
    ensures Decimal.AllDigits("0" + s) && Decimal.Read("0" + s) == Decimal.Read(s)
  {
    if s == "" {
      assert "0" + s == "0";
      assert Decimal.Read("0") == 10 * Decimal.Read("") + 0;
    } else {
      var n := |s| - 1;
      LeadingZero(s[..n]);
      assert ("0" + s)[..|s|] == "0" + s[..n];
    }
  }

  /** An offset below ten to the tenth prints as ten digits that read back as the offset. */
  lemma PadReads(n: nat)
    requires n < TEN_DIGITS
    ensures |Pad10(n)| == 10 && Decimal.AllDigits(Pad10(n)) && Decimal.Read(Pad10(n)) == n
  {
    assert Power10(10) == TEN_DIGITS by {
      assert Power10(5) == 100000;
      assert Power10(10) == 100000 * Power10(5) by { assert Power10(7) == 100 * Power10(5); }
    }
    ShowLength(n, 10);
    Decimal.ReadShow(n);
    var s := Decimal.Show(n);
    if |s| < 10 {
      ReadZeros(10 - |s|, s);
    }
  }

  // ---- Following the table ----------------------------------------------------------------------

  ghost predicate Small(offsets: seq<nat>)
  {
    forall i :: 0 <= i < |offsets| ==> offsets[i] < TEN_DIGITS
  }

  lemma EntryLength(offset: nat)
    requires offset < TEN_DIGITS
    ensures |Entry(offset)| == ENTRY_LENGTH && Entry(offset)[10..] == " 00000 n \n" && Entry(offset)[..10] == Pad10(offset)
  {
    PadReads(offset);
  }

  lemma {:induction false} EntriesAt(offsets: seq<nat>, k: nat)
    requires Small(offsets)
    ensures |Entries(offsets)| == ENTRY_LENGTH * |offsets|
    ensures k < |offsets| ==> Entries(offsets)[ENTRY_LENGTH * k..ENTRY_LENGTH * k + ENTRY_LENGTH] == Entry(offsets[k])
  {
    hide Entry;
    if offsets != [] {
      var n := |offsets| - 1;
      EntriesAt(offsets[..n], k);
      EntryLength(offsets[n]);
    }
  }

  lemma {:induction false} OffsetAt(bodies: seq<string>, i: nat)
    requires i < |bodies|
    ensures OffsetsOf(bodies)[i] == |UpTo(bodies[..i])|
  {
    hide UpTo;
    var n := |bodies| - 1;
    if i < n {
      OffsetAt(bodies[..n], i);
      assert bodies[..n][..i] == bodies[..i];
    }
  }

  lemma {:induction false} UpToGrows(bodies: seq<string>, i: nat)
    requires i <= |bodies|
    ensures UpTo(bodies[..i]) <= UpTo(bodies)
  {
    hide IndirectObject;
    if i == |bodies| {
      assert bodies[..i] == bodies;
    } else {
      var n := |bodies| - 1;
      UpToGrows(bodies[..n], i);
      assert bodies[..n][..i] == bodies[..i];
    }
  }

  /** At its offset, the file holds the whole object. */
  lemma ObjectIsAtOffset(bodies: seq<string>, i: nat, rest: string)
    requires i < |bodies|
    ensures OffsetsOf(bodies)[i] <= |UpTo(bodies) + rest|
    ensures StartsWith((UpTo(bodies) + rest)[OffsetsOf(bodies)[i]..], IndirectObject(i + 1, bodies[i]))
  {
    hide IndirectObject;
    OffsetAt(bodies, i);
    UpToGrows(bodies, i + 1);
    assert bodies[..i + 1][..i] == bodies[..i];
    var before, written := UpTo(bodies[..i]), IndirectObject(i + 1, bodies[i]);
    assert UpTo(bodies[..i + 1]) == before + written;
    assert (UpTo(bodies) + rest)[..|before + written|] == before + written;
  }

  lemma SliceInside(base: string, middle: string, rest: string, i: nat, n: nat)
    requires i + n <= |middle|
    ensures (base + middle + rest)[|base| + i..|base| + i + n] == middle[i..i + n]
  {
  }

  /** Where the table's entries begin, whatever follows. */
  lemma TableStart(start: string, count: nat, table: string)
    requires table != "" && !Decimal.IsDigit(table[0])
    ensures var file := start + XREF + Decimal.Show(count) + table;
            && StartsWith(file[|start|..], XREF)
            && LeadingDigits(file[|start| + |XREF|..]) == Decimal.Show(count)
  {
    hide Decimal.Show;
    var size := Decimal.Show(count);
    var file := start + XREF + size + table;
    assert file[|start| + |XREF|..] == size + table;
    ShownNumber(count, table);
  }

  lemma Regroup(start: string, xref: string, size: string, feed: string, free: string, entries: string, rest: string)
    ensures var file := start + (xref + size + feed + free + entries) + rest;
            && file == start + xref + size + (feed + free + entries + rest)
            && file == (start + xref + size + feed + free) + entries + rest
  {
    var tail := feed + free + entries + rest;
    assert xref + size + feed + free + entries == xref + size + (feed + free + entries);
    assert start + (xref + size + (feed + free + entries)) == start + xref + size + (feed + free + entries);
    assert (start + xref + size) + (feed + free + entries) + rest == (start + xref + size) + tail;
  }

  lemma EntryBytes(start: string, xref: string, size: string, feed: string, free: string, entries: string, rest: string,
                   k: nat, entry: string)
    requires |feed| == 1 && |free| == ENTRY_LENGTH && k >= 1
    requires ENTRY_LENGTH * k <= |entries| && entries[ENTRY_LENGTH * (k - 1)..ENTRY_LENGTH * k] == entry
    ensures var file := start + (xref + size + feed + free + entries) + rest;
            var at := |start| + |xref| + |size| + 1 + ENTRY_LENGTH * k;
            at + ENTRY_LENGTH <= |file| && file[at..at + ENTRY_LENGTH] == entry
  {
    Regroup(start, xref, size, feed, free, entries, rest);
    var base := start + xref + size + feed + free;
    SliceInside(base, entries, rest, ENTRY_LENGTH * (k - 1), ENTRY_LENGTH);
    assert |base| + ENTRY_LENGTH * (k - 1) == |start| + |xref| + |size| + 1 + ENTRY_LENGTH * k;
  }

  /** The `k`-th entry of the written table, read at its twenty-byte position. */
  lemma EntryFound(start: string, bodies: seq<string>, rest: string, k: nat)
    requires 1 <= k <= |bodies| && Small(OffsetsOf(bodies))
    ensures EntryOffset(start + XrefTable(bodies) + rest, |start|, k) == Some(OffsetsOf(bodies)[k - 1])
  {
    hide XREF, FREE_ENTRY, Entries, Decimal.Show, Decimal.Read, Entry, OffsetsOf, Pad10, LeadingDigits, Small, StartsWith, EntryOffset, XrefTable;
    var offset := TableFound(start, bodies, rest, k);
    EntryRead(start + XrefTable(bodies) + rest, |start|, k, Decimal.Show(|bodies| + 1), offset,
              |start| + |XREF| + |Decimal.Show(|bodies| + 1)| + 1 + ENTRY_LENGTH * k);
  }

  lemma TableFound(start: string, bodies: seq<string>, rest: string, k: nat) returns (offset: nat)
    requires 1 <= k <= |bodies| && Small(OffsetsOf(bodies))
    ensures offset == OffsetsOf(bodies)[k - 1] && offset < TEN_DIGITS
    ensures var file, size := start + XrefTable(bodies) + rest, Decimal.Show(|bodies| + 1);
            var at := |start| + |XREF| + |size| + 1 + ENTRY_LENGTH * k;
            && |start| + |XREF| <= |file| && StartsWith(file[|start|..], XREF)
            && LeadingDigits(file[|start| + |XREF|..]) == size
            && at + ENTRY_LENGTH <= |file| && file[at..at + ENTRY_LENGTH] == Entry(offset)
  {
    hide XREF, FREE_ENTRY, Entries, Decimal.Show, Entry, OffsetsOf, LeadingDigits, StartsWith, Small;
    var size, offsets := Decimal.Show(|bodies| + 1), OffsetsOf(bodies);
    var entries := Entries(offsets);
    offset := offsets[k - 1];
    EntriesAt(offsets, k - 1);
    EntryIsSmall(offsets, k - 1);
    TokenLengths();
    Regroup(start, XREF, size, "\n", FREE_ENTRY, entries, rest);
    TableStart(start, |bodies| + 1, "\n" + FREE_ENTRY + entries + rest);
    EntryBytes(start, XREF, size, "\n", FREE_ENTRY, entries, rest, k, Entry(offset));
  }

  lemma TokenLengths()
    ensures |XREF| == 7 && |FREE_ENTRY| == ENTRY_LENGTH
  {
  }

  lemma EntryRead(file: string, at: nat, k: nat, size: string, offset: nat, entry: nat)
    requires at + |XREF| <= |file| && StartsWith(file[at..], XREF) && LeadingDigits(file[at + |XREF|..]) == size
    requires entry == at + |XREF| + |size| + 1 + ENTRY_LENGTH * k && entry + ENTRY_LENGTH <= |file|
    requires file[entry..entry + ENTRY_LENGTH] == Entry(offset)
    requires offset < TEN_DIGITS
    ensures EntryOffset(file, at, k) == Some(offset)
  {
    SameTokens();
    hide LeadingDigits, StartsWith, Entry, Pad10, Decimal.Read, XREF, TABLE_LINE;
    EntryLength(offset);
    PadReads(offset);
  }

  lemma EntryIsSmall(offsets: seq<nat>, k: nat)
    requires Small(offsets) && k < |offsets|
    ensures offsets[k] < TEN_DIGITS
  {
  }

  /** Following the trailer and the table of any written file leads to each of its objects. */
  lemma ObjectFound(title: string, bodies: seq<string>, k: nat)
    requires 1 <= k <= |bodies| && Small(OffsetsOf(bodies))
    ensures ObjectOffset(FileOf(title, bodies), k) == Some(OffsetsOf(bodies)[k - 1])
    ensures OffsetsOf(bodies)[k - 1] <= |FileOf(title, bodies)|
    ensures StartsWith(FileOf(title, bodies)[OffsetsOf(bodies)[k - 1]..], IndirectObject(k, bodies[k - 1]))
  {
    hide UpTo, XrefTable, Trailer, OffsetsOf, IndirectObject, EntryOffset, StartXref, Decimal.Show;
    var file, at := FileOf(title, bodies), |UpTo(bodies)|;
    var head := UpTo(bodies) + XrefTable(bodies) + Trailer(title, |bodies| + 1);
    StartXrefOf(head, at);
    var rest := Trailer(title, |bodies| + 1) + STARTXREF + Decimal.Show(at) + END_OF_FILE;
    assert file == UpTo(bodies) + XrefTable(bodies) + rest;
    EntryFound(UpTo(bodies), bodies, rest, k);
    assert file == UpTo(bodies) + (XrefTable(bodies) + rest);
    ObjectIsAtOffset(bodies, k - 1, XrefTable(bodies) + rest);
  }

  // ---- This writer's five objects ---------------------------------------------------------------

  lemma ObjectLength(number: nat, body: string)
    requires 1 <= number <= 9
    ensures |IndirectObject(number, body)| == |body| + 16
  {
  }

  /** The first four objects never change, so every offset is a constant, whatever the content. */
  lemma OffsetsAreSmall(content: string)
    ensures Small(OffsetsOf(Bodies(content)))
    ensures |Bodies(content)| == 5
  {
    hide IndirectObject, StreamBody, Decimal.Show, OffsetsOf;
    var bodies := Bodies(content);
    assert bodies[..0] == [] && bodies[..1][..0] == [] && bodies[..2][..1] == bodies[..1]
        && bodies[..3][..2] == bodies[..2] && bodies[..4][..3] == bodies[..3];
    ObjectLength(1, CATALOG);
    ObjectLength(2, PAGES);
    ObjectLength(3, PAGE);
    ObjectLength(4, FONT);
    assert |UpTo(bodies[..1])| == |UpTo(bodies[..0])| + |CATALOG| + 16;
    assert |UpTo(bodies[..2])| == |UpTo(bodies[..1])| + |PAGES| + 16;
    assert |UpTo(bodies[..3])| == |UpTo(bodies[..2])| + |PAGE| + 16;
    assert |UpTo(bodies[..4])| == |UpTo(bodies[..3])| + |FONT| + 16;
    forall i | 0 <= i < |OffsetsOf(bodies)| ensures OffsetsOf(bodies)[i] < TEN_DIGITS {
      OffsetAt(bodies, i);
    }
  }

  /** For every title and every list of lines, of any length: the offset after `startxref` is the
      table's, its `k`-th twenty-byte entry is object `k`'s, and there the file says "k 0 obj". */
  lemma TableLeadsToEveryObject(title: string, lines: seq<string>, k: nat)
    requires 1 <= k <= 5
    ensures var file := FileOf(title, Bodies(ContentStream(lines)));
            && ObjectOffset(file, k).Some? && ObjectOffset(file, k).value <= |file|
            && StartsWith(file[ObjectOffset(file, k).value..], Decimal.Show(k) + " 0 obj\n")
  {
    hide ContentStream, Bodies, FileOf, ObjectOffset, Decimal.Show;
    var bodies := Bodies(ContentStream(lines));
    OffsetsAreSmall(ContentStream(lines));
    ObjectFound(title, bodies, k);
    StartsWithPart(FileOf(title, bodies)[OffsetsOf(bodies)[k - 1]..], k, bodies[k - 1]);
  }

  lemma StartsWithPart(s: string, k: nat, body: string)
    requires StartsWith(s, IndirectObject(k, body))
    ensures StartsWith(s, Decimal.Show(k) + " 0 obj\n")
  {
    hide Decimal.Show;
    var first := Decimal.Show(k) + " 0 obj\n";
    assert IndirectObject(k, body) == first + (body + "\nendobj\n");
    assert s[..|first|] == IndirectObject(k, body)[..|first|];
  }

  // ---- The stream -------------------------------------------------------------------------------

  /** The bytes of the stream object `number` at the start of `s`: as many as its `/Length` says, and
      `endstream` must follow. */
  function ReadStream(s: string, number: nat): Option<string>
  {
    var head := Decimal.Show(number) + " 0 obj\n" + LENGTH_ENTRY;
    if !StartsWith(s, head) then None
    else
      var length := LeadingDigits(s[|head|..]);
      var after := s[|head| + |length|..];
      if !StartsWith(after, DATA_START) then None
      else
        var data, n := after[|DATA_START|..], Decimal.Read(length);
        if n <= |data| && StartsWith(data[n..], DATA_END) then Some(data[..n]) else None
  }

  lemma StreamPieces(head: string, length: string, open: string, content: string, close: string, rest: string)
    ensures var s := head + length + open + content + close + rest;
            && StartsWith(s, head)
            && s[|head|..] == length + (open + content + close + rest)
            && s[|head| + |length|..] == open + (content + close + rest)
            && s[|head| + |length|..][|open|..] == content + (close + rest)
            && s[|head| + |length|..][|open|..][|content|..] == close + rest
  {
    var s := head + length + open + content + close + rest;
    assert s == head + (length + (open + content + close + rest));
    assert s == (head + length) + (open + (content + close + rest));
  }

  lemma WholeStream(number: nat, content: string, rest: string)
    ensures var head := Decimal.Show(number) + " 0 obj\n" + STREAM_HEAD;
            IndirectObject(number, StreamBody(content)) + rest
            == head + Decimal.Show(|content|) + STREAM_OPEN + content + STREAM_CLOSE + ("\nendobj\n" + rest)
  {
    hide Decimal.Show, STREAM_HEAD, STREAM_OPEN, STREAM_CLOSE;
    ObjectPieces(Decimal.Show(number), " 0 obj\n", STREAM_HEAD, Decimal.Show(|content|), STREAM_OPEN, content, STREAM_CLOSE,
                 "\nendobj\n", rest);
  }

  lemma ObjectPieces(number: string, obj: string, head: string, length: string, open: string, content: string,
                     close: string, end: string, rest: string)
    ensures number + obj + (head + length + open + content + close) + end + rest
            == (number + obj + head) + length + open + content + close + (end + rest)
  {
    var a := number + obj;
    assert a + (head + length + open + content + close) == a + head + length + open + content + close;
  }

  /** `/Length` is exactly the number of bytes between `stream` and `endstream`. */
  lemma StreamIsRead(number: nat, content: string, rest: string)
    ensures ReadStream(IndirectObject(number, StreamBody(content)) + rest, number) == Some(content)
  {
    hide Decimal.Show, Decimal.Read, LeadingDigits, StreamBody, IndirectObject;
    OpenIsNoDigit();
    SameTokens();
    hide STREAM_HEAD, STREAM_OPEN, STREAM_CLOSE, LENGTH_ENTRY, DATA_START, DATA_END;
    var head, length := Decimal.Show(number) + " 0 obj\n" + STREAM_HEAD, Decimal.Show(|content|);
    var end := "\nendobj\n" + rest;
    WholeStream(number, content, rest);
    StreamPieces(head, length, STREAM_OPEN, content, STREAM_CLOSE, end);
    ShownNumber(|content|, STREAM_OPEN + content + STREAM_CLOSE + end);
    StartsWithConcat(STREAM_OPEN, content + STREAM_CLOSE + end);
    StartsWithConcat(STREAM_CLOSE, end);
  }

  lemma OpenIsNoDigit()
    ensures STREAM_OPEN != "" && !Decimal.IsDigit(STREAM_OPEN[0])
  {
  }

  lemma StartsWithConcat(prefix: string, rest: string)
    ensures StartsWith(prefix + rest, prefix)
  {
  }

  // ---- Literal strings --------------------------------------------------------------------------

  function Prepend(text: string, scanned: Option<(string, string)>): Option<(string, string)>
  {
    match scanned
    case None => None
    case Some((decoded, rest)) => Some((text + decoded, rest))
  }

  predicate IsOctal(c: char)
  {
    '0' <= c <= '7'
  }

  /** How many octal digits, three at most, start `s`. */
  function OctalLength(s: string): (n: nat)
    ensures n <= 3 && n <= |s|
  {
    if |s| >= 1 && IsOctal(s[0]) then
      if |s| >= 2 && IsOctal(s[1]) then if |s| >= 3 && IsOctal(s[2]) then 3 else 2 else 1
    else 0
  }

  function OctalValue(s: string): (n: nat)
    requires forall i :: 0 <= i < |s| ==> IsOctal(s[i])
  {
    if s == "" then 0
    else
      assert IsOctal(s[|s| - 1]);
      8 * OctalValue(s[..|s| - 1]) + (s[|s| - 1] - '0') as nat
  }

  /** The character an escape sequence stands for, and how long the sequence is after the backslash.
      An end-of-line is nothing at all; an unknown escape is the character itself. */
  function Escape(s: string): (r: (string, nat))
    requires s != ""
    ensures 1 <= r.1 <= |s|
  {
    if s[0] == 'n' then ("\n", 1)
    else if s[0] == 'r' then ("\r", 1)
    else if s[0] == 't' then ("\t", 1)
    else if s[0] == 'b' then ([8 as char], 1)
    else if s[0] == 'f' then ([12 as char], 1)
    else if s[0] == '\n' then ("", 1)
    else if s[0] == '\r' then ("", if |s| >= 2 && s[1] == '\n' then 2 else 1)
    else if IsOctal(s[0]) then
      var n := OctalLength(s);
      ([(OctalValue(s[..n]) % 256) as char], n)
    else ([s[0]], 1)
  }

  /** A literal string from just after its opening parenthesis: its value and what follows the closing
      one. Balanced parentheses belong to it; every end-of-line reads as a line feed. */
  function Scan(s: string, depth: nat): Option<(string, string)>
    decreases |s|
  {
    if s == "" then None
    else if s[0] == ')' then
      if depth == 0 then Some(("", s[1..])) else Prepend(")", Scan(s[1..], depth - 1))
    else if s[0] == '(' then Prepend("(", Scan(s[1..], depth + 1))
    else if s[0] == '\\' then
      if |s| == 1 then None
      else
        var escape := Escape(s[1..]);
        Prepend(escape.0, Scan(s[1 + escape.1..], depth))
    else if s[0] == '\r' then Prepend("\n", Scan(if |s| >= 2 && s[1] == '\n' then s[2..] else s[1..], depth))
    else Prepend([s[0]], Scan(s[1..], depth))
  }

  /** Every end-of-line as a line feed. */
  function NormalEol(s: string): string
  {
    if s == "" then ""
    else if s[0] == '\r' then "\n" + NormalEol(if |s| >= 2 && s[1] == '\n' then s[2..] else s[1..])
    else [s[0]] + NormalEol(s[1..])
  }

  lemma ScanEscapePair(c: char, rest: string)
    requires c == '\\' || c == '(' || c == ')'
    ensures Scan(['\\', c] + rest, 0) == Prepend([c], Scan(rest, 0))
  {
    var s := ['\\', c] + rest;
    assert s[1..][0] == c && s[2..] == rest;
    assert Escape(s[1..]) == ([c], 1);
  }

  lemma ScanPlain(c: char, rest: string)
    requires c != '\\' && c != '(' && c != ')' && c != '\r'
    ensures Scan([c] + rest, 0) == Prepend([c], Scan(rest, 0))
  {
    assert ([c] + rest)[1..] == rest;
  }

  lemma ScanReturn(rest: string)
    requires rest != "" && rest[0] != '\n'
    ensures Scan(['\r'] + rest, 0) == Prepend("\n", Scan(rest, 0))
  {
    assert (['\r'] + rest)[1..] == rest;
  }

  lemma ScanReturnFeed(rest: string)
    ensures Scan(['\r'] + (['\n'] + rest), 0) == Prepend("\n", Scan(rest, 0))
  {
    var s := ['\r'] + (['\n'] + rest);
    assert s[1] == '\n' && s[2..] == rest;
  }

  /** An escaped line and its closing parenthesis, seen from its first character. */
  lemma EscapedHead(b: string, rest: string)
    requires b != ""
    ensures Escaped(b) + ")" + rest == EscapeChar(b[0]) + (Escaped(b[1..]) + ")" + rest)
  {
    hide EscapeChar;
  }

  lemma ScanClosing(rest: string)
    ensures Scan(Escaped("") + ")" + rest, 0) == Some(("", rest))
  {
    assert Escaped("") + ")" + rest == ")" + rest;
    assert (")" + rest)[1..] == rest;
  }

  /** Scanning an escaped line stops at the writer's own closing parenthesis and gives the line back,
      its ends-of-line read as line feeds. */
  lemma {:induction false} ScanUndoesEscape(b: string, rest: string)
    ensures Scan(Escaped(b) + ")" + rest, 0) == Some((NormalEol(b), rest))
    decreases |b|
  {
    hide Scan, Escaped;
    if b == "" {
      ScanClosing(rest);
    } else {
      var c, tail := b[0], b[1..];
      EscapedHead(b, rest);
      if c == '\\' || c == '(' || c == ')' {
        ScanUndoesEscape(tail, rest);
        assert EscapeChar(c) == ['\\', c];
        ScanEscapePair(c, Escaped(tail) + ")" + rest);
      } else if c == '\r' && tail != "" && tail[0] == '\n' {
        ScanUndoesEscape(b[2..], rest);
        assert tail[1..] == b[2..];
        EscapedHead(tail, rest);
        ScanReturnFeed(Escaped(b[2..]) + ")" + rest);
      } else if c == '\r' {
        ScanUndoesEscape(tail, rest);
        NoFeedFollows(tail, rest);
        ScanReturn(Escaped(tail) + ")" + rest);
      } else {
        ScanUndoesEscape(tail, rest);
        ScanPlain(c, Escaped(tail) + ")" + rest);
      }
    }
  }

  lemma NoFeedFollows(tail: string, rest: string)
    requires tail == "" || tail[0] != '\n'
    ensures var s := Escaped(tail) + ")" + rest; s != "" && s[0] != '\n'
  {
  }

  /** The line comes back unchanged exactly when it has no carriage return. */
  lemma {:induction false} NormalEolKeeps(s: string)
    ensures |NormalEol(s)| <= |s| && '\r' !in NormalEol(s)
    ensures NormalEol(s) == s <==> '\r' !in s
    decreases |s|
  {
    if s != "" {
      if s[0] == '\r' {
        var next := if |s| >= 2 && s[1] == '\n' then s[2..] else s[1..];
        NormalEolKeeps(next);
        assert NormalEol(s)[0] == '\n';
      } else {
        NormalEolKeeps(s[1..]);
        assert s == [s[0]] + s[1..];
        assert NormalEol(s)[1..] == NormalEol(s[1..]);
      }
    }
  }

  // ---- The content ------------------------------------------------------------------------------

  const NEXT_LINE := "T*\n"
  const SHOW := " Tj\n"

  /** The strings a content stream shows, from its first text operator on. */
  function ReadShown(s: string, first: bool): Option<seq<string>>
    decreases |s|
  {
    if s == "ET" then Some([])
    else if !first && !StartsWith(s, NEXT_LINE) then None
    else
      var operand := if first then s else s[|NEXT_LINE|..];
      if !StartsWith(operand, "(") then None
      else
        match Scan(operand[1..], 0)
        case None => None
        case Some((text, rest)) =>
          if !StartsWith(rest, SHOW) || |rest| >= |s| then None
          else
            match ReadShown(rest[|SHOW|..], false)
            case None => None
            case Some(more) => Some([text] + more)
  }

  /** Each of these followed by a line feed. */
  function Terminated(lines: seq<string>): string
  {
    if lines == [] then "" else lines[0] + "\n" + Terminated(lines[1..])
  }

  lemma {:induction false} JoinTerminates(lines: seq<string>, last: string)
    ensures Join(lines + [last]) == Terminated(lines) + last
  {
    if lines == [] {
      assert lines + [last] == [last];
    } else {
      JoinTerminates(lines[1..], last);
      assert (lines + [last])[1..] == lines[1..] + [last];
      assert lines[0] + "\n" + (Terminated(lines[1..]) + last) == lines[0] + "\n" + Terminated(lines[1..]) + last;
    }
  }

  lemma {:induction false} TerminatedConcat(a: seq<string>, b: seq<string>)
    ensures Terminated(a + b) == Terminated(a) + Terminated(b)
  {
    if a == [] {
      assert a + b == b;
    } else {
      TerminatedConcat(a[1..], b);
      assert (a + b)[0] == a[0] && (a + b)[1..] == a[1..] + b;
      var head := a[0] + "\n";
      assert head + (Terminated(a[1..]) + Terminated(b)) == head + Terminated(a[1..]) + Terminated(b);
    }
  }

  /** The line operators from the first line on. */
  function Operators(lines: seq<string>, first: bool): seq<string>
  {
    if lines == [] then []
    else (if first then [] else ["T*"]) + [ShowOperator(lines[0])] + Operators(lines[1..], false)
  }

  lemma {:induction false} OperatorsSnoc(lines: seq<string>, line: string, first: bool)
    ensures Operators(lines + [line], first)
            == Operators(lines, first) + (if lines == [] && first then [] else ["T*"]) + [ShowOperator(line)]
  {
    hide ShowOperator;
    if lines == [] {
      assert (lines + [line])[1..] == [];
    } else {
      OperatorsSnoc(lines[1..], line, false);
      assert (lines + [line])[1..] == lines[1..] + [line];
    }
  }

  lemma {:induction false} OperatorsInOrder(lines: seq<string>)
    ensures LineOperators(lines) == Operators(lines, true)
  {
    hide ShowOperator;
    if lines != [] {
      var n := |lines| - 1;
      OperatorsInOrder(lines[..n]);
      OperatorsSnoc(lines[..n], lines[n], true);
      assert lines[..n] + [lines[n]] == lines;
    }
  }

  /** What a reader sees of each line: its Latin-1 form, ends-of-line as line feeds. */
  function Decoded(lines: seq<string>): (d: seq<string>)
    ensures |d| == |lines| && forall i :: 0 <= i < |d| ==> d[i] == NormalEol(Encoded(lines[i]))
  {
    seq(|lines|, i requires 0 <= i < |lines| => NormalEol(Encoded(lines[i])))
  }

  /** The bytes the writer puts down for some lines. */
  function ShownBytes(lines: seq<string>, first: bool): string
  {
    Encoded(Terminated(Operators(lines, first)) + "ET")
  }

  lemma EncodedAscii(s: string)
    requires IsBytes(s)
    ensures Encoded(s) == s
  {
  }

  /** The bytes of the first of some lines, and those of the rest. */
  lemma ShownHead(lines: seq<string>, first: bool)
    requires lines != []
    ensures ShownBytes(lines, first)
            == (if first then "" else NEXT_LINE)
               + ("(" + (Escaped(Encoded(lines[0])) + ")" + (SHOW + ShownBytes(lines[1..], false))))
  {
    hide Encoded, Terminated, EscapePdfText, Escaped, Operators;
    var line, more := lines[0], Operators(lines[1..], false);
    var start: seq<string> := if first then [] else ["T*"];
    assert Operators(lines, first) == start + [ShowOperator(line)] + more by { OperatorsHead(lines, first); }
    TerminatedConcat(start + [ShowOperator(line)], more);
    TerminatedConcat(start, [ShowOperator(line)]);
    assert Terminated([ShowOperator(line)]) == ShowOperator(line) + "\n" by { TerminatedOne(ShowOperator(line)); }
    assert Terminated(start) == if first then "" else NEXT_LINE by { TerminatedStart(first); }
    ThreeReplacesAreOnePass(line);
    EscapeEncodeCommute(line);
    var escaped, tail := Escaped(line), Terminated(more) + "ET";
    var intro := if first then "" else NEXT_LINE;
    assert Terminated(Operators(lines, first)) + "ET" == intro + ("(" + (escaped + ")" + (SHOW + tail))) by {
      Assemble(intro, escaped, Terminated(more));
    }
    EncodePieces(intro, escaped, tail);
  }

  lemma OperatorsHead(lines: seq<string>, first: bool)
    requires lines != []
    ensures var start: seq<string> := if first then [] else ["T*"];
            Operators(lines, first) == start + [ShowOperator(lines[0])] + Operators(lines[1..], false)
  {
    hide ShowOperator;
  }

  lemma TerminatedOne(s: string)
    ensures Terminated([s]) == s + "\n"
  {
    assert [s][1..] == [];
  }

  lemma TerminatedStart(first: bool)
    ensures var start: seq<string> := if first then [] else ["T*"];
            Terminated(start) == if first then "" else NEXT_LINE
  {
    TerminatedOne("T*");
  }

  lemma Assemble(intro: string, escaped: string, more: string)
    ensures intro + ("(" + escaped + ") Tj" + "\n") + more + "ET"
            == intro + ("(" + (escaped + ")" + (SHOW + (more + "ET"))))
  {
    assert ") Tj" + "\n" == ")" + SHOW;
    assert "(" + escaped + ") Tj" + "\n" == "(" + (escaped + ")" + SHOW);
    assert intro + ("(" + (escaped + ")" + SHOW)) + more + "ET" == intro + ("(" + (escaped + ")" + SHOW) + more + "ET");
    assert "(" + (escaped + ")" + SHOW) + more + "ET" == "(" + (escaped + ")" + (SHOW + (more + "ET")));
  }

  lemma EncodePieces(intro: string, escaped: string, tail: string)
    requires IsBytes(intro)
    ensures Encoded(intro + ("(" + (escaped + ")" + (SHOW + tail))))
            == intro + ("(" + (Encoded(escaped) + ")" + (SHOW + Encoded(tail))))
  {
    EncodedConcat(intro, "(" + (escaped + ")" + (SHOW + tail)));
    EncodedConcat("(", escaped + ")" + (SHOW + tail));
    EncodedConcat(escaped + ")", SHOW + tail);
    EncodedConcat(escaped, ")");
    EncodedConcat(SHOW, tail);
    EncodedAscii(intro);
    EncodedAscii("(");
    EncodedAscii(")");
    EncodedAscii(SHOW);
  }

  lemma {:induction false} ShownIsRead(lines: seq<string>, first: bool)
    ensures ReadShown(ShownBytes(lines, first), first) == Some(Decoded(lines))
  {
    hide Scan, Escaped, Encoded, NormalEol, ShownBytes;
    if lines == [] {
      assert ShownBytes(lines, first) == "ET" by { NothingShown(first); }
    } else {
      ShownHead(lines, first);
      ShownIsRead(lines[1..], false);
      var rest := SHOW + ShownBytes(lines[1..], false);
      ScanUndoesEscape(Encoded(lines[0]), rest);
      OneShown(if first then "" else NEXT_LINE, Escaped(Encoded(lines[0])) + ")" + rest, NormalEol(Encoded(lines[0])),
               ShownBytes(lines[1..], false), Decoded(lines[1..]), first);
      assert Decoded(lines) == [NormalEol(Encoded(lines[0]))] + Decoded(lines[1..]);
    }
  }

  lemma NothingShown(first: bool)
    ensures ShownBytes([], first) == "ET"
  {
    assert "" + "ET" == "ET";
    EncodedAscii("ET");
  }

  /** Reading one shown string, then the rest. */
  lemma OneShown(intro: string, body: string, text: string, more: string, texts: seq<string>, first: bool)
    requires intro == if first then "" else NEXT_LINE
    requires Scan(body, 0) == Some((text, SHOW + more)) && |SHOW + more| < |body|
    requires ReadShown(more, false) == Some(texts)
    ensures ReadShown(intro + ("(" + body), first) == Some([text] + texts)
  {
    hide Scan;
    var s := intro + ("(" + body);
    assert s[|intro|..] == "(" + body;
    assert ("(" + body)[1..] == body;
    assert (SHOW + more)[|SHOW|..] == more;
    assert s != "ET";
  }

  const TEXT_START := "BT\n" + "/F1 12 Tf\n" + "72 720 Td\n" + "14 TL\n"

  lemma StartTerminated()
    ensures Terminated(CONTENT_START) == TEXT_START
  {
    var a, b, c, d := "BT", "/F1 12 Tf", "72 720 Td", "14 TL";
    assert CONTENT_START == [a] + [b] + [c] + [d];
    assert TEXT_START == (a + "\n") + (b + "\n") + (c + "\n") + (d + "\n");
    hide TEXT_START, CONTENT_START;
    FourTerminated(a, b, c, d);
  }

  lemma FourTerminated(a: string, b: string, c: string, d: string)
    ensures Terminated([a] + [b] + [c] + [d]) == (a + "\n") + (b + "\n") + (c + "\n") + (d + "\n")
  {
    hide Terminated;
    TerminatedConcat([a] + [b] + [c], [d]);
    TerminatedConcat([a] + [b], [c]);
    TerminatedConcat([a], [b]);
    TerminatedOne(a);
    TerminatedOne(b);
    TerminatedOne(c);
    TerminatedOne(d);
  }

  lemma ContentSplits(lines: seq<string>)
    ensures ContentStream(lines) == TEXT_START + ShownBytes(lines, true)
  {
    hide Join, Terminated, Operators, LineOperators, Encoded;
    OperatorsInOrder(lines);
    JoinTerminates(CONTENT_START + LineOperators(lines), "ET");
    TerminatedConcat(CONTENT_START, LineOperators(lines));
    StartTerminated();
    StartIsAscii();
    hide TEXT_START;
    EncodedConcat(TEXT_START, Terminated(Operators(lines, true)) + "ET");
    assert TEXT_START + Terminated(Operators(lines, true)) + "ET" == TEXT_START + (Terminated(Operators(lines, true)) + "ET");
    EncodedAscii(TEXT_START);
  }

  lemma StartIsAscii()
    ensures IsBytes(TEXT_START)
  {
  }

  predicate IsLatin1(lines: seq<string>)
  {
    forall i :: 0 <= i < |lines| ==> IsBytes(lines[i])
  }

  lemma DecodedKeeps(line: string)
    ensures NormalEol(Encoded(line)) == line <==> IsBytes(line) && '\r' !in line
  {
    NormalEolKeeps(Encoded(line));
    if IsBytes(line) {
      EncodedAscii(line);
    } else if NormalEol(Encoded(line)) == line {
      NormalEolIsBytes(Encoded(line));
    }
  }

  lemma {:induction false} NormalEolIsBytes(s: string)
    requires IsBytes(s)
    ensures IsBytes(NormalEol(s))
    decreases |s|
  {
    if s != "" {
      NormalEolIsBytes(if s[0] == '\r' && |s| >= 2 && s[1] == '\n' then s[2..] else s[1..]);
    }
  }
}
