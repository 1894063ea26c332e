/** The PDF writer: pages, object slots, cross-reference table and trailer. Texts are byte strings. */
module PdfDocument {
  import opened Numerals
  import opened PdfText

  const LINES_PER_PAGE: nat := 48
  const MAX_LINE: nat := 116

  function Min(a: int, b: int): int { if a < b then a else b }

  // ----- pages -----

  function PageCount(lines: nat): (n: nat)
    ensures n >= 1 && LINES_PER_PAGE * (n - 1) <= lines <= LINES_PER_PAGE * n
    ensures lines > 0 ==> LINES_PER_PAGE * (n - 1) < lines
  {
    var n := (lines + LINES_PER_PAGE - 1) / LINES_PER_PAGE;
    if n == 0 then 1 else n
  }

  function PageLines(lines: seq<string>, page: nat): (slice: seq<string>)
    requires page < PageCount(|lines|)
    ensures |slice| <= LINES_PER_PAGE
  {
    lines[page * LINES_PER_PAGE..Min(page * LINES_PER_PAGE + LINES_PER_PAGE, |lines|)]
  }

  function Together(lines: seq<string>, pages: nat): seq<string>
    requires pages <= PageCount(|lines|)
  {
    if pages == 0 then [] else Together(lines, pages - 1) + PageLines(lines, pages - 1)
  }

  lemma {:induction false} PagesTake(lines: seq<string>, pages: nat)
    requires pages <= PageCount(|lines|)
    ensures Together(lines, pages) == lines[..Min(pages * LINES_PER_PAGE, |lines|)]
  {
    if pages > 0 { PagesTake(lines, pages - 1); }
  }

  /** The page slices concatenate to the lines; only a document without lines has an empty page. */
  lemma PagesHoldLines(lines: seq<string>, page: nat)
    requires page < PageCount(|lines|)
    ensures Together(lines, PageCount(|lines|)) == lines
    ensures PageLines(lines, page) == [] <==> lines == []
    ensures |PageLines(lines, page)| <= 48 && (page + 1 < PageCount(|lines|) ==> |PageLines(lines, page)| == 48)
  {
    PagesTake(lines, PageCount(|lines|));
  }

  // ----- content streams -----

  const STREAM_BEGIN := "BT /F1 9 Tf 36 806 Td 12 TL "
  const STREAM_END := "ET"
  const SHOW := " Tj T* "

  function Cut(line: string): string { if |line| > MAX_LINE then line[..MAX_LINE] else line }

  function ShowLine(line: string): string {
    "(" + PdfEscape(Cut(line)) + ")" + SHOW
  }

  function ShowLines(lines: seq<string>): string {
    if lines == [] then "" else ShowLine(lines[0]) + ShowLines(lines[1..])
  }

  function Stream(lines: seq<string>): string { STREAM_BEGIN + ShowLines(lines) + STREAM_END }

  datatype Shown = Shown(lines: seq<string>) | Unreadable

  /** The lines a viewer shows: string operands of the show operators up to the end of the text. */
  function ReadShown(s: string): Shown
    decreases |s|
  {
    if s == STREAM_END then Shown([])
    else if s == "" || s[0] != '(' then Unreadable
    else
      var literal := ReadLiteral(s[1..], 0);
      if literal.Unclosed? || !(SHOW <= literal.rest) then Unreadable
      else
        var more := ReadShown(literal.rest[|SHOW|..]);
        if more.Unreadable? then Unreadable else Shown([literal.text] + more.lines)
  }

  function AsShown(lines: seq<string>): (shown: seq<string>)
    ensures |shown| == |lines| && forall i :: 0 <= i < |lines| ==>
      shown[i] == LineFeeds(if |lines[i]| > 116 then lines[i][..116] else lines[i])
  {
    seq(|lines|, i requires 0 <= i < |lines| => LineFeeds(Cut(lines[i])))
  }

  lemma AfterParenthesis(escaped: string, show: string, rest: string)
    ensures var s := "(" + escaped + ")" + show + rest;
      |s| >= 2 && s[0] == '(' && s[1..] == escaped + ")" + (show + rest)
  {
    var s := "(" + escaped + ")" + show + rest;
    assert s == "(" + (escaped + ")" + (show + rest)) by {
      assert escaped + ")" + (show + rest) == escaped + ")" + show + rest;
    }
  }

  lemma ShownFirst(line: string, rest: string)
    ensures var s := ShowLine(line) + rest;
      s != STREAM_END && s != "" && s[0] == '(' && ReadLiteral(s[1..], 0) == Literal(LineFeeds(Cut(line)), SHOW + rest)
  {
    EscapeIsOnePass(Cut(line));
    EscapeReadsBack(Cut(line), SHOW + rest);
    AfterParenthesis(PdfEscape(Cut(line)), SHOW, rest);
  }

  lemma ShowsOne(line: string, rest: string, lines: seq<string>)
    requires ReadShown(rest) == Shown(lines)
    ensures ReadShown(ShowLine(line) + rest) == Shown([LineFeeds(Cut(line))] + lines)
  {
    ShownFirst(line, rest);
    assert (SHOW + rest)[|SHOW|..] == rest;
  }

  /** A viewer shows every line of a page, in order, cut to 116 bytes. */
  lemma {:induction false} StreamShowsLines(lines: seq<string>)
    ensures ReadShown(ShowLines(lines) + STREAM_END) == Shown(AsShown(lines))
  {
    if lines == [] {
      assert ShowLines(lines) + STREAM_END == STREAM_END;
    } else {
      StreamShowsLines(lines[1..]);
      ShowsOne(lines[0], ShowLines(lines[1..]) + STREAM_END, AsShown(lines[1..]));
      FirstLineApart(lines);
    }
  }

  lemma FirstLineApart(lines: seq<string>)
    requires lines != []
    ensures ShowLines(lines) + STREAM_END == ShowLine(lines[0]) + (ShowLines(lines[1..]) + STREAM_END)
    ensures AsShown(lines) == [LineFeeds(Cut(lines[0]))] + AsShown(lines[1..])
  {
    Regrouped(ShowLine(lines[0]), ShowLines(lines[1..]), STREAM_END);
  }

  lemma Regrouped(a: string, b: string, c: string)
    ensures (a + b) + c == a + (b + c)
  {
  }

  // ----- the file -----

  const HEADER := "%PDF-1.4\n%\U{E2}\U{E3}\U{CF}\U{D3}\n"
  const FREE_ENTRY := "0000000000 65535 f \n"

  function ObjectText(index: nat, object_: string): string {
    Decimal(index + 1) + " 0 obj\n" + object_ + "\nendobj\n"
  }

  /** The file up to the n-th object. */
  function Body(objects: seq<string>, n: nat): string
    requires n <= |objects|
  {
    if n == 0 then HEADER else Body(objects, n - 1) + ObjectText(n - 1, objects[n - 1])
  }

  function Offset(objects: seq<string>, index: nat): nat
    requires index < |objects|
  {
    |Body(objects, index)|
  }

  function Entry(offset: nat): string { ZeroPadded(offset, 10) + " 00000 n \n" }

  function Entries(objects: seq<string>, n: nat): string
    requires n <= |objects|
  {
    if n == 0 then FREE_ENTRY else Entries(objects, n - 1) + Entry(Offset(objects, n - 1))
  }

  function TableHead(count: nat): string { "xref\n0 " + Decimal(count + 1) + "\n" }

  function Trailer(count: nat, xref: nat): string {
    "trailer\n<< /Size " + Decimal(count + 1) + " /Root 1 0 R >>\nstartxref\n" + Decimal(xref) + "\n%%EOF\n"
  }

  function Document(objects: seq<string>): string {
    var n := |objects|;
    Body(objects, n) + (TableHead(n) + (Entries(objects, n) + Trailer(n, |Body(objects, n)|)))
  }

  lemma {:induction false} BodyGrows(objects: seq<string>, a: nat, b: nat)
    requires a <= b <= |objects|
    ensures Body(objects, a) <= Body(objects, b)
  {
    if a < b { BodyGrows(objects, a, b - 1); }
  }

  /** The text of an object stands at its offset. */
  lemma ObjectAtOffset(objects: seq<string>, index: nat)
    requires index < |objects|
    ensures var at := Offset(objects, index);
      at <= |Document(objects)| && ObjectText(index, objects[index]) <= Document(objects)[at..]
  {
    var at, text := Offset(objects, index), ObjectText(index, objects[index]);
    BodyGrows(objects, index + 1, |objects|);
    var whole := Body(objects, |objects|);
    assert Body(objects, index) + text <= whole;
    assert whole[at..at + |text|] == (Body(objects, index) + text)[at..];
    assert Document(objects)[at..][..|text|] == whole[at..at + |text|];
  }

  /** The k-th 20-byte place of a table holds an entry. */
  predicate EntryStands(file: string, table: nat, k: nat, entry: string) {
    |entry| == 20 && table + 20 * k + 20 <= |file| && file[table + 20 * k..table + 20 * k + 20] == entry
  }

  lemma EntryReads(offset: nat)
    requires offset < PowerOfTen(10)
    ensures var entry := Entry(offset);
      |entry| == 20 && (forall i :: 0 <= i < 10 ==> IsDigit(entry[i])) && DecimalValue(entry[..10]) == offset
  {
    ZeroPaddedReadsBack(offset, 10);
    assert Entry(offset)[..10] == ZeroPadded(offset, 10);
  }

  lemma StandsInLonger(entries: string, more: string, k: nat, entry: string)
    requires EntryStands(entries, 0, k, entry)
    ensures EntryStands(entries + more, 0, k, entry)
  {
    assert (entries + more)[20 * k..20 * k + 20] == entries[20 * k..20 * k + 20];
  }

  lemma StandsLast(entries: string, entry: string, k: nat)
    requires |entries| == 20 * k && |entry| == 20
    ensures EntryStands(entries + entry, 0, k, entry)
  {
  }

  lemma {:induction false} EntriesAreTwenty(objects: seq<string>, n: nat)
    requires n <= |objects| && |Body(objects, |objects|)| < PowerOfTen(10)
    ensures |Entries(objects, n)| == 20 * (n + 1) && EntryStands(Entries(objects, n), 0, 0, FREE_ENTRY)
    ensures forall i: nat :: i < n ==> EntryStands(Entries(objects, n), 0, i + 1, Entry(Offset(objects, i)))
  {
    if n > 0 {
      var before, entry := Entries(objects, n - 1), Entry(Offset(objects, n - 1));
      EntriesAreTwenty(objects, n - 1);
      BodyGrows(objects, n - 1, |objects|);
      EntryReads(Offset(objects, n - 1));
      StandsInLonger(before, entry, 0, FREE_ENTRY);
      forall i: nat | i < n ensures EntryStands(Entries(objects, n), 0, i + 1, Entry(Offset(objects, i))) {
        if i < n - 1 {
          StandsInLonger(before, entry, i + 1, Entry(Offset(objects, i)));
        } else {
          StandsLast(before, entry, n);
        }
      }
    }
  }

  lemma StandsWithin(file: string, table: nat, entries: string, k: nat, entry: string)
    requires table + |entries| <= |file| && file[table..table + |entries|] == entries
      && EntryStands(entries, 0, k, entry)
    ensures EntryStands(file, table, k, entry)
  {
    forall i | 0 <= i < 20 ensures file[table + 20 * k + i] == entry[i] {
      assert file[table..table + |entries|][20 * k + i] == entries[20 * k + i] == entries[20 * k..20 * k + 20][i];
    }
  }

  function TableStart(objects: seq<string>): nat { |Body(objects, |objects|)| + |TableHead(|objects|)| }

  /** As long as the file stays under ten billion bytes, every cross-reference entry is 20 bytes, the
      entry of an object stands in its place, and its ten digits are the offset of that object. */
  lemma TableIsExact(objects: seq<string>, index: nat)
    requires index < |objects| && |Document(objects)| < PowerOfTen(10)
    ensures EntryStands(Document(objects), TableStart(objects), 0, FREE_ENTRY)
    ensures EntryStands(Document(objects), TableStart(objects), index + 1, Entry(Offset(objects, index)))
    ensures (forall i :: 0 <= i < 10 ==> IsDigit(Entry(Offset(objects, index))[i]))
            && DecimalValue(Entry(Offset(objects, index))[..10]) == Offset(objects, index)
  {
    var file, table, entries, entry := Document(objects), TableStart(objects), Entries(objects, |objects|),
      Entry(Offset(objects, index));
    TableStands(objects);
    SmallBody(objects);
    EntriesAreTwenty(objects, |objects|);
    OffsetReads(objects, index);
    BothStandWithin(file, table, entries, index + 1, entry);
  }

  lemma BothStandWithin(file: string, table: nat, entries: string, k: nat, entry: string)
    requires table + |entries| <= |file| && file[table..table + |entries|] == entries
    requires EntryStands(entries, 0, 0, FREE_ENTRY) && EntryStands(entries, 0, k, entry)
    ensures EntryStands(file, table, 0, FREE_ENTRY) && EntryStands(file, table, k, entry)
  {
    StandsWithin(file, table, entries, 0, FREE_ENTRY);
    StandsWithin(file, table, entries, k, entry);
  }

  lemma SmallBody(objects: seq<string>)
    ensures |Body(objects, |objects|)| <= |Document(objects)|
  {
  }

  lemma OffsetReads(objects: seq<string>, index: nat)
    requires index < |objects| && |Body(objects, |objects|)| < PowerOfTen(10)
    ensures var entry := Entry(Offset(objects, index));
      |entry| == 20 && (forall i :: 0 <= i < 10 ==> IsDigit(entry[i]))
        && DecimalValue(entry[..10]) == Offset(objects, index)
  {
    BodyGrows(objects, index, |objects|);
    EntryReads(Offset(objects, index));
  }

  lemma TableStands(objects: seq<string>)
    ensures var table, entries := TableStart(objects), Entries(objects, |objects|);
      table + |entries| <= |Document(objects)| && Document(objects)[table..table + |entries|] == entries
  {
    MiddleStands(Body(objects, |objects|), TableHead(|objects|), Entries(objects, |objects|),
      Trailer(|objects|, |Body(objects, |objects|)|));
  }

  lemma MiddleStands(a: string, b: string, c: string, d: string)
    ensures var s := a + (b + (c + d)); |a| + |b| + |c| <= |s| && s[|a| + |b|..|a| + |b| + |c|] == c
  {
  }

  lemma FileParts(file: string, body: string, head: string, entries: string, trailer: string, tail: string)
    requires file == body + (head + (entries + (trailer + tail)))
    ensures |body| <= |file| && head <= file[|body|..]
    ensures |tail| <= |file| && file[|file| - |tail|..] == tail
  {
  }

  /** The number after startxref, at the very end of the file, points at the table. */
  lemma StartPointsAtTable(objects: seq<string>)
    ensures var file, n := Document(objects), |objects|;
      var xref := |Body(objects, n)|;
      var tail := Decimal(xref) + "\n%%EOF\n";
      && xref <= |file| && TableHead(n) <= file[xref..]
      && |tail| <= |file| && file[|file| - |tail|..] == tail && DecimalValue(Decimal(xref)) == xref
  {
    var n := |objects|;
    var xref := |Body(objects, n)|;
    var tail := Decimal(xref) + "\n%%EOF\n";
    var lead := "trailer\n<< /Size " + Decimal(n + 1) + " /Root 1 0 R >>\nstartxref\n";
    DecimalReadsBack(xref);
    assert Trailer(n, xref) == lead + tail;
    FileParts(Document(objects), Body(objects, n), TableHead(n), Entries(objects, n), lead, tail);
  }

  // ----- the objects -----

  function PageObject(page: nat): nat { 4 + page * 2 }

  const PAGE_BEGIN :=
    "<< /Type /Page /Parent 2 0 R /MediaBox [0 0 595 842] /Resources << /Font << /F1 3 0 R >> >> /Contents "

  function PageText(page: nat): string { PAGE_BEGIN + Decimal(PageObject(page) + 1) + " 0 R >>" }

  function ContentText(lines: seq<string>): string {
    var stream := Stream(lines);
    "<< /Length " + Decimal(|stream|) + " >>\nstream\n" + stream + "\nendstream"
  }

  /** The references to the first pages, one space between them. */
  function Kids(pages: nat): string {
    if pages == 0 then ""
    else if pages == 1 then Decimal(PageObject(0)) + " 0 R"
    else Kids(pages - 1) + " " + Decimal(PageObject(pages - 1)) + " 0 R"
  }

  function PagesText(kids: string, pages: nat): string {
    "<< /Type /Pages /Kids [" + kids + "] /Count " + Decimal(pages) + " >>"
  }

  const CATALOG := "<< /Type /Catalog /Pages 2 0 R >>"
  const FONT := "<< /Type /Font /Subtype /Type1 /BaseFont /Helvetica >>"

  /** A page and its content, one after the other. */
  function PageObjects(lines: seq<string>, pages: nat): (objects: seq<string>)
    requires pages <= PageCount(|lines|)
    ensures |objects| == 2 * pages
  {
    seq(2 * pages, i requires 0 <= i < 2 * pages =>
      if i % 2 == 0 then PageText(i / 2) else ContentText(PageLines(lines, i / 2)))
  }

  lemma SlotAt(lines: seq<string>, page: nat)
    requires page < PageCount(|lines|)
    ensures forall pages: nat :: page < pages <= PageCount(|lines|) ==>
      PageObjects(lines, pages)[2 * page] == PageText(page)
        && PageObjects(lines, pages)[2 * page + 1] == ContentText(PageLines(lines, page))
  {
    assert 2 * page % 2 == 0 && 2 * page / 2 == page && (2 * page + 1) % 2 == 1 && (2 * page + 1) / 2 == page;
  }

  lemma NextSlots(lines: seq<string>, page: nat)
    requires page < PageCount(|lines|)
    ensures PageObjects(lines, page + 1)
      == PageObjects(lines, page) + [PageText(page), ContentText(PageLines(lines, page))]
  {
    SlotAt(lines, page);
    EarlierSlots(lines, page);
    TwoMore(PageObjects(lines, page), PageObjects(lines, page + 1), PageText(page),
      ContentText(PageLines(lines, page)));
  }

  lemma EarlierSlots(lines: seq<string>, page: nat)
    requires page < PageCount(|lines|)
    ensures forall i :: 0 <= i < 2 * page ==> PageObjects(lines, page + 1)[i] == PageObjects(lines, page)[i]
  {
  }

  lemma TwoMore(before: seq<string>, after: seq<string>, text: string, content: string)
    requires |after| == |before| + 2 && forall i :: 0 <= i < |before| ==> after[i] == before[i]
    requires after[|before|] == text && after[|before| + 1] == content
    ensures after == before + [text, content]
  {
  }

  /** The objects in the order of their numbers, which start at 1. */
  function Objects(lines: seq<string>): seq<string> {
    var pages := PageCount(|lines|);
    [CATALOG, PagesText(Kids(pages), pages), FONT] + PageObjects(lines, pages)
  }

  lemma {:induction false} ShowAppend(first: seq<string>, second: seq<string>)
    ensures ShowLines(first + second) == ShowLines(first) + ShowLines(second)
  {
    if first == [] {
      assert first + second == second;
    } else {
      assert (first + second)[1..] == first[1..] + second;
      ShowAppend(first[1..], second);
    }
  }

  lemma ShowNext(lines: seq<string>, n: nat)
    requires n < |lines|
    ensures ShowLines(lines[..n + 1]) == ShowLines(lines[..n]) + ShowLine(lines[n])
  {
    assert lines[..n + 1] == lines[..n] + [lines[n]];
    ShowAppend(lines[..n], [lines[n]]);
    assert ShowLines([lines[n]]) == ShowLine(lines[n]) + ShowLines([]);
  }

  /** The loop over the lines of a page. */
  method WriteLines(lines: seq<string>) returns (shown: string)
    ensures shown == ShowLines(lines)
  {
    shown := "";
    for n := 0 to |lines|
      invariant shown == ShowLines(lines[..n])
    {
      ShowNext(lines, n);
      var line := lines[n];
      if |line| > MAX_LINE { line := line[..MAX_LINE]; }
      shown := shown + ("(" + PdfEscape(line) + ")" + SHOW);
    }
    assert lines[..|lines|] == lines;
  }

  method WriteContent(lines: seq<string>, page: nat) returns (text: string)
    requires page < PageCount(|lines|)
    ensures text == ContentText(PageLines(lines, page))
  {
    var start := page * LINES_PER_PAGE;
    var end := start + LINES_PER_PAGE;
    if end > |lines| { end := |lines|; }
    var shown := WriteLines(lines[start..end]);
    var stream := STREAM_BEGIN + shown + STREAM_END;
    text := "<< /Length " + Decimal(|stream|) + " >>\nstream\n" + stream + "\nendstream";
  }

  /** Slot 0 and the slots of the first pages are filled, and no slot twice. */
  ghost predicate Filled(objects: array<string>, writes: multiset<int>, catalog: string, done: seq<string>)
    reads objects
  {
    && 3 + |done| <= objects.Length
    && objects[0] == catalog && objects[3..3 + |done|] == done
    && (forall slot :: writes[slot] == if slot == 0 || 3 <= slot < 3 + |done| then 1 else 0)
  }

  method FillSlots(objects: array<string>, ghost writes: multiset<int>, ghost catalog: string, ghost done: seq<string>,
                   page: nat, text: string, content: string) returns (ghost after: multiset<int>)
    requires Filled(objects, writes, catalog, done) && |done| == 2 * page && 5 + 2 * page <= objects.Length
    modifies objects
    ensures Filled(objects, after, catalog, done + [text, content])
  {
    var pageObject := 4 + page * 2;
    var contentObject := pageObject + 1;
    objects[pageObject - 1] := text;
    objects[contentObject - 1] := content;
    after := writes + multiset{pageObject - 1, contentObject - 1};
  }

  /** Every page adds the reference to its own object, which is numbered from 4 by twos. */
  lemma NextKid(page: nat)
    ensures Kids(page + 1) == (if page == 0 then "" else Kids(page) + " ") + Decimal(4 + 2 * page) + " 0 R"
  {
  }

  /** The page loop: the pages' slots, and the references to them. */
  method FillPages(objects: array<string>, ghost writes: multiset<int>, ghost catalog: string, lines: seq<string>)
    returns (pageRefs: string, ghost after: multiset<int>)
    requires Filled(objects, writes, catalog, []) && objects.Length == 3 + 2 * PageCount(|lines|)
    modifies objects
    ensures Filled(objects, after, catalog, PageObjects(lines, PageCount(|lines|)))
      && pageRefs == Kids(PageCount(|lines|))
  {
    pageRefs, after := "", writes;
    for page := 0 to PageCount(|lines|)
      invariant Filled(objects, after, catalog, PageObjects(lines, page)) && pageRefs == Kids(page)
    {
      pageRefs := (if page == 0 then "" else pageRefs + " ") + Decimal(PageObject(page)) + " 0 R";
      NextKid(page);
      var content := WriteContent(lines, page);
      NextSlots(lines, page);
      after := FillSlots(objects, after, catalog, PageObjects(lines, page), page, PageText(page), content);
    }
  }

  lemma Assembled(objects: seq<string>, first: string, second: string, third: string, rest: seq<string>)
    requires |objects| >= 3 && objects[0] == first && objects[1] == second && objects[2] == third
      && objects[3..] == rest
    ensures objects == [first, second, third] + rest
  {
  }

  lemma AllOnce(writes: multiset<int>, n: nat)
    requires n >= 3 && forall slot :: writes[slot] == if slot == 0 || 3 <= slot < n then 1 else 0
    ensures forall slot :: (writes + multiset{1, 2})[slot] == if 0 <= slot < n then 1 else 0
  {
  }

  /** The two slots that are written after the page loop. */
  method FinishSlots(objects: array<string>, ghost writes: multiset<int>, ghost catalog: string, second: string,
      third: string, ghost done: seq<string>)
    returns (ghost after: multiset<int>)
    requires Filled(objects, writes, catalog, done) && objects.Length == 3 + |done|
    modifies objects
    ensures objects[..] == [catalog, second, third] + done
    ensures forall slot :: after[slot] == if 0 <= slot < objects.Length then 1 else 0
  {
    objects[1] := second;
    objects[2] := third;
    after := writes + multiset{1, 2};
    AllOnce(writes, objects.Length);
    Assembled(objects[..], catalog, second, third, done);
  }

  /** Every slot is written, and written once: `writes` counts the assignments. */
  method FillObjects(lines: seq<string>) returns (objects: array<string>, ghost writes: multiset<int>)
    ensures fresh(objects) && objects[..] == Objects(lines)
    ensures forall slot :: writes[slot] == if 0 <= slot < objects.Length then 1 else 0
  {
    var pageCount := PageCount(|lines|);
    objects, writes := NewSlots(3 + pageCount * 2, CATALOG);
    var pageRefs;
    pageRefs, writes := FillPages(objects, writes, CATALOG, lines);
    writes := FinishSlots(objects, writes, CATALOG, PagesText(pageRefs, pageCount), FONT,
      PageObjects(lines, pageCount));
  }

  method NewSlots(count: nat, catalog: string) returns (objects: array<string>, ghost writes: multiset<int>)
    requires count >= 3
    ensures fresh(objects) && objects.Length == count && Filled(objects, writes, catalog, [])
  {
    objects := new string[count](_ => "");
    objects[0] := catalog;
    writes := multiset{0};
  }

  /** The object loop: the file so far and where each object starts. */
  method WriteObjects(slots: array<string>, ghost objects: seq<string>) returns (output: string, offsets: array<nat>)
    requires slots[..] == objects
    ensures fresh(offsets) && output == Body(objects, |objects|)
    ensures offsets.Length == |objects| && forall i :: 0 <= i < |objects| ==> offsets[i] == Offset(objects, i)
  {
    output := HEADER;
    offsets := new nat[slots.Length](_ => 0);
    for index := 0 to slots.Length
      invariant slots[..] == objects && output == Body(objects, index)
      invariant forall i :: 0 <= i < index ==> offsets[i] == Offset(objects, i)
    {
      offsets[index] := |output|;
      output := output + ObjectText(index, slots[index]);
    }
  }

  /** The entry loop. */
  method WriteEntries(offsets: array<nat>, ghost objects: seq<string>) returns (table: string)
    requires offsets.Length == |objects| && forall i :: 0 <= i < |objects| ==> offsets[i] == Offset(objects, i)
    ensures table == Entries(objects, |objects|)
  {
    table := FREE_ENTRY;
    for index := 0 to offsets.Length
      invariant table == Entries(objects, index)
    {
      table := table + Entry(offsets[index]);
    }
  }

  /** The whole file, written object by object and entry by entry. */
  method MinimalPDF(lines: seq<string>) returns (output: string)
    ensures output == Document(Objects(lines))
  {
    var slots, _ := FillObjects(lines);
    ghost var objects := slots[..];
    var body, offsets := WriteObjects(slots, objects);
    var entries := WriteEntries(offsets, objects);
    output := body + (TableHead(slots.Length) + (entries + Trailer(slots.Length, |body|)));
  }


  /** The content that a page refers to, by the object number that the file gives it, is the stream of
      the page's lines, and its stated length is the length of that stream. */
  lemma PageRefersToContent(lines: seq<string>, page: nat)
    requires page < PageCount(|lines|)
    ensures var objects, stream, number := Objects(lines), Stream(PageLines(lines, page)), 5 + 2 * page;
      && number <= |objects|
      && objects[number - 2] == PAGE_BEGIN + Decimal(number) + " 0 R >>"
      && objects[number - 1]
         == "<< /Length " + Decimal(|stream|) + " >>\nstream\n" + stream + "\nendstream"
  {
    SlotAt(lines, page);
    assert Objects(lines)[3..] == PageObjects(lines, PageCount(|lines|));
  }

  /** The catalog names the page tree, and the tree counts the pages that it refers to. */
  lemma TreeHoldsPages(lines: seq<string>)
    ensures var objects, pages := Objects(lines), PageCount(|lines|);
      && |objects| == 3 + 2 * pages
      && objects[0] == "<< /Type /Catalog /Pages 2 0 R >>"
      && objects[1] == "<< /Type /Pages /Kids [" + Kids(pages) + "] /Count " + Decimal(pages) + " >>"
  {
  }
}
