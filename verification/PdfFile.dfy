/** The finished PDF file (src/agents/pdf_writer.py, PdfDocument.render), and finding an
    object in it the way section 7.5 of ISO 32000-1 prescribes: the offset of the
    cross-reference table stands before the end-of-file marker, and the table's
    fixed-width entries hold the offsets of the objects. */
module PdfFile {
  import opened PdfText
  import opened PdfLiteral

  // ----- numbers ---------------------------------------------------------------------------

  predicate IsDigit(b: byte) {
    ZERO <= b <= ZERO + 9
  }

  predicate AllDigits(s: seq<byte>) {
    forall i :: 0 <= i < |s| ==> IsDigit(s[i])
  }

  /** `%d` of a natural number. */
  function Decimal(n: nat): seq<byte> {
    if n < 10 then [ZERO + n] else Decimal(n / 10) + [ZERO + n % 10]
  }

  function DecimalText(n: nat): string {
    if n < 10 then [('0' as int + n) as char] else DecimalText(n / 10) + [('0' as int + n % 10) as char]
  }

  function Value(digits: seq<byte>): int {
    if digits == [] then 0 else 10 * Value(digits[..|digits| - 1]) + (digits[|digits| - 1] - ZERO)
  }

  function Zeros(n: nat): seq<byte> {
    seq(n, _ => ZERO)
  }

  /** `%010d`. */
  function Padded(n: nat): seq<byte> {
    var d := Decimal(n);
    if |d| < 10 then Zeros(10 - |d|) + d else d
  }

  const TEN_DIGITS: nat := 10000000000

  function Power(k: nat): nat {
    if k == 0 then 1 else 10 * Power(k - 1)
  }

  lemma {:induction false} DecimalReads(n: nat)
    ensures Value(Decimal(n)) == n && AllDigits(Decimal(n)) && Decimal(n) != []
  {
    if n < 10 {
      assert [ZERO + n][..0] == [];
    } else {
      DecimalReads(n / 10);
      assert Decimal(n)[..|Decimal(n)| - 1] == Decimal(n / 10);
    }
  }

  lemma {:induction false} DecimalLength(n: nat, k: nat)
    requires k >= 1
    ensures |Decimal(n)| <= k <==> n < Power(k)
  {
    assert Power(1) == 10 by {
      assert Power(0) == 1;
    }
    if n >= 10 {
      if k > 1 {
        DecimalLength(n / 10, k - 1);
      }
    } else {
      PowerGrows(k);
    }
  }

  lemma {:induction false} PowerGrows(k: nat)
    requires k >= 1
    ensures Power(k) >= 10
  {
    if k > 1 {
      PowerGrows(k - 1);
    } else {
      assert Power(0) == 1;
    }
  }

  lemma TenDigits()
    ensures Power(10) == TEN_DIGITS
  {
    assert Power(2) == 100;
    assert Power(4) == 10 * (10 * Power(2));
    assert Power(6) == 10 * (10 * Power(4));
    assert Power(8) == 10 * (10 * Power(6));
  }

  lemma {:induction false} LeadingZeros(k: nat, d: seq<byte>)
    ensures Value(Zeros(k) + d) == Value(d)
  {
    if d == [] {
      if k > 0 {
        LeadingZeros(k - 1, d);
        assert (Zeros(k) + d)[..k - 1] == Zeros(k - 1) + d;
      } else {
        assert Zeros(k) + d == [];
      }
    } else {
      LeadingZeros(k, d[..|d| - 1]);
      assert (Zeros(k) + d)[..k + |d| - 1] == Zeros(k) + d[..|d| - 1];
    }
  }

  /** A padded offset reads as the offset, and takes exactly ten digits exactly when the
      offset has at most ten. */
  lemma PaddedReads(n: nat)
    ensures Value(Padded(n)) == n && AllDigits(Padded(n))
    ensures |Padded(n)| == 10 <==> n < TEN_DIGITS
  {
    DecimalReads(n);
    DecimalLength(n, 10);
    TenDigits();
    LeadingZeros(if |Decimal(n)| < 10 then 10 - |Decimal(n)| else 0, Decimal(n));
  }

  // ----- the objects ----------------------------------------------------------------------

  type Bytes = seq<byte>

  /** What has been laid out: the drawing operations of each page. */
  datatype Document = Document(title: string, footer: string, pages: seq<seq<Bytes>>)

  const PAGES_OBJECT: nat := 2

  function Lines(ops: seq<Bytes>): Bytes {
    if ops == [] then []
    else if |ops| == 1 then ops[0]
    else Lines(ops[..|ops| - 1]) + [LF] + ops[|ops| - 1]
  }

  function FooterOp(d: Document, k: nat): Bytes {
    Encode("BT /F1 8.0 Tf 56.00 32.00 Td ")
    + Literal(Encode(d.footer + "  |  page " + DecimalText(k + 1) + " of " + DecimalText(|d.pages|)))
    + Encode(" Tj ET")
  }

  function Stream(d: Document, k: nat): Bytes
    requires k < |d.pages|
  {
    Lines(d.pages[k] + [FooterOp(d, k)])
  }

  function ContentBody(stream: Bytes): Bytes {
    Encode("<< /Length ") + Decimal(|stream|) + Encode(" >>\nstream\n") + stream + Encode("\nendstream")
  }

  /** Content and page objects are numbered in pairs from 5 on. */
  function ContentNumber(k: nat): nat {
    5 + 2 * k
  }

  function PageNumber(k: nat): nat {
    6 + 2 * k
  }

  function PageBody(k: nat): Bytes {
    Encode("<< /Type /Page /Parent ") + Decimal(PAGES_OBJECT) + Encode(" 0 R /MediaBox [0 0 595 842] ")
    + Encode("/Resources << /Font << /F1 ") + Decimal(3) + Encode(" 0 R /F2 ") + Decimal(4)
    + Encode(" 0 R >> >> /Contents ") + Decimal(ContentNumber(k)) + Encode(" 0 R >>")
  }

  function PageObjects(d: Document, k: nat): seq<Bytes>
    requires k <= |d.pages|
  {
    if k == 0 then []
    else PageObjects(d, k - 1) + [ContentBody(Stream(d, k - 1)), PageBody(k - 1)]
  }

  /** How a reference goes on after the object's number. */
  function Generation(): Bytes {
    Encode(" 0 R")
  }

  function Kids(k: nat): Bytes {
    if k == 0 then []
    else if k == 1 then Decimal(PageNumber(0)) + Generation()
    else Kids(k - 1) + Encode(" ") + Decimal(PageNumber(k - 1)) + Generation()
  }

  function Catalog(): Bytes {
    Encode("<< /Type /Catalog /Pages ") + Decimal(PAGES_OBJECT) + Encode(" 0 R >>")
  }

  function PageTree(total: nat): Bytes {
    Encode("<< /Type /Pages /Kids [") + Kids(total) + Encode("] /Count ") + Decimal(total) + Encode(" >>")
  }

  function Font(bold: bool): Bytes {
    if bold then Encode("<< /Type /Font /Subtype /Type1 /BaseFont /Helvetica-Bold /Encoding /WinAnsiEncoding >>")
    else Encode("<< /Type /Font /Subtype /Type1 /BaseFont /Helvetica /Encoding /WinAnsiEncoding >>")
  }

  function Info(title: string): Bytes {
    Encode("<< /Title ") + Literal(Encode(title)) + Encode(" /Producer (MarginMaestro) >>")
  }

  function ObjectsOf(d: Document): seq<Bytes> {
    [Catalog(), PageTree(|d.pages|), Font(false), Font(true)] + PageObjects(d, |d.pages|) + [Info(d.title)]
  }

  // ----- the file -------------------------------------------------------------------------

  function Header(): Bytes {
    Encode("%PDF-1.4\n%") + [0xE2, 0xE3, 0xCF, 0xD3] + [LF]
  }

  /** One indirect object. */
  function Indirect(n: nat, body: Bytes): Bytes {
    Decimal(n) + Encode(" 0 obj\n") + body + Encode("\nendobj\n")
  }

  function Front(objects: seq<Bytes>, k: nat): Bytes
    requires k <= |objects|
  {
    if k == 0 then Header() else Front(objects, k - 1) + Indirect(k, objects[k - 1])
  }

  /** Where object `n` begins. */
  function Offset(objects: seq<Bytes>, n: nat): nat
    requires 1 <= n <= |objects|
  {
    |Front(objects, n - 1)|
  }

  function Entry(offset: nat): Bytes {
    Padded(offset) + Encode(" 00000 n \n")
  }

  function Entries(objects: seq<Bytes>, k: nat): Bytes
    requires k <= |objects|
  {
    if k == 0 then Encode("0000000000 65535 f \n") else Entries(objects, k - 1) + Entry(Offset(objects, k))
  }

  function TableHead(count: nat): Bytes {
    Encode("xref\n0 ") + Decimal(count) + Encode("\n")
  }

  function Trailer(objects: seq<Bytes>): Bytes {
    Encode("trailer\n<< /Size ") + Decimal(|objects| + 1) + Encode(" /Root ") + Decimal(1) + Encode(" 0 R /Info ")
    + Decimal(|objects|) + Encode(" 0 R >>\nstartxref\n")
  }

  function Ending(): Bytes {
    Encode("\n%%EOF\n")
  }

  function File(objects: seq<Bytes>): Bytes {
    var body := Front(objects, |objects|);
    body + TableHead(|objects| + 1) + Entries(objects, |objects|) + Trailer(objects) + Decimal(|body|) + Ending()
  }

  /** The finished file. The catalog and the page tree are filled in once the pages are numbered. */
  method Render(d: Document) returns (out: Bytes)
    ensures out == File(ObjectsOf(d))
  {
    hide Catalog, PageTree, Font, Info, ContentBody, PageBody, Stream, Indirect, Entry, TableHead, Trailer, Ending;
    hide Header, Decimal, Front, Entries, Kids, PageObjects;
    var total := |d.pages|;
    var objects: seq<Bytes> := [[], [], Font(false), Font(true)];
    var kids: Bytes := [];
    NoPages(d);
    for k := 0 to total
      invariant objects == [[], [], Font(false), Font(true)] + PageObjects(d, k)
      invariant |objects| == 4 + 2 * k && kids == Kids(k)
    {
      NextPage(d, k);
      objects := objects + [ContentBody(Stream(d, k))];
      assert |objects| == ContentNumber(k);
      objects := objects + [PageBody(k)];
      assert |objects| == PageNumber(k);
      kids := (if k == 0 then [] else kids + Encode(" ")) + Decimal(|objects|) + Generation();
    }
    objects := objects[1 := PageTree(total)];
    objects := objects[0 := Catalog()];
    objects := objects + [Info(d.title)];
    assert objects == ObjectsOf(d);
    out := WriteFile(objects);
  }

  lemma NoPages(d: Document)
    ensures PageObjects(d, 0) == [] && Kids(0) == []
  {
  }

  lemma NextPage(d: Document, k: nat)
    requires k < |d.pages|
    ensures PageObjects(d, k + 1) == PageObjects(d, k) + [ContentBody(Stream(d, k)), PageBody(k)]
    ensures Kids(k + 1) == if k == 0 then Decimal(PageNumber(k)) + Generation()
                           else Kids(k) + Encode(" ") + Decimal(PageNumber(k)) + Generation()
  {
  }

  method WriteFile(objects: seq<Bytes>) returns (out: Bytes)
    ensures out == File(objects)
  {
    hide Header, Indirect, Entry, Decimal, Ending, Trailer, TableHead;
    out := Header();
    var offsets: seq<nat> := [];
    for k := 0 to |objects|
      invariant out == Front(objects, k)
      invariant |offsets| == k && forall i :: 0 <= i < k ==> offsets[i] == Offset(objects, i + 1)
    {
      offsets := offsets + [|out|];
      out := out + Indirect(k + 1, objects[k]);
    }
    var xref := |out|;
    ghost var front := out + TableHead(|objects| + 1);
    out := out + TableHead(|objects| + 1) + Encode("0000000000 65535 f \n");
    for k := 0 to |objects|
      invariant out == front + Entries(objects, k)
    {
      assert (front + Entries(objects, k)) + Entry(offsets[k]) == front + (Entries(objects, k) + Entry(offsets[k]));
      out := out + Entry(offsets[k]);
    }
    out := out + Trailer(objects) + Decimal(xref) + Ending();
  }

  // ----- reading the file -----------------------------------------------------------------

  /** The number whose last digit stands right before position `end`. */
  function NumberStart(file: Bytes, end: nat): (start: nat)
    requires end <= |file|
    ensures start <= end
  {
    if end == 0 || !IsDigit(file[end - 1]) then end else NumberStart(file, end - 1)
  }

  function NumberEnd(file: Bytes, start: nat): (end: nat)
    requires start <= |file|
    ensures start <= end <= |file|
    decreases |file| - start
  {
    if start == |file| || !IsDigit(file[start]) then start else NumberEnd(file, start + 1)
  }

  /** The number that stands right before the last seven bytes. */
  function LastNumber(bytes: Bytes): int {
    if |bytes| < 7 then -1 else Value(bytes[NumberStart(bytes, |bytes| - 7)..|bytes| - 7])
  }

  /** The offset a reader finds before the end-of-file marker. */
  function StartXref(file: Bytes): int {
    LastNumber(file)
  }

  /** What entry `n` of the table at `table` says: ten digits of a twenty-byte line. */
  function EntryOffset(file: Bytes, table: int, n: nat): int {
    if !(0 <= table && table + 7 <= |file|) then -1
    else
      var first := NumberEnd(file, table + 7) + 1 + 20 * n;
      if first + 10 <= |file| then Value(file[first..first + 10]) else -1
  }

  predicate StandsAt(file: Bytes, at: int, part: Bytes) {
    0 <= at && at + |part| <= |file| && file[at..at + |part|] == part
  }

  lemma Middle(a: Bytes, b: Bytes, c: Bytes)
    ensures StandsAt(a + b + c, |a|, b)
  {
  }

  lemma {:induction false} FrontGrows(objects: seq<Bytes>, j: nat, k: nat)
    requires j <= k <= |objects|
    ensures Front(objects, j) <= Front(objects, k)
  {
    hide Indirect, Header;
    if j < k {
      FrontGrows(objects, j, k - 1);
    }
  }

  lemma PrefixMiddle(all: Bytes, a: Bytes, b: Bytes, rest: Bytes)
    requires a + b <= all
    ensures StandsAt(all + rest, |a|, b)
  {
    assert all[|a|..|a| + |b|] == (a + b)[|a|..|a| + |b|] == b;
  }

  /** Each object stands at its offset, whatever the file holds after the objects. */
  lemma ObjectAtOffset(objects: seq<Bytes>, n: nat, rest: Bytes)
    requires 1 <= n <= |objects|
    ensures StandsAt(Front(objects, |objects|) + rest, Offset(objects, n), Indirect(n, objects[n - 1]))
  {
    hide Indirect, Header, StandsAt;
    FrontGrows(objects, n, |objects|);
    PrefixMiddle(Front(objects, |objects|), Front(objects, n - 1), Indirect(n, objects[n - 1]), rest);
  }

  /** The last object, hence every object, begins within ten digits. */
  predicate Addressable(objects: seq<Bytes>) {
    objects != [] ==> Offset(objects, |objects|) < TEN_DIGITS
  }

  lemma EntryWidth(offset: nat)
    ensures |Entry(offset)| == 20 <==> offset < TEN_DIGITS
    ensures |Entry(offset)| >= 20
  {
    PaddedReads(offset);
    var d := Decimal(offset);
    assert |Padded(offset)| >= 10;
  }

  lemma {:induction false} EntryAt(objects: seq<Bytes>, n: nat, k: nat)
    requires 1 <= n <= k <= |objects| && Offset(objects, k) < TEN_DIGITS
    ensures |Entries(objects, k)| == 20 + 20 * k && StandsAt(Entries(objects, k), 20 * n, Entry(Offset(objects, n)))
    decreases k
  {
    hide Entry, Front, Decimal;
    EntryWidth(Offset(objects, k));
    if k == 1 {
      FirstEntries(objects);
    } else {
      OffsetsGrow(objects, k - 1, k);
      EntryAt(objects, if n < k then n else 1, k - 1);
    }
  }

  lemma FirstEntries(objects: seq<Bytes>)
    requires |objects| >= 1
    ensures Entries(objects, 1) == Entries(objects, 0) + Entry(Offset(objects, 1)) && |Entries(objects, 0)| == 20
  {
    hide Entry, Front;
    assert |"0000000000 65535 f \n"| == 20;
  }

  lemma OffsetsGrow(objects: seq<Bytes>, j: nat, k: nat)
    requires 1 <= j <= k <= |objects|
    ensures Offset(objects, j) <= Offset(objects, k)
  {
    FrontGrows(objects, j - 1, k - 1);
  }

  lemma {:induction false} NumberEndsAfter(file: Bytes, start: nat, digits: Bytes)
    requires StandsAt(file, start, digits) && AllDigits(digits)
    requires start + |digits| < |file| && !IsDigit(file[start + |digits|])
    ensures NumberEnd(file, start) == start + |digits|
    decreases |digits|
  {
    if digits != [] {
      assert file[start] == file[start..start + |digits|][0] == digits[0];
      assert file[start + 1..start + |digits|] == digits[1..];
      NumberEndsAfter(file, start + 1, digits[1..]);
    } else {
      assert start + |digits| == start;
    }
  }

  lemma {:induction false} NumberStartsBefore(file: Bytes, end: nat, digits: Bytes)
    requires |digits| < end <= |file| && StandsAt(file, end - |digits|, digits) && AllDigits(digits)
    requires !IsDigit(file[end - |digits| - 1])
    ensures NumberStart(file, end) == end - |digits|
    decreases |digits|
  {
    if digits != [] {
      var n := |digits| - 1;
      assert file[end - 1] == file[end - |digits|..end][n] == digits[n];
      assert file[end - 1 - n..end - 1] == digits[..n];
      NumberStartsBefore(file, end - 1, digits[..n]);
    }
  }

  /** A number between a non-digit and an ending of seven bytes is what a reader finds. */
  lemma NumberBeforeEnding(before: Bytes, number: Bytes, ending: Bytes)
    requires before != [] && !IsDigit(before[|before| - 1]) && AllDigits(number) && |ending| == 7
    ensures LastNumber(before + number + ending) == Value(number)
  {
    var file := before + number + ending;
    Middle(before, number, ending);
    assert file[|before| - 1] == before[|before| - 1];
    NumberStartsBefore(file, |file| - 7, number);
  }

  /** The file, cut where a reader looks. */
  lemma FileParts(objects: seq<Bytes>)
    ensures var file, body, entries := File(objects), Front(objects, |objects|), Entries(objects, |objects|);
      var tail := Trailer(objects) + Decimal(|body|) + Ending();
      && file == (body + TableHead(|objects| + 1) + entries + Trailer(objects)) + Decimal(|body|) + Ending()
      && file == body + (TableHead(|objects| + 1) + (entries + tail))
      && file == (body + TableHead(|objects| + 1)) + entries + tail
  {
    hide Front, Entries, TableHead, Trailer, Decimal, Ending;
  }

  /** startxref points at the table. */
  lemma StartXrefPointsAtTable(objects: seq<Bytes>)
    ensures var file := File(objects);
      StartXref(file) == |Front(objects, |objects|)| && StandsAt(file, StartXref(file), Encode("xref\n"))
  {
    FileParts(objects);
    DecimalReads(|Front(objects, |objects|)|);
    TrailerEnds(objects);
    EndingLength();
    TableHeadBegins(|objects| + 1);
    hide File, Front, Entries, Trailer, Ending, Decimal, TableHead, LastNumber, StandsAt, Encode;
    var body, table, entries := Front(objects, |objects|), TableHead(|objects| + 1), Entries(objects, |objects|);
    var before := body + table + entries + Trailer(objects);
    assert before[|before| - 1] == Trailer(objects)[|Trailer(objects)| - 1];
    NumberBeforeEnding(before, Decimal(|body|), Ending());
    var tail := entries + (Trailer(objects) + Decimal(|body|) + Ending());
    HeadStands(body, table, Encode("xref\n"), tail);
  }

  lemma HeadStands(a: Bytes, b: Bytes, head: Bytes, c: Bytes)
    requires head <= b
    ensures StandsAt(a + (b + c), |a|, head)
  {
    assert (a + (b + c))[|a|..|a| + |head|] == b[..|head|];
  }

  lemma TrailerEnds(objects: seq<Bytes>)
    ensures Trailer(objects) != [] && Trailer(objects)[|Trailer(objects)| - 1] == LF
  {
    hide Decimal;
    var s := " 0 R >>\nstartxref\n";
    assert Encode(s)[|s| - 1] == LF;
  }

  lemma EndingLength()
    ensures |Ending()| == 7
  {
    assert |"\n%%EOF\n"| == 7;
  }

  lemma TableHeadBegins(count: nat)
    ensures Encode("xref\n") <= TableHead(count)
  {
    hide Decimal;
    assert |"xref\n0 "| == 7 && |"xref\n"| == 5;
    assert Encode("xref\n0 ")[..5] == Encode("xref\n");
  }

  /** Following the file: the table entry of every object holds the position of its first
      byte - as long as the last object begins within ten digits. */
  lemma EntryPointsAtObject(objects: seq<Bytes>, n: nat)
    requires 1 <= n <= |objects| && Addressable(objects)
    ensures var file := File(objects); var at := EntryOffset(file, StartXref(file), n);
      at == Offset(objects, n) && StandsAt(file, at, Indirect(n, objects[n - 1]))
  {
    hide File, Front, Entries, Trailer, Ending, Decimal, TableHead, Padded, Indirect, StartXref, StandsAt, NumberEnd,
         Encode, Entry, Value, EntryOffset;
    StartXrefPointsAtTable(objects);
    TableEntryReads(objects, n);
    FileParts(objects);
    var body, head, entries := Front(objects, |objects|), TableHead(|objects| + 1), Entries(objects, |objects|);
    var rest := Trailer(objects) + Decimal(|body|) + Ending();
    ObjectAtOffset(objects, n, head + (entries + rest));
  }

  lemma TableEntryReads(objects: seq<Bytes>, n: nat)
    requires 1 <= n <= |objects| && Addressable(objects)
    ensures EntryOffset(File(objects), |Front(objects, |objects|)|, n) == Offset(objects, n)
  {
    hide File, Front, Entries, Trailer, Ending, Decimal, TableHead, Padded;
    hide StandsAt, NumberEnd, Encode, Entry, Value, EntryOffset;
    EntryAt(objects, n, |objects|);
    OffsetsGrow(objects, n, |objects|);
    PaddedReads(Offset(objects, n));
    EntryWidth(Offset(objects, n));
    FileParts(objects);
    TableHeadReads(objects);
    var body, head, entries := Front(objects, |objects|), TableHead(|objects| + 1), Entries(objects, |objects|);
    EntryFound(body, head, entries, Trailer(objects) + Decimal(|body|) + Ending(), n, Offset(objects, n));
  }

  lemma EntryFound(body: Bytes, head: Bytes, entries: Bytes, rest: Bytes, n: nat, offset: nat)
    requires var file := (body + head) + entries + rest;
      |body| + 7 <= |file| && NumberEnd(file, |body| + 7) + 1 == |body| + |head|
    requires 20 * n + 20 <= |entries| && StandsAt(entries, 20 * n, Entry(offset))
    requires |Padded(offset)| == 10 && |Entry(offset)| == 20
    ensures EntryOffset((body + head) + entries + rest, |body|, n) == Value(Padded(offset))
  {
    hide Padded, StandsAt, NumberEnd, Entry, Value;
    EntryReads(body + head, entries, rest, 20 * n, offset);
  }

  lemma EntryReads(a: Bytes, entries: Bytes, c: Bytes, at: nat, offset: nat)
    requires at + 20 <= |entries| && StandsAt(entries, at, Entry(offset))
    requires |Padded(offset)| == 10 && |Entry(offset)| == 20
    ensures var file := a + entries + c;
      |a| + at + 10 <= |file| && file[|a| + at..|a| + at + 10] == Padded(offset)
  {
    hide Padded;
    var file := a + entries + c;
    assert file[|a| + at..|a| + at + 10] == entries[at..at + 20][..10] == Entry(offset)[..10];
  }

  lemma TableHeadReads(objects: seq<Bytes>)
    ensures var body := Front(objects, |objects|);
      |body| + 7 <= |File(objects)| && NumberEnd(File(objects), |body| + 7) + 1 == |body| + |TableHead(|objects| + 1)|
  {
    FileParts(objects);
    hide File, Front, Entries, Trailer, Ending, Decimal, Encode, NumberEnd, TableHead;
    var body := Front(objects, |objects|);
    HeadReads(body, |objects| + 1, Entries(objects, |objects|) + (Trailer(objects) + Decimal(|body|) + Ending()));
  }

  /** The head of a table of `count` entries, wherever it stands. */
  lemma HeadReads(body: Bytes, count: nat, rest: Bytes)
    ensures var file := body + (TableHead(count) + rest);
      |body| + 7 <= |file| && NumberEnd(file, |body| + 7) + 1 == |body| + |TableHead(count)|
  {
    DecimalReads(count);
    assert |Encode("xref\n0 ")| == |"xref\n0 "| == 7 && |Encode("\n")| == |"\n"| == 1;
    hide Decimal, Encode, NumberEnd;
    CountReads(body, Decimal(count), rest);
  }

  lemma CountReads(body: Bytes, count: Bytes, rest: Bytes)
    requires AllDigits(count)
    ensures var file := body + ((Encode("xref\n0 ") + count + Encode("\n")) + rest);
      |body| + 7 + |count| < |file| && NumberEnd(file, |body| + 7) == |body| + 7 + |count|
  {
    var head, line := Encode("xref\n0 "), Encode("\n");
    assert |head| == |"xref\n0 "| == 7 && line == [LF];
    hide Encode;
    var file := body + ((head + count + line) + rest);
    assert file == (body + head) + count + (line + rest);
    Middle(body + head, count, line + rest);
    assert file[|body| + 7 + |count|] == LF;
    NumberEndsAfter(file, |body| + 7, count);
  }

  /** The table is one of twenty-byte entries exactly when every object begins within ten
      digits, which is when the last one does. */
  lemma {:induction false} TableIsFixedWidth(objects: seq<Bytes>, k: nat)
    requires 1 <= k <= |objects|
    ensures |Entries(objects, k)| == 20 + 20 * k <==> Offset(objects, k) < TEN_DIGITS
    ensures |Entries(objects, k)| >= 20 + 20 * k
  {
    hide Entry, Front, Decimal;
    EntryWidth(Offset(objects, k));
    if k == 1 {
      FirstEntries(objects);
    } else {
      TableIsFixedWidth(objects, k - 1);
      OffsetsGrow(objects, k - 1, k);
    }
  }

  // ----- the streams ------------------------------------------------------------------------

  /** A content object declares the exact length of its stream: reading `/Length` and
      taking that many bytes after the stream keyword ends right before `endstream`. */
  lemma StreamLengthIsExact(stream: Bytes)
    ensures var body := ContentBody(stream); var end := NumberEnd(body, 11);
      && Value(body[11..end]) == |stream|
      && StandsAt(body, end + 11, stream)
      && StandsAt(body, end + 11 + Value(body[11..end]), Encode("\nendstream"))
      && end + 11 + |stream| + 10 == |body|
  {
    DecimalReads(|stream|);
    var a, b, c := Encode("<< /Length "), Encode(" >>\nstream\n"), Encode("\nendstream");
    assert |a| == |"<< /Length "| == 11 && |b| == |" >>\nstream\n"| == 11 && |c| == |"\nendstream"| == 10;
    assert b[0] == 0x20;
    hide Decimal, Encode, Value;
    DeclaredStream(a, Decimal(|stream|), b, stream, c);
  }

  lemma DeclaredStream(a: Bytes, digits: Bytes, b: Bytes, stream: Bytes, c: Bytes)
    requires AllDigits(digits) && |a| == 11 && |b| == 11 && b[0] == 0x20
    ensures var body := a + digits + b + stream + c; var end := NumberEnd(body, 11);
      && body[11..end] == digits && StandsAt(body, end + 11, stream) && StandsAt(body, end + 11 + |stream|, c)
      && end + 11 + |stream| + |c| == |body|
  {
    var body := a + digits + b + stream + c;
    assert body == a + digits + (b + stream + c);
    Middle(a, digits, b + stream + c);
    assert body[11 + |digits|] == b[0];
    NumberEndsAfter(body, 11, digits);
    Middle(a + digits + b, stream, c);
    assert body == (a + digits + b + stream) + c + [];
    Middle(a + digits + b + stream, c, []);
  }

  /** Every page's content object is where the page refers to, and holds its stream. */
  lemma {:induction false} PagesReferToTheirContent(d: Document, k: nat, n: nat)
    requires k < n <= |d.pages|
    ensures |PageObjects(d, n)| == 2 * n
    ensures PageObjects(d, n)[ContentNumber(k) - 5] == ContentBody(Stream(d, k))
    ensures PageObjects(d, n)[PageNumber(k) - 5] == PageBody(k)
  {
    hide Stream, ContentBody, PageBody;
    if n > 1 {
      PagesReferToTheirContent(d, if k < n - 1 then k else 0, n - 1);
    } else {
      assert PageObjects(d, 0) == [];
    }
  }

  /** Looking object `n` up in the file leads to `body`. */
  predicate Found(objects: seq<Bytes>, n: int, body: Bytes) {
    var file := File(objects);
    n >= 1 && StandsAt(file, EntryOffset(file, StartXref(file), n), Indirect(n, body))
  }

  lemma ObjectIsFound(objects: seq<Bytes>, n: nat)
    requires 1 <= n <= |objects| && Addressable(objects)
    ensures Found(objects, n, objects[n - 1])
  {
    hide Addressable, File, StartXref, EntryOffset, StandsAt, Indirect, Offset;
    EntryPointsAtObject(objects, n);
  }

  lemma ReferenceReads(before: Bytes, n: nat)
    requires before != [] && before[|before| - 1] == 0x20
    ensures LastNumber(before + Decimal(n) + Encode(" 0 R >>")) == n
  {
    DecimalReads(n);
    assert |Encode(" 0 R >>")| == |" 0 R >>"| == 7;
    hide LastNumber, Decimal, Encode;
    NumberBeforeEnding(before, Decimal(n), Encode(" 0 R >>"));
  }

  /** The catalog refers to the page tree, and a page to its own content. */
  lemma ReferencesRead(k: nat)
    ensures LastNumber(Catalog()) == PAGES_OBJECT && LastNumber(PageBody(k)) == ContentNumber(k)
  {
    hide LastNumber, Decimal;
    var root := "<< /Type /Catalog /Pages ";
    assert Encode(root)[|root| - 1] == 0x20;
    ReferenceReads(Encode(root), PAGES_OBJECT);
    var contents := " 0 R >> >> /Contents ";
    assert Encode(contents)[|contents| - 1] == 0x20;
    var before := Encode("<< /Type /Page /Parent ") + Decimal(PAGES_OBJECT) + Encode(" 0 R /MediaBox [0 0 595 842] ")
      + Encode("/Resources << /Font << /F1 ") + Decimal(3) + Encode(" 0 R /F2 ") + Decimal(4) + Encode(contents);
    LastOfConcat(
      Encode("<< /Type /Page /Parent ") + Decimal(PAGES_OBJECT) + Encode(" 0 R /MediaBox [0 0 595 842] ")
      + Encode("/Resources << /Font << /F1 ") + Decimal(3) + Encode(" 0 R /F2 ") + Decimal(4), Encode(contents));
    ReferenceReads(before, ContentNumber(k));
  }

  // ----- the page tree ----------------------------------------------------------------------

  /** A number and the rest of a reference stand at `at`. */
  predicate IsReference(bytes: Bytes, at: nat) {
    at < |bytes| && IsDigit(bytes[at]) && StandsAt(bytes, NumberEnd(bytes, at), Generation())
  }

  /** The object numbers of a list of references, read from position `at` up to the first
      byte that neither begins nor continues the list. */
  function References(bytes: Bytes, at: nat): seq<int>
    decreases |bytes| - at
  {
    if !IsReference(bytes, at) then []
    else
      var end := NumberEnd(bytes, at);
      [Value(bytes[at..end])]
      + if end + 4 < |bytes| && bytes[end + 4] == SPACE then References(bytes, end + 5) else []
  }

  const SPACE: byte := 0x20

  /** What a reader finds in a page tree's `/Kids`. */
  function KidsRead(tree: Bytes): seq<int> {
    References(tree, 23)
  }

  function Reference(k: nat): Bytes {
    Decimal(PageNumber(k)) + Generation()
  }

  /** The references from page `j` on, as a reader meets them. */
  function KidsFrom(j: nat, n: nat): Bytes
    requires j < n
    decreases n - j
  {
    Reference(j) + if j + 1 < n then Encode(" ") + KidsFrom(j + 1, n) else []
  }

  lemma {:induction false} KidsFromExtends(j: nat, n: nat)
    requires j < n
    ensures KidsFrom(j, n + 1) == KidsFrom(j, n) + (Encode(" ") + Reference(n))
    decreases n - j
  {
    hide Reference, Encode;
    if j + 1 < n {
      KidsFromExtends(j + 1, n);
    } else {
      assert KidsFrom(n, n + 1) == Reference(n);
    }
  }

  lemma {:induction false} KidsForward(n: nat)
    requires n >= 1
    ensures Kids(n) == KidsFrom(0, n)
  {
    hide Decimal, Encode;
    if n > 1 {
      KidsForward(n - 1);
      KidsFromExtends(0, n - 1);
    }
  }

  function NumbersFrom(j: nat, n: nat): seq<int>
    requires j <= n
  {
    seq(n - j, i requires 0 <= i => PageNumber(j + i))
  }

  lemma GenerationBytes()
    ensures |Generation()| == 4 && Generation()[0] == SPACE
  {
    assert |" 0 R"| == 4;
  }

  /** The bytes, cut around a number and the word after it. */
  predicate IsCut(bytes: Bytes, before: Bytes, digits: Bytes, word: Bytes, tail: Bytes) {
    bytes == before + (digits + word) + tail
  }

  /** A number, a word that begins with a space, and what comes next. */
  lemma ReferenceStands(file: Bytes, before: Bytes, digits: Bytes, word: Bytes, tail: Bytes)
    requires AllDigits(digits) && digits != [] && word != [] && word[0] == SPACE && tail != []
    requires IsCut(file, before, digits, word, tail)
    ensures var end := |before| + |digits|;
      && end + |word| < |file| && file[end + |word|] == tail[0]
      && IsDigit(file[|before|]) && NumberEnd(file, |before|) == end && file[|before|..end] == digits
      && StandsAt(file, end, word)
  {
    assert IsDigit(digits[0]);
    hide NumberEnd, AllDigits, IsDigit;
    Regroup(before, digits, word, tail);
    PartStands(file, before, digits, word + tail);
    PartStands(file, before + digits, word, tail);
    PartStands(file, before + digits + word, tail, []);
    NumberEndsAfter(file, |before|, digits);
  }

  lemma Regroup(a: Bytes, b: Bytes, c: Bytes, d: Bytes)
    ensures a + (b + c) + d == (a + b) + c + d == a + b + (c + d)
  {
    assert a + (b + c) == a + b + c;
  }

  lemma PartStands(file: Bytes, a: Bytes, b: Bytes, c: Bytes)
    requires file == a + b + c && b != []
    ensures |a| + |b| <= |file| && StandsAt(file, |a|, b) && file[|a|] == b[0]
  {
    Middle(a, b, c);
  }

  lemma FirstReference(file: Bytes, before: Bytes, digits: Bytes, tail: Bytes)
    requires AllDigits(digits) && digits != [] && tail != []
    requires IsCut(file, before, digits, Generation(), tail)
    ensures References(file, |before|)
         == [Value(digits)] + if tail[0] == SPACE then References(file, |before| + |digits| + 5) else []
  {
    hide *;
    GenerationBytes();
    ReferenceStands(file, before, digits, Generation(), tail);
    ThenIsReference(file, |before|);
    ReadsOne(file, |before|, |before| + |digits|);
  }

  lemma ThenIsReference(bytes: Bytes, at: nat)
    requires at < |bytes| && IsDigit(bytes[at]) && StandsAt(bytes, NumberEnd(bytes, at), Generation())
    ensures IsReference(bytes, at)
  {
  }

  lemma ReadsOne(bytes: Bytes, at: nat, end: nat)
    requires at <= end && end + 4 < |bytes| && IsReference(bytes, at) && NumberEnd(bytes, at) == end
    ensures References(bytes, at)
         == [Value(bytes[at..end])] + if bytes[end + 4] == SPACE then References(bytes, end + 5) else []
  {
    hide IsReference, Value, NumberEnd;
  }

  lemma {:induction false} ReferencesFrom(before: Bytes, j: nat, n: nat, rest: Bytes)
    requires j < n && rest != [] && rest[0] != SPACE
    ensures References(before + KidsFrom(j, n) + rest, |before|) == NumbersFrom(j, n)
    decreases n - j
  {
    hide Decimal, Value, References;
    var digits, file := Decimal(PageNumber(j)), before + KidsFrom(j, n) + rest;
    DecimalReads(PageNumber(j));
    var one := Encode(" ");
    assert one == [SPACE];
    GenerationBytes();
    hide Encode, Generation;
    if j + 1 < n {
      var tail := one + KidsFrom(j + 1, n) + rest;
      assert file == before + Reference(j) + tail;
      FirstReference(file, before, digits, tail);
      var next := before + Reference(j) + one;
      assert file == next + KidsFrom(j + 1, n) + rest;
      assert |next| == |before| + |digits| + 5;
      ReferencesFrom(next, j + 1, n, rest);
      assert NumbersFrom(j, n) == [PageNumber(j)] + NumbersFrom(j + 1, n);
    } else {
      assert file == before + Reference(j) + rest;
      FirstReference(file, before, digits, rest);
      assert NumbersFrom(j, n) == [PageNumber(j)];
    }
  }

  /** Reading a page tree's `/Kids` gives the pages' object numbers, all of them and in order. */
  lemma KidsReadBack(total: nat)
    ensures KidsRead(PageTree(total)) == NumbersFrom(0, total)
  {
    var a, b := Encode("<< /Type /Pages /Kids ["), Encode("] /Count ");
    assert |a| == |"<< /Type /Pages /Kids ["| == 23 && b[0] == 0x5D;
    hide Encode, Decimal;
    var rest := b + Decimal(total) + Encode(" >>");
    assert PageTree(total) == a + Kids(total) + rest;
    if total == 0 {
      assert PageTree(total)[23] == b[0];
    } else {
      KidsForward(total);
      ReferencesFrom(a, 0, total, rest);
    }
  }

  lemma LastOfConcat(a: Bytes, b: Bytes)
    requires b != []
    ensures a + b != [] && (a + b)[|a + b| - 1] == b[|b| - 1]
  {
  }

  /** In every rendered document small enough for the table: the catalog leads to the page
      tree, the references read back from the page tree's `/Kids` are as many as the pages
      and lead to the pages in order, and the number a page gives for its content leads to
      that page's stream. */
  lemma RenderedPageIsFound(d: Document, k: nat)
    requires k < |d.pages| && Addressable(ObjectsOf(d))
    ensures Found(ObjectsOf(d), 1, Catalog()) && Found(ObjectsOf(d), LastNumber(Catalog()), PageTree(|d.pages|))
    ensures var kids := KidsRead(PageTree(|d.pages|));
      |kids| == |d.pages| && Found(ObjectsOf(d), kids[k], PageBody(k))
    ensures Found(ObjectsOf(d), LastNumber(PageBody(k)), ContentBody(Stream(d, k)))
  {
    hide ObjectsOf, Catalog, PageTree, ContentBody, PageBody, Stream;
    hide Found, Addressable, ContentNumber, PageNumber, LastNumber, KidsRead;
    ReferencesRead(k);
    KidsReadBack(|d.pages|);
    FirstObjects(d);
    PageObjectNumbers(d, k);
    ObjectIsFound(ObjectsOf(d), 1);
    ObjectIsFound(ObjectsOf(d), 2);
    ObjectIsFound(ObjectsOf(d), ContentNumber(k));
    ObjectIsFound(ObjectsOf(d), PageNumber(k));
  }

  lemma FirstObjects(d: Document)
    ensures |ObjectsOf(d)| >= 5 && ObjectsOf(d)[0] == Catalog() && ObjectsOf(d)[1] == PageTree(|d.pages|)
  {
    hide Catalog, PageTree, Font, Info, PageObjects;
  }

  lemma PageObjectNumbers(d: Document, k: nat)
    requires k < |d.pages|
    ensures 1 <= ContentNumber(k) < |ObjectsOf(d)| && 1 <= PageNumber(k) < |ObjectsOf(d)|
    ensures ObjectsOf(d)[ContentNumber(k) - 1] == ContentBody(Stream(d, k))
    ensures ObjectsOf(d)[PageNumber(k) - 1] == PageBody(k)
  {
    hide Catalog, PageTree, Font, Info, ContentBody, PageBody, Stream;
    PagesReferToTheirContent(d, k, |d.pages|);
  }
}
