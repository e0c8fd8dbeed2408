/** The PDF writer: where its cross-reference table points, and how its strings read back. */
module Pdf {
  import opened Money
  import opened Decimals

  /** A page's size, already formatted, and its drawing operators. */
  datatype Page = Page(width: string, height: string, content: string)

  type Compress = string -> string

  function Header(): string { "%PDF-1.4\n%\U{e2}\U{e3}\U{cf}\U{d3}\n" }

  function Digits(n: nat): string {
    (if n < 10 then "" else Digits(n / 10)) + [('0' as int + n % 10) as char]
  }

  /** At least ten digits, filled up with zeros in front. */
  function Padded10(n: nat): string {
    Zeros(Max(10 - |Digits(n)|, 0)) + Digits(n)
  }

  /* ---- the document's objects ---- */

  function Kids(n: nat): string {
    if n == 0 then "" else Kids(n - 1) + Digits(5 + 2 * (n - 1)) + " 0 R "
  }

  function Catalog(): string { "<< /Type /Catalog /Pages 2 0 R >>" }

  function Tree(kids: string, count: nat): string {
    "<< /Type /Pages /Kids [" + kids + "] /Count " + Digits(count) + " >>"
  }

  function FontBody(font: string): string {
    "<< /Type /Font /Subtype /Type1 /BaseFont /" + font + " /Encoding /WinAnsiEncoding >>"
  }

  function PageBody(p: Page, contents: nat): string {
    "<< /Type /Page /Parent 2 0 R /MediaBox [0 0 " + p.width + " " + p.height
    + "] /Resources << /Font << /F1 3 0 R /F2 4 0 R >> >> /Contents " + Digits(contents) + " 0 R >>"
  }

  function StreamBody(data: string): string {
    "<< /Length " + Digits(|data|) + " /Filter /FlateDecode >>\nstream\n" + data + "\nendstream"
  }

  /** How many objects n pages take. */
  function Count(pages: seq<Page>): nat { 4 + 2 * |pages| }

  /** The body of object k: catalog, page tree, two fonts, then each page and its contents. */
  function Body(pages: seq<Page>, z: Compress, k: nat): string
    requires 1 <= k <= Count(pages)
  {
    if k == 1 then Catalog()
    else if k == 2 then Tree(Kids(|pages|), |pages|)
    else if k == 3 then FontBody("Helvetica")
    else if k == 4 then FontBody("Helvetica-Bold")
    else if k % 2 == 1 then PageBody(pages[(k - 5) / 2], k + 1)
    else StreamBody(z(pages[(k - 6) / 2].content))
  }

  function ObjectText(k: nat, body: string): string {
    Digits(k) + " 0 obj\n" + body + "\nendobj\n"
  }

  /** The first n objects. */
  function Objects(pages: seq<Page>, z: Compress, n: nat): string
    requires n <= Count(pages)
  {
    if n == 0 then "" else Objects(pages, z, n - 1) + ObjectText(n, Body(pages, z, n))
  }

  /** Where object k begins. */
  function Offset(pages: seq<Page>, z: Compress, k: nat): nat
    requires 1 <= k <= Count(pages)
  {
    |Header()| + |Objects(pages, z, k - 1)|
  }

  /* ---- the table and the file ---- */

  function Entry(offset: nat): string { Padded10(offset) + " 00000 n \n" }

  function Table(pages: seq<Page>, z: Compress, n: nat): string
    requires n <= Count(pages)
  {
    if n == 0 then "" else Table(pages, z, n - 1) + Entry(Offset(pages, z, n))
  }

  function FreeEntry(): string { "0000000000 65535 f \n" }

  function TableHead(pages: seq<Page>): string { "xref\n0 " + Digits(Count(pages) + 1) + "\n" }

  function Trailer(pages: seq<Page>, xref: nat): string {
    "trailer\n<< /Size " + Digits(Count(pages) + 1) + " /Root 1 0 R >>\nstartxref\n" + Digits(xref) + "\n%%EOF\n"
  }

  /** Where the table begins. */
  function Xref(pages: seq<Page>, z: Compress): nat {
    |Header()| + |Objects(pages, z, Count(pages))|
  }

  function File(pages: seq<Page>, z: Compress): string {
    Header() + Objects(pages, z, Count(pages)) + TableHead(pages) + FreeEntry() + Table(pages, z, Count(pages))
    + Trailer(pages, Xref(pages, z))
  }

  /* ---- the writer ---- */

  /** The buffer holds the first |offsets| objects, and offsets where each begins. */
  ghost predicate Written(pages: seq<Page>, z: Compress, buf: string, offsets: seq<nat>) {
    && |offsets| <= Count(pages)
    && buf == Header() + Objects(pages, z, |offsets|)
    && forall k | 1 <= k <= |offsets| :: offsets[k - 1] == Offset(pages, z, k)
  }

  lemma WriteNext(pages: seq<Page>, z: Compress, buf: string, offsets: seq<nat>, body: string)
    requires Written(pages, z, buf, offsets) && |offsets| < Count(pages)
    requires body == Body(pages, z, |offsets| + 1)
    ensures Written(pages, z, buf + ObjectText(|offsets| + 1, body), offsets + [|buf|])
  {
    hide ObjectText, Body, Header;
    var k := |offsets| + 1;
    assert Header() + Objects(pages, z, k) == Header() + Objects(pages, z, k - 1) + ObjectText(k, body);
  }

  /** Appends one object and notes where it began. */
  method WriteObject(ghost pages: seq<Page>, ghost z: Compress, buf: string, offsets: seq<nat>, body: string)
    returns (after: string, noted: seq<nat>)
    requires Written(pages, z, buf, offsets) && |offsets| < Count(pages)
    requires body == Body(pages, z, |offsets| + 1)
    ensures Written(pages, z, after, noted) && |noted| == |offsets| + 1
  {
    WriteNext(pages, z, buf, offsets, body);
    noted := offsets + [|buf|];
    after := buf + ObjectText(|noted|, body);
  }

  lemma PageBodies(pages: seq<Page>, z: Compress, i: nat)
    requires i < |pages|
    ensures Body(pages, z, 5 + 2 * i) == PageBody(pages[i], 6 + 2 * i)
    ensures Body(pages, z, 6 + 2 * i) == StreamBody(z(pages[i].content))
  {
    hide PageBody, StreamBody, Digits;
  }

  lemma FirstObjects(pages: seq<Page>, z: Compress)
    ensures Written(pages, z, Header(), [])
    ensures Body(pages, z, 1) == Catalog() && Body(pages, z, 2) == Tree(Kids(|pages|), |pages|)
    ensures Body(pages, z, 3) == FontBody("Helvetica") && Body(pages, z, 4) == FontBody("Helvetica-Bold")
  {
    hide Header, Catalog, Tree, FontBody;
    assert Header() + Objects(pages, z, 0) == Header();
  }

  method BuildKids(pages: seq<Page>) returns (kids: string)
    ensures kids == Kids(|pages|)
  {
    hide Digits;
    kids := "";
    for i := 0 to |pages|
      invariant kids == Kids(i)
    {
      kids := kids + Digits(5 + 2 * i) + " 0 R ";
    }
  }

  method WriteObjects(pages: seq<Page>, z: Compress) returns (buf: string, offsets: seq<nat>)
    ensures Written(pages, z, buf, offsets) && |offsets| == Count(pages)
  {
    hide Written, Body, Kids, Digits, PageBody, StreamBody, Catalog, Tree, FontBody, Header;
    var kids := BuildKids(pages);
    FirstObjects(pages, z);
    buf, offsets := Header(), [];
    buf, offsets := WriteObject(pages, z, buf, offsets, Catalog());
    buf, offsets := WriteObject(pages, z, buf, offsets, Tree(kids, |pages|));
    buf, offsets := WriteObject(pages, z, buf, offsets, FontBody("Helvetica"));
    buf, offsets := WriteObject(pages, z, buf, offsets, FontBody("Helvetica-Bold"));
    for i := 0 to |pages|
      invariant Written(pages, z, buf, offsets) && |offsets| == 4 + 2 * i
    {
      PageBodies(pages, z, i);
      buf, offsets := WriteObject(pages, z, buf, offsets, PageBody(pages[i], 6 + 2 * i));
      buf, offsets := WriteObject(pages, z, buf, offsets, StreamBody(z(pages[i].content)));
    }
  }

  method WriteTable(ghost pages: seq<Page>, ghost z: Compress, front: string, offsets: seq<nat>) returns (file: string)
    requires |offsets| == Count(pages) && forall k | 1 <= k <= |offsets| :: offsets[k - 1] == Offset(pages, z, k)
    ensures file == front + Table(pages, z, Count(pages))
  {
    hide Offset, Entry;
    file := front;
    assert front + Table(pages, z, 0) == front;
    for k := 0 to |offsets|
      invariant file == front + Table(pages, z, k)
    {
      assert offsets[k] == Offset(pages, z, k + 1);
      assert front + Table(pages, z, k + 1) == front + Table(pages, z, k) + Entry(Offset(pages, z, k + 1));
      file := file + Entry(offsets[k]);
    }
  }

  method Bytes(pages: seq<Page>, z: Compress) returns (file: string)
    ensures file == File(pages, z)
  {
    hide Objects, Table, Body, TableHead, Trailer, Offset;
    var buf, offsets := WriteObjects(pages, z);
    var xref := |buf|;
    file := WriteTable(pages, z, buf + TableHead(pages) + FreeEntry(), offsets);
    file := file + Trailer(pages, xref);
  }

  /* ---- numbers ---- */

  lemma {:induction false} DigitsVal(n: nat)
    ensures IsDigits(Digits(n)) && Val(Digits(n)) == n && 0 < |Digits(n)|
  {
    var init, last := if n < 10 then "" else Digits(n / 10), [('0' as int + n % 10) as char];
    if n >= 10 {
      DigitsVal(n / 10);
    }
    assert (init + last)[..|init + last| - 1] == init;
  }

  lemma {:induction false} DigitsLength(n: nat, k: nat)
    requires 0 < k
    ensures |Digits(n)| <= k <==> n < Pow10(k)
  {
    if n < 10 {
      PowAtLeast(k);
    } else if k == 1 {
      DigitsVal(n / 10);
      assert Pow10(1) == 10;
    } else {
      DigitsLength(n / 10, k - 1);
    }
  }

  lemma {:induction false} PowAtLeast(k: nat)
    requires 0 < k
    ensures 10 <= Pow10(k)
  {
    if k > 1 {
      PowAtLeast(k - 1);
    }
  }

  lemma {:induction false} LeadingZeros(n: nat, s: string)
    ensures Val(Zeros(n) + s) == Val(s)
  {
    if s == "" {
      assert Zeros(n) + s == Zeros(n);
      ValZeros("", n);
      assert "" + Zeros(n) == Zeros(n);
    } else {
      assert (Zeros(n) + s)[..|Zeros(n) + s| - 1] == Zeros(n) + s[..|s| - 1];
      LeadingZeros(n, s[..|s| - 1]);
    }
  }

  /** A table entry is 20 bytes exactly while its offset has at most ten digits, and its first
      ten bytes read back as the offset. */
  lemma EntrySize(offset: nat)
    ensures |Entry(offset)| == 20 <==> offset < Pow10(10)
    ensures offset < Pow10(10) ==> Val(Entry(offset)[..10]) == offset
  {
    DigitsLength(offset, 10);
    DigitsVal(offset);
    ZerosLength(Max(10 - |Digits(offset)|, 0));
    LeadingZeros(Max(10 - |Digits(offset)|, 0), Digits(offset));
    if offset < Pow10(10) {
      assert Entry(offset)[..10] == Padded10(offset);
    }
  }

  /* ---- reading the page tree ---- */

  /** An indirect reference, its space behind it: object number, generation 0 and R. */
  predicate StartsWithRef(s: string) {
    var k := IndexOf(s, ' ');
    0 < k && k + 5 <= |s| && IsDigits(s[..k]) && s[k..k + 5] == " 0 R "
  }

  /** The object numbers of the references a text begins with. */
  function ReadRefs(s: string): seq<int>
    decreases |s|
  {
    if !StartsWithRef(s) then []
    else
      var k := IndexOf(s, ' ');
      [Val(s[..k])] + ReadRefs(s[k + 5..])
  }

  /** What stands in a text's first brackets. */
  function Bracketed(s: string): string {
    var k := IndexOf(s, '[');
    if k == |s| then ""
    else
      var rest := s[k + 1..];
      rest[..IndexOf(rest, ']')]
  }

  lemma IndexIs(s: string, c: char, k: nat)
    requires k < |s| && s[k] == c && c !in s[..k]
    ensures IndexOf(s, c) == k
  {
    assert forall i | 0 <= i < k :: s[i] == s[..k][i];
  }

  lemma ReadsRef(digits: string, rest: string)
    requires IsDigits(digits) && digits != ""
    ensures ReadRefs(digits + " 0 R " + rest) == [Val(digits)] + ReadRefs(rest)
  {
    var s, k := digits + " 0 R " + rest, |digits|;
    assert s[..k] == digits && s[k..k + 5] == " 0 R " && s[k + 5..] == rest;
    IndexIs(s, ' ', k);
    hide Val, IndexOf;
  }

  function ObjectOf(page: nat): nat { 5 + 2 * page }

  lemma KidsNext(n: nat, rest: string)
    ensures Kids(n + 1) + rest == Kids(n) + (Digits(ObjectOf(n)) + " 0 R " + rest)
    ensures Kids(0) + rest == rest
  {
    hide Digits;
    var kids, digits := Kids(n), Digits(ObjectOf(n));
    assert Kids(n + 1) == kids + digits + " 0 R ";
    assert kids + digits + " 0 R " + rest == kids + (digits + " 0 R " + rest);
  }

  lemma ObjectsNext(n: nat)
    ensures seq(n + 1, i requires 0 <= i => ObjectOf(i) as int)
            == seq(n, i requires 0 <= i => ObjectOf(i) as int) + [ObjectOf(n)]
  {
  }

  lemma {:induction false} ReadsKids(n: nat, rest: string)
    ensures ReadRefs(Kids(n) + rest) == seq(n, i requires 0 <= i => ObjectOf(i) as int) + ReadRefs(rest)
  {
    hide ReadRefs, Digits, Kids, IsDigits, Val, ObjectOf;
    if n == 0 {
      KidsNext(0, rest);
    } else {
      var digits := Digits(ObjectOf(n - 1));
      DigitsVal(ObjectOf(n - 1));
      KidsNext(n - 1, rest);
      ReadsRef(digits, rest);
      ReadsKids(n - 1, digits + " 0 R " + rest);
      ObjectsNext(n - 1);
    }
  }

  lemma NoBracketIn(kids: string, digits: string)
    requires ']' !in kids && IsDigits(digits)
    ensures ']' !in kids + digits + " 0 R "
  {
  }

  lemma {:induction false} NoBracket(n: nat)
    ensures ']' !in Kids(n)
  {
    hide Digits, Val, IsDigits;
    if n > 0 {
      NoBracket(n - 1);
      DigitsVal(ObjectOf(n - 1));
      NoBracketIn(Kids(n - 1), Digits(ObjectOf(n - 1)));
    }
  }

  lemma KidsBracketed(kids: string, count: nat)
    requires ']' !in kids
    ensures Bracketed(Tree(kids, count)) == kids
  {
    var head, tail := "<< /Type /Pages /Kids ", " /Count " + Digits(count) + " >>";
    hide Digits, IndexOf;
    assert '[' !in head;
    assert "<< /Type /Pages /Kids [" == head + "[" && "] /Count " == "]" + " /Count ";
    var s := Tree(kids, count);
    Framed(head, kids, tail);
    assert s == head + "[" + kids + "]" + tail;
  }

  lemma Framed(head: string, kids: string, tail: string)
    requires '[' !in head && ']' !in kids
    ensures Bracketed(head + "[" + kids + "]" + tail) == kids
  {
    var s := head + "[" + kids + "]" + tail;
    var rest := s[|head| + 1..];
    assert s[..|head|] == head && rest == kids + "]" + tail && rest[..|kids|] == kids;
    IndexIs(s, '[', |head|);
    IndexIs(rest, ']', |kids|);
  }

  lemma NothingMore(kids: string)
    ensures kids + "" == kids && ReadRefs("") == []
  {
  }

  lemma RefsAre(n: nat)
    ensures ReadRefs(Bracketed(Tree(Kids(n), n))) == seq(n, i requires 0 <= i => ObjectOf(i) as int)
  {
    hide *;
    NoBracket(n);
    KidsBracketed(Kids(n), n);
    NothingMore(Kids(n));
    ReadsKids(n, "");
  }

  /** The references in the page tree. */
  function PageRefs(pages: seq<Page>, z: Compress): seq<int> {
    ReadRefs(Bracketed(Body(pages, z, 2)))
  }

  /** The page tree refers to as many objects as there are pages, and says so; following its i-th
      reference a reader finds page i, and from there its contents. */
  lemma PageObjects(pages: seq<Page>, z: Compress, i: nat)
    requires i < |pages|
    ensures |PageRefs(pages, z)| == |pages| == Val(Digits(|pages|))
    ensures PageRefs(pages, z)[i] == 5 + 2 * i
    ensures Body(pages, z, 5 + 2 * i) == PageBody(pages[i], 6 + 2 * i)
    ensures Body(pages, z, 6 + 2 * i) == StreamBody(z(pages[i].content))
  {
    hide Body, PageBody, StreamBody, Kids, Tree, Bracketed, Digits, ReadRefs, Val, IsDigits, Catalog, FontBody;
    hide Objects, Header, ObjectText;
    PageBodies(pages, z, i);
    FirstObjects(pages, z);
    DigitsVal(|pages|);
    RefsAre(|pages|);
  }

  /* ---- reading the file by its table ---- */

  /** The text stands in the file at that place. */
  predicate StandsAt(file: string, at: int, text: string) {
    0 <= at && at + |text| <= |file| && file[at..at + |text|] == text
  }

  lemma Middle(a: string, b: string, c: string)
    ensures StandsAt(a + b + c, |a|, b)
  {
  }

  lemma Regroup(h: string, b: string, t: string, m: string, r: string)
    ensures h + (b + t + m) + r == (h + b) + t + (m + r)
  {
  }

  lemma {:induction false} ObjectsPrefix(pages: seq<Page>, z: Compress, k: nat, n: nat) returns (rest: string)
    requires k <= n <= Count(pages)
    ensures Objects(pages, z, n) == Objects(pages, z, k) + rest
  {
    hide ObjectText, Body;
    if k == n {
      rest := "";
      assert Objects(pages, z, n) == Objects(pages, z, k) + rest;
    } else {
      var r := ObjectsPrefix(pages, z, k, n - 1);
      rest := r + ObjectText(n, Body(pages, z, n));
      assert Objects(pages, z, k) + r + ObjectText(n, Body(pages, z, n)) == Objects(pages, z, k) + rest;
    }
  }

  function Rest(pages: seq<Page>, z: Compress): string {
    TableHead(pages) + FreeEntry() + Table(pages, z, Count(pages)) + Trailer(pages, Xref(pages, z))
  }

  lemma Regroup4(h: string, a: string, b: string, c: string, d: string)
    ensures h + a + b + c + d == h + (a + b + c + d)
  {
  }

  lemma FileSplits(pages: seq<Page>, z: Compress)
    ensures File(pages, z) == Header() + Objects(pages, z, Count(pages)) + Rest(pages, z)
  {
    hide Header, Objects, TableHead, FreeEntry, Table, Trailer, Xref;
    Regroup4(Header() + Objects(pages, z, Count(pages)), TableHead(pages), FreeEntry(), Table(pages, z, Count(pages)),
             Trailer(pages, Xref(pages, z)));
  }

  /** The file up to object k, and the object. */
  lemma ObjectStep(pages: seq<Page>, z: Compress, k: nat)
    requires 1 <= k <= Count(pages)
    ensures Objects(pages, z, k) == Objects(pages, z, k - 1) + ObjectText(k, Body(pages, z, k))
    ensures |Header() + Objects(pages, z, k - 1)| == Offset(pages, z, k)
  {
    hide Header, ObjectText, Body;
  }

  /** Object k begins at its offset. */
  lemma ObjectAt(pages: seq<Page>, z: Compress, k: nat)
    requires 1 <= k <= Count(pages)
    ensures StandsAt(File(pages, z), Offset(pages, z, k), ObjectText(k, Body(pages, z, k)))
  {
    hide *;
    var text, before := ObjectText(k, Body(pages, z, k)), Objects(pages, z, k - 1);
    var more := ObjectsPrefix(pages, z, k, Count(pages));
    FileSplits(pages, z);
    ObjectStep(pages, z, k);
    Regroup(Header(), before, text, more, Rest(pages, z));
    Middle(Header() + before, text, more + Rest(pages, z));
  }

  /** Offsets grow, so if the last fits in ten digits all do. */
  lemma OffsetsGrow(pages: seq<Page>, z: Compress, k: nat)
    requires 1 <= k <= Count(pages)
    ensures Offset(pages, z, k) <= Xref(pages, z)
  {
    hide Objects, Header;
    var more := ObjectsPrefix(pages, z, k - 1, Count(pages));
  }

  lemma TableStep(pages: seq<Page>, z: Compress, k: nat)
    requires 1 <= k <= Count(pages)
    ensures Table(pages, z, k) == Table(pages, z, k - 1) + Entry(Offset(pages, z, k))
    ensures Table(pages, z, 0) == ""
  {
    hide Entry, Offset;
  }

  lemma {:induction false} TableSize(pages: seq<Page>, z: Compress, n: nat)
    requires n <= Count(pages) && Xref(pages, z) < Pow10(10)
    ensures |Table(pages, z, n)| == 20 * n
  {
    hide Table, Offset, Xref, Entry, Pow10;
    TableStep(pages, z, if n == 0 then 1 else n);
    if n > 0 {
      TableSize(pages, z, n - 1);
      OffsetsGrow(pages, z, n);
      EntrySize(Offset(pages, z, n));
    }
  }

  lemma {:induction false} TablePrefix(pages: seq<Page>, z: Compress, k: nat, n: nat) returns (rest: string)
    requires k <= n <= Count(pages)
    ensures Table(pages, z, n) == Table(pages, z, k) + rest
  {
    hide Entry, Offset;
    if k == n {
      rest := "";
      assert Table(pages, z, n) == Table(pages, z, k) + rest;
    } else {
      var r := TablePrefix(pages, z, k, n - 1);
      rest := r + Entry(Offset(pages, z, n));
      assert Table(pages, z, k) + r + Entry(Offset(pages, z, n)) == Table(pages, z, k) + rest;
    }
  }

  /** Where a reader looks for the entry of object k. */
  function EntryPlace(pages: seq<Page>, xref: nat, k: nat): nat {
    xref + |TableHead(pages)| + 20 * k
  }

  lemma BeforeTable(pages: seq<Page>, z: Compress)
    ensures var front := Header() + Objects(pages, z, Count(pages)) + TableHead(pages) + FreeEntry();
            && |front| == Xref(pages, z) + |TableHead(pages)| + 20
            && File(pages, z) == front + Table(pages, z, Count(pages)) + Trailer(pages, Xref(pages, z))
  {
    assert |FreeEntry()| == 20;
    hide Header, Objects, TableHead, FreeEntry, Table, Trailer;
  }

  /** The 20 bytes at that place are object k's entry. */
  lemma EntryAt(pages: seq<Page>, z: Compress, k: nat)
    requires 1 <= k <= Count(pages) && Xref(pages, z) < Pow10(10)
    ensures StandsAt(File(pages, z), EntryPlace(pages, Xref(pages, z), k), Entry(Offset(pages, z, k)))
  {
    hide *;
    TableSize(pages, z, k - 1);
    var more := TablePrefix(pages, z, k, Count(pages));
    TableStep(pages, z, k);
    BeforeTable(pages, z);
    var front := Header() + Objects(pages, z, Count(pages)) + TableHead(pages) + FreeEntry();
    var before, entry, trailer := Table(pages, z, k - 1), Entry(Offset(pages, z, k)), Trailer(pages, Xref(pages, z));
    Regroup(front, before, entry, more, trailer);
    Middle(front + before, entry, more + trailer);
    PlaceOf(pages, z, k, front, before);
  }

  lemma PlaceOf(pages: seq<Page>, z: Compress, k: nat, front: string, before: string)
    requires 1 <= k && |front| == Xref(pages, z) + |TableHead(pages)| + 20 && |before| == 20 * (k - 1)
    ensures |front + before| == EntryPlace(pages, Xref(pages, z), k)
  {
    hide Xref, TableHead;
  }

  /** The offset a reader takes from the entry at a place; nothing if the file ends before. */
  function ReadEntry(file: string, place: nat): int {
    if place + 20 <= |file| then Val(file[place..place + 10]) else -1
  }

  lemma ReadsOffset(file: string, place: nat, offset: nat)
    requires offset < Pow10(10) && StandsAt(file, place, Entry(offset))
    ensures ReadEntry(file, place) == offset
  {
    EntrySize(offset);
    hide Entry, Pow10, Val;
    assert file[place..place + 20][..10] == file[place..place + 10];
  }

  /** A reader that takes object k's 20-byte entry from the table and goes to the offset it spells
      arrives where object k begins. */
  lemma TableFindsObjects(pages: seq<Page>, z: Compress, k: nat)
    requires 1 <= k <= Count(pages) && Xref(pages, z) < Pow10(10)
    ensures var file := File(pages, z);
            StandsAt(file, ReadEntry(file, EntryPlace(pages, Xref(pages, z), k)), ObjectText(k, Body(pages, z, k)))
  {
    hide *;
    EntryAt(pages, z, k);
    ObjectAt(pages, z, k);
    OffsetsGrow(pages, z, k);
    ReadsOffset(File(pages, z), EntryPlace(pages, Xref(pages, z), k), Offset(pages, z, k));
  }

  /** The end of every file: where the table is. */
  function Ending(xref: nat): string { "startxref\n" + Digits(xref) + "\n%%EOF\n" }

  /** The number after startxref, which ends the file, is where the table begins. */
  lemma StartsAtTable(pages: seq<Page>, z: Compress)
    ensures StandsAt(File(pages, z), Xref(pages, z), TableHead(pages))
    ensures Val(Digits(Xref(pages, z))) == Xref(pages, z)
    ensures |Ending(Xref(pages, z))| <= |File(pages, z)|
    ensures StandsAt(File(pages, z), |File(pages, z)| - |Ending(Xref(pages, z))|, Ending(Xref(pages, z)))
  {
    hide *;
    var objects, xref := Header() + Objects(pages, z, Count(pages)), Xref(pages, z);
    DigitsVal(xref);
    FileSplits(pages, z);
    RestSplits(pages, z);
    XrefIs(pages, z);
    var table := FreeEntry() + Table(pages, z, Count(pages));
    var size := Sized(pages);
    var tail := table + (size + Ending(xref));
    Regroup3(objects, TableHead(pages), tail);
    Middle(objects, TableHead(pages), tail);
    Ends(objects, TableHead(pages), table, size, Ending(xref));
  }

  function Sized(pages: seq<Page>): string {
    "trailer\n<< /Size " + Digits(Count(pages) + 1) + " /Root 1 0 R >>\n"
  }

  lemma TrailerSplits(pages: seq<Page>, xref: nat)
    ensures Trailer(pages, xref) == Sized(pages) + Ending(xref)
  {
    hide Digits;
    var a, b, c := Digits(Count(pages) + 1), Digits(xref), " /Root 1 0 R >>\n";
    assert " /Root 1 0 R >>\nstartxref\n" == c + "startxref\n";
  }

  lemma RestSplits(pages: seq<Page>, z: Compress)
    ensures Rest(pages, z) == TableHead(pages)
            + ((FreeEntry() + Table(pages, z, Count(pages))) + (Sized(pages) + Ending(Xref(pages, z))))
  {
    hide TableHead, FreeEntry, Table, Sized, Ending, Xref, Trailer;
    TrailerSplits(pages, Xref(pages, z));
  }

  lemma XrefIs(pages: seq<Page>, z: Compress)
    ensures |Header() + Objects(pages, z, Count(pages))| == Xref(pages, z)
  {
    hide Header, Objects;
  }

  lemma Regroup3(a: string, b: string, c: string)
    ensures a + (b + c) == a + b + c
  {
  }

  lemma Ends(a: string, b: string, c: string, d: string, e: string)
    ensures var file := a + b + (c + (d + e));
            |e| <= |file| && StandsAt(file, |file| - |e|, e)
  {
    assert a + b + (c + (d + e)) == (a + b + c + d) + e + "";
    Middle(a + b + c + d, e, "");
  }
}
