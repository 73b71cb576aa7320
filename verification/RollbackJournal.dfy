/** The rollback-journal parser of the native SQLite inspection (`_journal_prefix` in
    _native_sqlite_inspection.py), against an encoder written from section 3, "The Rollback Journal",
    of the SQLite Database File Format document. */
module RollbackJournal {
  import opened Prelude
  import opened SectorChain

  const WORD: int := 0x1_0000_0000
  const MAGIC: Bytes := [0xd9, 0xd5, 0x05, 0xf9, 0x20, 0xa1, 0x63, 0xd7]

  lemma SliceOfSlice(b: Bytes, i: nat, j: nat, k: nat, l: nat)
    requires i <= j <= |b| && k <= l <= j - i
    ensures b[i..j][k..l] == b[i + k..i + l]
  {
    var x, y := b[i..j][k..l], b[i + k..i + l];
    forall t | 0 <= t < |x| ensures x[t] == y[t] {}
  }

  predicate IsBytes(b: Bytes) {
    forall i :: 0 <= i < |b| ==> 0 <= b[i] < 0x100
  }

  /** Four stored bytes. */
  datatype Quad = Quad(b0: int, b1: int, b2: int, b3: int) {
    function Stored(): Bytes { [b0, b1, b2, b3] }

    predicate Ok() {
      0 <= b0 < 0x100 && 0 <= b1 < 0x100 && 0 <= b2 < 0x100 && 0 <= b3 < 0x100
    }
  }

  function QuadAt(b: Bytes, at: nat): Quad
    requires at + 4 <= |b|
  {
    Quad(b[at], b[at + 1], b[at + 2], b[at + 3])
  }

  /** Where the parts of a segment lie. */
  lemma SegmentParts(rest: Bytes, header: Bytes, filler: Bytes, pages: Bytes, after: Bytes)
    requires rest == header + filler + pages + after
    ensures
      var i, j := |header| + |filler|, |header| + |filler| + |pages|;
      && rest[..|header|] == header && rest[|header|..i] == filler && rest[i..j] == pages
      && rest[..j] == header + filler + pages && rest == header + (filler + pages + after)
  {
  }

  /** Where the parts of a pointer record lie. */
  lemma RecordParts(raw: Bytes, body: Bytes, lock: Bytes, name: Bytes, length: Bytes, sum: Bytes)
    requires |lock| == |length| == |sum| == 4
    requires raw == body + (lock + name + length + sum + MAGIC)
    ensures
      var i := |body|;
      var j := |body| + 4 + |name|;
      && |raw| == j + 16
      && raw[..i] == body && raw[i..i + 4] == lock && raw[i + 4..j] == name
      && raw[j..j + 4] == length && raw[j + 4..j + 8] == sum && raw[j + 8..] == MAGIC
  {
  }

  lemma RecordFromParts(raw: Bytes, name: Bytes)
    requires |raw| >= |name| + 20
    requires raw[|raw| - 8..] == MAGIC && raw[|raw| - 16 - |name|..|raw| - 16] == name
    ensures
      var n := |raw|;
      raw == raw[..n - 20 - |name|]
             + (raw[n - 20 - |name|..n - 16 - |name|] + name + raw[n - 16..n - 12] + raw[n - 12..n - 8] + MAGIC)
  {
  }

  // ---------------------------------------------------------------- what a segment is

  datatype Page = Page(number: nat, data: Bytes)

  /** One journal header with its pages. `filler` is the unread rest of the header sector. */
  datatype Segment = Segment(nonce: nat, initialPages: nat, sector: nat, pageSize: nat, filler: Bytes, pages: seq<Page>)

  /** The byte length of `count` pages. */
  function Span(count: nat, pageSize: nat): nat {
    if count == 0 then 0 else pageSize + 8 + Span(count - 1, pageSize)
  }

  lemma {:induction false} SpanMultiplies(count: nat, pageSize: nat)
    ensures Span(count, pageSize) == count * (pageSize + 8)
  {
    if count > 0 {
      SpanMultiplies(count - 1, pageSize);
      assert count * (pageSize + 8) == (count - 1) * (pageSize + 8) + (pageSize + 8);
    }
  }

  predicate ValidName(name: Bytes) {
    0 < |name| <= 4096 && 0 !in name
  }

  predicate EndsWithMagic(raw: Bytes) {
    |raw| >= 8 && raw[|raw| - 8..] == MAGIC
  }

  type Utf8 = Bytes -> bool

  // ---------------------------------------------------------------- the layout, given its arithmetic

  /** The journal layout over some storage of 32-bit words, some checksums and some admissible sizes. */
  datatype Format = Format(
    put: nat -> Quad,
    get: Quad -> int,
    sizeOk: int -> bool,
    lockPage: nat -> nat,
    pageSum: (nat, Bytes) -> nat,
    nameSum: Bytes -> nat)
  {
    predicate RoundTrips(n: nat) {
      n < WORD ==> put(n).Ok() && get(put(n)) == n
    }

    predicate Rewrites(q: Quad) {
      q.Ok() ==> 0 <= get(q) < WORD && put(get(q)) == q
    }

    predicate PageSumFits(nonce: nat, data: Bytes) {
      pageSum(nonce, data) < WORD
    }

    predicate NameSumFits(name: Bytes) {
      nameSum(name) < WORD
    }

    predicate LockPageFits(n: nat) {
      n > 0 ==> lockPage(n) < WORD
    }

    /** Words below 2^32 and quadruples of bytes are in one-to-one correspondence, and whatever is stored
        as a word fits one. */
    ghost predicate Lawful() {
      && (forall n :: RoundTrips(n)) && (forall q :: Rewrites(q))
      && (forall n :: LockPageFits(n))
      && (forall nonce, data :: PageSumFits(nonce, data)) && (forall name :: NameSumFits(name))
    }

    predicate PageNumberOk(number: int, pageSize: nat) {
      0 < number < WORD && number != lockPage(pageSize)
    }

    predicate PageValid(page: Page, pageSize: nat) {
      |page.data| == pageSize && PageNumberOk(page.number, pageSize)
    }

    predicate PagesValid(pages: seq<Page>, pageSize: nat) {
      forall k :: 0 <= k < |pages| ==> PageValid(pages[k], pageSize)
    }

    predicate SectorOk(n: int) {
      512 <= n <= 65536 && sizeOk(n)
    }

    predicate ValidSegment(s: Segment) {
      && SectorOk(s.sector) && SectorOk(s.pageSize)
      && s.nonce < WORD && s.initialPages < WORD
      && |s.filler| == s.sector - 28
      && 0 < |s.pages| < 0xFFFF_FFFF
      && PagesValid(s.pages, s.pageSize)
    }

    function Word(b: Bytes, at: nat): int
      requires at + 4 <= |b|
    {
      get(QuadAt(b, at))
    }

    function EncodePage(p: Page, nonce: nat): (b: Bytes)
      ensures |b| == |p.data| + 8
    {
      put(p.number).Stored() + p.data + put(pageSum(nonce, p.data)).Stored()
    }

    function EncodePages(pages: seq<Page>, nonce: nat): Bytes {
      if pages == [] then [] else EncodePage(pages[0], nonce) + EncodePages(pages[1..], nonce)
    }

    function Header(s: Segment): (b: Bytes)
      ensures |b| == 28
    {
      MAGIC + put(|s.pages|).Stored() + put(s.nonce).Stored() + put(s.initialPages).Stored()
      + put(s.sector).Stored() + put(s.pageSize).Stored()
    }

    function EncodeSegment(s: Segment): Bytes {
      Header(s) + s.filler + EncodePages(s.pages, s.nonce)
    }

    /** The record that may close a journal: the lock page number, then the name, its length and its sum. */
    function Trailer(name: Bytes, lock: nat): (b: Bytes)
      ensures |b| == |name| + 20
    {
      put(lock).Stored() + name + put(|name|).Stored() + put(nameSum(name)).Stored() + MAGIC
    }

    // -------------------------------------------------------------- what the parser checks of a segment

    predicate HeaderOk(rest: Bytes) {
      && |rest| >= 28 && rest[..8] == MAGIC
      && QuadAt(rest, 8).Ok() && QuadAt(rest, 12).Ok() && QuadAt(rest, 16).Ok() && QuadAt(rest, 20).Ok()
      && QuadAt(rest, 24).Ok()
      && 0 < Word(rest, 8) < 0xFFFF_FFFF
      && 0 <= Word(rest, 12) < WORD && 0 <= Word(rest, 16) < WORD
      && SectorOk(Word(rest, 20)) && SectorOk(Word(rest, 24))
    }

    predicate PageOk(bytes: Bytes, nonce: nat, pageSize: nat)
      requires pageSize > 0 && |bytes| >= pageSize + 8
    {
      && QuadAt(bytes, 0).Ok() && QuadAt(bytes, pageSize + 4).Ok()
      && PageNumberOk(Word(bytes, 0), pageSize)
      && Word(bytes, pageSize + 4) == pageSum(nonce, bytes[4..pageSize + 4])
    }

    predicate PagesOk(bytes: Bytes, count: nat, nonce: nat, pageSize: nat)
      requires pageSize > 0 && |bytes| == Span(count, pageSize)
      decreases count
    {
      count > 0 ==> PageOk(bytes, nonce, pageSize) && PagesOk(bytes[pageSize + 8..], count - 1, nonce, pageSize)
    }

    function EndOf(rest: Bytes): nat
      requires HeaderOk(rest)
    {
      Word(rest, 20) + Span(Word(rest, 8), Word(rest, 24))
    }

    predicate SegmentOk(rest: Bytes) {
      && HeaderOk(rest)
      && EndOf(rest) <= |rest|
      && PagesOk(rest[Word(rest, 20)..EndOf(rest)], Word(rest, 8), Word(rest, 12), Word(rest, 24))
    }

    function DecodePages(bytes: Bytes, count: nat, nonce: nat, pageSize: nat): (pages: seq<Page>)
      requires pageSize > 0 && |bytes| == Span(count, pageSize) && PagesOk(bytes, count, nonce, pageSize)
      ensures |pages| == count
      decreases count
    {
      if count == 0 then []
      else
        var page := Page(Word(bytes, 0), bytes[4..pageSize + 4]);
        [page] + DecodePages(bytes[pageSize + 8..], count - 1, nonce, pageSize)
    }

    function DecodeSegment(rest: Bytes): Segment
      requires SegmentOk(rest)
    {
      Segment(Word(rest, 12), Word(rest, 16), Word(rest, 20), Word(rest, 24), rest[28..Word(rest, 20)],
                 DecodePages(rest[Word(rest, 20)..EndOf(rest)], Word(rest, 8), Word(rest, 12), Word(rest, 24)))
    }

    function ParseSegment(rest: Bytes): Option<Segment> {
      if SegmentOk(rest) then Some(DecodeSegment(rest)) else None
    }

    // -------------------------------------------------------------- checked segments are encodings

    lemma WordRewrites(b: Bytes, at: nat)
      requires Lawful() && at + 4 <= |b| && QuadAt(b, at).Ok()
      ensures 0 <= Word(b, at) < WORD && put(Word(b, at)).Stored() == b[at..at + 4]
    {
      assert Rewrites(QuadAt(b, at));
    }

    lemma WordReads(b: Bytes, at: nat, n: nat)
      requires Lawful() && n < WORD && at + 4 <= |b| && b[at..at + 4] == put(n).Stored()
      ensures QuadAt(b, at).Ok() && Word(b, at) == n
    {
      assert RoundTrips(n);
      var q := put(n);
      assert b[at] == b[at..at + 4][0] && b[at + 1] == b[at..at + 4][1];
      assert b[at + 2] == b[at..at + 4][2] && b[at + 3] == b[at..at + 4][3];
      assert QuadAt(b, at) == q;
    }

    lemma PageDecodes(bytes: Bytes, nonce: nat, pageSize: nat)
      requires Lawful() && pageSize > 0 && |bytes| >= pageSize + 8 && PageOk(bytes, nonce, pageSize)
      ensures PageValid(Page(Word(bytes, 0), bytes[4..pageSize + 4]), pageSize)
      ensures EncodePage(Page(Word(bytes, 0), bytes[4..pageSize + 4]), nonce) + bytes[pageSize + 8..] == bytes
    {
      WordRewrites(bytes, 0);
      WordRewrites(bytes, pageSize + 4);
      assert bytes == bytes[..4] + bytes[4..pageSize + 4] + bytes[pageSize + 4..pageSize + 8] + bytes[pageSize + 8..];
    }

    lemma PagesJoin(page: Page, pages: seq<Page>, nonce: nat, pageSize: nat)
      requires PageValid(page, pageSize) && PagesValid(pages, pageSize)
      ensures PagesValid([page] + pages, pageSize)
      ensures EncodePages([page] + pages, nonce) == EncodePage(page, nonce) + EncodePages(pages, nonce)
    {
      assert ([page] + pages)[1..] == pages;
    }

    lemma {:induction false} PagesDecode(bytes: Bytes, count: nat, nonce: nat, pageSize: nat)
      requires Lawful() && pageSize > 0 && |bytes| == Span(count, pageSize)
      requires PagesOk(bytes, count, nonce, pageSize)
      ensures PagesValid(DecodePages(bytes, count, nonce, pageSize), pageSize)
      ensures EncodePages(DecodePages(bytes, count, nonce, pageSize), nonce) == bytes
      decreases count
    {
      if count > 0 {
        var rest := bytes[pageSize + 8..];
        PagesDecode(rest, count - 1, nonce, pageSize);
        PageDecodes(bytes, nonce, pageSize);
        PagesJoin(Page(Word(bytes, 0), bytes[4..pageSize + 4]), DecodePages(rest, count - 1, nonce, pageSize), nonce,
                  pageSize);
      }
    }

    lemma HeaderDecodes(rest: Bytes, s: Segment)
      requires Lawful() && HeaderOk(rest)
      requires |s.pages| == Word(rest, 8) && s.nonce == Word(rest, 12) && s.initialPages == Word(rest, 16)
      requires s.sector == Word(rest, 20) && s.pageSize == Word(rest, 24)
      ensures Header(s) == rest[..28]
    {
      var b := rest[..28];
      WordRewrites(b, 8);
      WordRewrites(b, 12);
      WordRewrites(b, 16);
      WordRewrites(b, 20);
      WordRewrites(b, 24);
      assert b == b[..8] + b[8..12] + b[12..16] + b[16..20] + b[20..24] + b[24..28];
    }

    lemma SegmentDecodes(rest: Bytes)
      requires Lawful() && SegmentOk(rest)
      ensures ValidSegment(DecodeSegment(rest))
      ensures EncodeSegment(DecodeSegment(rest)) == rest[..EndOf(rest)]
    {
      var s, end := DecodeSegment(rest), EndOf(rest);
      var b := rest[..end];
      assert rest[s.sector..end] == b[s.sector..] && rest[28..s.sector] == b[28..s.sector];
      PagesDecode(b[s.sector..], Word(rest, 8), s.nonce, s.pageSize);
      HeaderDecodes(rest, s);
      Join3(b, 28, s.sector);
      assert b[..28] == rest[..28];
    }

    // -------------------------------------------------------------- encodings pass the checks

    lemma PageEncodes(page: Page, nonce: nat, pageSize: nat, after: Bytes)
      requires Lawful() && pageSize > 0 && PageValid(page, pageSize)
      ensures PageOk(EncodePage(page, nonce) + after, nonce, pageSize)
      ensures
        var bytes := EncodePage(page, nonce) + after;
        Page(Word(bytes, 0), bytes[4..pageSize + 4]) == page
    {
      var bytes := EncodePage(page, nonce) + after;
      assert bytes[4..pageSize + 4] == page.data;
      assert PageSumFits(nonce, page.data);
      WordReads(bytes, 0, page.number);
      WordReads(bytes, pageSize + 4, pageSum(nonce, page.data));
    }

    lemma {:induction false} PagesEncode(pages: seq<Page>, nonce: nat, pageSize: nat)
      requires Lawful() && pageSize > 0 && PagesValid(pages, pageSize)
      ensures |EncodePages(pages, nonce)| == Span(|pages|, pageSize)
      ensures PagesOk(EncodePages(pages, nonce), |pages|, nonce, pageSize)
      ensures DecodePages(EncodePages(pages, nonce), |pages|, nonce, pageSize) == pages
      decreases |pages|
    {
      if pages != [] {
        PagesEncode(pages[1..], nonce, pageSize);
        PageEncodes(pages[0], nonce, pageSize, EncodePages(pages[1..], nonce));
        assert EncodePages(pages, nonce)[pageSize + 8..] == EncodePages(pages[1..], nonce);
      }
    }

    lemma HeaderEncodes(s: Segment, rest: Bytes)
      requires Lawful() && ValidSegment(s) && Header(s) <= rest
      ensures FieldsAre(rest, s)
    {
      assert rest[..8] == MAGIC;
      WordReads(rest, 8, |s.pages|);
      WordReads(rest, 12, s.nonce);
      WordReads(rest, 16, s.initialPages);
      WordReads(rest, 20, s.sector);
      WordReads(rest, 24, s.pageSize);
    }

    /** The fields of `rest` are those of a segment whose pages encode to `pages`. */
    predicate FieldsAre(rest: Bytes, s: Segment) {
      && HeaderOk(rest)
      && Word(rest, 8) == |s.pages| && Word(rest, 12) == s.nonce && Word(rest, 16) == s.initialPages
      && Word(rest, 20) == s.sector && Word(rest, 24) == s.pageSize
    }

    lemma PagesAt(s: Segment, rest: Bytes, pages: Bytes)
      requires ValidSegment(s) && FieldsAre(rest, s)
      requires |pages| == Span(|s.pages|, s.pageSize) && PagesOk(pages, |s.pages|, s.nonce, s.pageSize)
      requires s.sector + |pages| <= |rest| && rest[s.sector..s.sector + |pages|] == pages
               && rest[28..s.sector] == s.filler
      requires DecodePages(pages, |s.pages|, s.nonce, s.pageSize) == s.pages
      ensures ParseSegment(rest) == Some(s)
    {
      assert EndOf(rest) == s.sector + |pages|;
      assert rest[Word(rest, 20)..EndOf(rest)] == pages;
      assert SegmentOk(rest);
    }

    lemma SegmentReads(s: Segment, rest: Bytes, pages: Bytes)
      requires Lawful() && ValidSegment(s) && Header(s) <= rest && pages == EncodePages(s.pages, s.nonce)
      requires s.sector + |pages| <= |rest| && rest[s.sector..s.sector + |pages|] == pages
               && rest[28..s.sector] == s.filler
      ensures ParseSegment(rest) == Some(s)
    {
      HeaderEncodes(s, rest);
      PagesEncode(s.pages, s.nonce, s.pageSize);
      PagesAt(s, rest, pages);
    }

    lemma SegmentEncodes(s: Segment, after: Bytes)
      requires Lawful() && ValidSegment(s)
      ensures ParseSegment(EncodeSegment(s) + after) == Some(s)
    {
      var pages := EncodePages(s.pages, s.nonce);
      var rest := EncodeSegment(s) + after;
      SegmentParts(rest, Header(s), s.filler, pages, after);
      SegmentReads(s, rest, pages);
    }

    /** The distance to the sector boundary after a segment. */
    function SectorStride(offset: nat, s: Segment): nat {
      if s.sector > 0 then AlignUp(offset + |EncodeSegment(s)|, s.sector) - offset else 0
    }

    function Segments(): Codec<Segment> {
      Codec(s => ValidSegment(s), s => EncodeSegment(s), (offset, s) => SectorStride(offset, s),
            rest => ParseSegment(rest))
    }

    lemma SegmentsLawful()
      requires Lawful()
      ensures SectorChain.Lawful(Segments())
    {
      var c := Segments();
      forall b ensures ReadsPrefix(c, b) {
        if SegmentOk(b) { SegmentDecodes(b); }
      }
      forall s, after ensures ReadsBack(c, s, after) { if ValidSegment(s) { SegmentEncodes(s, after); } }
      forall offset, s ensures Advances(c, offset, s) { assert |EncodeSegment(s)| >= 28; }
    }

    // -------------------------------------------------------------- the super-journal pointer record

    /** `raw` is `body` closed by a pointer record naming `name`, with the page size of the first header. */
    predicate Closes(raw: Bytes, body: Bytes, name: Bytes, utf8: Utf8)
      requires |raw| >= 28
    {
      && body != [] && ValidName(name) && utf8(name)
      && Word(raw, 24) > 0
      && raw == body + Trailer(name, lockPage(Word(raw, 24)))
    }

    /** The fields of a pointer record at the end of `raw`. */
    lemma TrailerFields(raw: Bytes, body: Bytes, name: Bytes, lock: nat)
      requires Lawful() && ValidName(name) && lock < WORD && raw == body + Trailer(name, lock)
      ensures
        var n := |raw|;
        && n == |body| + |name| + 20
        && EndsWithMagic(raw)
        && Word(raw, n - 16) == |name|
        && Word(raw, n - 12) == nameSum(name)
        && raw[n - 16 - |name|..n - 16] == name
        && Word(raw, n - 20 - |name|) == lock
        && raw[..n - 20 - |name|] == body
    {
      var n := |raw|;
      assert NameSumFits(name);
      RecordParts(raw, body, put(lock).Stored(), name, put(|name|).Stored(), put(nameSum(name)).Stored());
      WordReads(raw, |body| + 4 + |name|, |name|);
      WordReads(raw, |body| + 8 + |name|, nameSum(name));
      WordReads(raw, |body|, lock);
    }

    /** A pointer record is recognised by its fields. */
    lemma TrailerFromFields(raw: Bytes, name: Bytes, lock: nat)
      requires Lawful() && IsBytes(raw) && |name| + 20 <= |raw| && EndsWithMagic(raw)
      requires
        var n := |raw|;
        && Word(raw, n - 16) == |name|
        && Word(raw, n - 12) == nameSum(name)
        && raw[n - 16 - |name|..n - 16] == name
        && Word(raw, n - 20 - |name|) == lock
      ensures raw == raw[..|raw| - 20 - |name|] + Trailer(name, lock)
    {
      var n := |raw|;
      WordRewrites(raw, n - 16);
      WordRewrites(raw, n - 12);
      WordRewrites(raw, n - 20 - |name|);
      RecordFromParts(raw, name);
    }

    /** A pointer record fixes the length, checksum and lock page stored at the end of `raw`, and with the
        length it fixes the name and what precedes the record. */
    lemma ClosesFields(raw: Bytes, body: Bytes, name: Bytes, utf8: Utf8)
      requires Lawful() && |raw| >= 28 && Closes(raw, body, name, utf8)
      ensures EndsWithMagic(raw) && Word(raw, |raw| - 16) == |name| && |name| + 20 < |raw|
      ensures body == raw[..|raw| - 20 - |name|] && name == raw[|raw| - 16 - |name|..|raw| - 16]
      ensures Word(raw, |raw| - 12) == nameSum(name) && Word(raw, |raw| - 20 - |name|) == lockPage(Word(raw, 24))
    {
      assert LockPageFits(Word(raw, 24));
      TrailerFields(raw, body, name, lockPage(Word(raw, 24)));
    }

    /** The checks on a pointer record of `length` bytes of name. */
    predicate RecordOk(raw: Bytes, length: int, utf8: Utf8)
      requires |raw| >= 28
    {
      && 0 < length <= 4096 && length + 20 < |raw|
      && var name := raw[|raw| - 16 - length..|raw| - 16];
         && 0 !in name && nameSum(name) == Word(raw, |raw| - 12) && utf8(name)
         && Word(raw, 24) > 0 && Word(raw, |raw| - 20 - length) == lockPage(Word(raw, 24))
    }

    lemma RecordCloses(raw: Bytes, length: int, utf8: Utf8)
      requires Lawful() && IsBytes(raw) && |raw| >= 28 && EndsWithMagic(raw)
      requires length == Word(raw, |raw| - 16) && RecordOk(raw, length, utf8)
      ensures Closes(raw, raw[..|raw| - 20 - length], raw[|raw| - 16 - length..|raw| - 16], utf8)
    {
      TrailerFromFields(raw, raw[|raw| - 16 - length..|raw| - 16], lockPage(Word(raw, 24)));
    }

    /** Whatever closes `raw` is fixed by the length stored in it. */
    lemma ClosesOnce(raw: Bytes, body: Bytes, name: Bytes, utf8: Utf8)
      requires Lawful() && |raw| >= 28 && Closes(raw, body, name, utf8)
      ensures Word(raw, |raw| - 16) == |name| && RecordOk(raw, |name|, utf8)
      ensures body == raw[..|raw| - 20 - |name|] && name == raw[|raw| - 16 - |name|..|raw| - 16]
    {
      ClosesFields(raw, body, name, utf8);
    }

    /** What precedes the record and the name in it, if the record is good. */
    function Cut(raw: Bytes, utf8: Utf8): Option<(Bytes, Bytes)>
      requires |raw| >= 28
    {
      var n, length := |raw|, Word(raw, |raw| - 16);
      if RecordOk(raw, length, utf8) then Some((raw[..n - 20 - length], raw[n - 16 - length..n - 16])) else None
    }

    /** The checks, in the order in which they are made. */
    method CutRecord(raw: Bytes, utf8: Utf8) returns (cut: Option<(Bytes, Bytes)>)
      requires Lawful() && IsBytes(raw) && |raw| >= 28
      ensures cut == Cut(raw, utf8)
    {
      var n := |raw|;
      var length, checksum := Word(raw, n - 16), Word(raw, n - 12);
      if !(0 < length <= 4096) || length + 20 >= n { return None; }
      var name := raw[n - 16 - length..n - 16];
      if 0 in name || nameSum(name) != checksum || !utf8(name) { return None; }
      assert Rewrites(QuadAt(raw, 24));
      var pageSize, sentinel := Word(raw, 24), Word(raw, n - 20 - length);
      if pageSize == 0 || sentinel != lockPage(pageSize) { return None; }
      return Some((raw[..n - 20 - length], name));
    }

    lemma CutExact(raw: Bytes, utf8: Utf8, body: Bytes, name: Bytes)
      requires Lawful() && IsBytes(raw) && |raw| >= 28 && EndsWithMagic(raw)
      ensures Closes(raw, body, name, utf8) <==> Cut(raw, utf8) == Some((body, name))
    {
      if Closes(raw, body, name, utf8) { ClosedIsCut(raw, utf8, body, name); }
      if Cut(raw, utf8) == Some((body, name)) { CutIsClosed(raw, utf8); }
    }

    lemma ClosedIsCut(raw: Bytes, utf8: Utf8, body: Bytes, name: Bytes)
      requires Lawful() && |raw| >= 28 && Closes(raw, body, name, utf8)
      ensures Cut(raw, utf8) == Some((body, name))
    {
      ClosesOnce(raw, body, name, utf8);
    }

    lemma CutIsClosed(raw: Bytes, utf8: Utf8)
      requires Lawful() && IsBytes(raw) && |raw| >= 28 && EndsWithMagic(raw) && Cut(raw, utf8).Some?
      ensures Closes(raw, Cut(raw, utf8).value.0, Cut(raw, utf8).value.1, utf8)
    {
      RecordCloses(raw, Word(raw, |raw| - 16), utf8);
    }

    lemma CutDecides(raw: Bytes, utf8: Utf8)
      requires Lawful() && IsBytes(raw) && |raw| >= 28 && EndsWithMagic(raw)
      ensures forall body, name :: Closes(raw, body, name, utf8) <==> Cut(raw, utf8) == Some((body, name))
    {
      forall body, name ensures Closes(raw, body, name, utf8) <==> Cut(raw, utf8) == Some((body, name)) {
        CutExact(raw, utf8, body, name);
      }
    }

    /** Cut a closing pointer record off the journal bytes, or reject a malformed one. */
    method SplitTrailer(raw: Bytes, utf8: Utf8) returns (r: Option<(Bytes, Option<Bytes>)>)
      requires Lawful() && IsBytes(raw) && |raw| >= 28
      ensures !EndsWithMagic(raw) ==> r == Some((raw, None))
      ensures EndsWithMagic(raw) ==> (r.None? || r.value.1.Some?)
      ensures EndsWithMagic(raw) ==> forall body, name :: Closes(raw, body, name, utf8) <==>
              r == Some((body, Some(name)))
    {
      if raw[|raw| - 8..] != MAGIC { return Some((raw, None)); }
      var cut := CutRecord(raw, utf8);
      CutDecides(raw, utf8);
      r := if cut.Some? then Some((cut.value.0, Some(cut.value.1))) else None;
    }

    // -------------------------------------------------------------- the segment loop

    /** The four bytes at `at` are a word in range. */
    predicate WordFits(raw: Bytes, at: nat) {
      at + 4 <= |raw| && QuadAt(raw, at).Ok() && 0 <= Word(raw, at) < WORD
    }

    /** Every word of `raw` is in range. */
    ghost predicate WordsFit(raw: Bytes) {
      forall at: nat :: at + 4 <= |raw| ==> WordFits(raw, at)
    }

    lemma BytesFit(raw: Bytes)
      requires Lawful() && IsBytes(raw)
      ensures WordsFit(raw)
    {
      forall at: nat | at + 4 <= |raw| ensures WordFits(raw, at) { WordRewrites(raw, at); }
    }

    /** One turn of the page loop. */
    lemma PageTurn(raw: Bytes, position: nat, end: nat, count: nat, nonce: nat, page: nat)
      requires WordsFit(raw) && page > 0 && count > 0 && position + Span(count, page) == end <= |raw|
      ensures RemainingOk(raw, position, end, count, nonce, page) <==>
              && PageAtOk(raw, position, nonce, page)
              && RemainingOk(raw, position + page + 8, end, count - 1, nonce, page)
    {
      var rest := raw[position..end];
      assert |rest| >= page + 8;
      SliceOfSlice(raw, position, end, 4, page + 4);
      SliceOfSlice(raw, position, end, page + 8, |rest|);
      assert QuadAt(rest, 0) == QuadAt(raw, position) && QuadAt(rest, page + 4) == QuadAt(raw, position + page + 4);
      assert rest[page + 8..] == raw[position + page + 8..end];
      assert WordFits(raw, position) && WordFits(raw, position + page + 4);
    }

    predicate PageAtOk(raw: Bytes, position: nat, nonce: nat, page: nat)
      requires position + page + 8 <= |raw|
    {
      && Word(raw, position) != 0 && Word(raw, position) != lockPage(page)
      && Word(raw, position + page + 4) == pageSum(nonce, raw[position + 4..position + 4 + page])
    }

    /** The pages from `position` on are fine as far as the loop still has to look. */
    ghost predicate RemainingOk(raw: Bytes, position: nat, end: nat, count: nat, nonce: nat, page: nat)
    {
      page > 0 && position + Span(count, page) == end <= |raw| && PagesOk(raw[position..end], count, nonce, page)
    }

    /** The inner loop over the pages of one segment. */
    method CheckPages(raw: Bytes, start: nat, count: nat, nonce: nat, page: nat) returns (ok: bool)
      requires WordsFit(raw) && page > 0 && start + Span(count, page) <= |raw|
      ensures ok <==> PagesOk(raw[start..start + Span(count, page)], count, nonce, page)
    {
      var position, k := start, 0;
      ghost var end := start + Span(count, page);
      ghost var goal := RemainingOk(raw, start, end, count, nonce, page);
      while k < count
        invariant start <= position && k <= count && position + Span(count - k, page) == end
        invariant goal <==> RemainingOk(raw, position, end, count - k, nonce, page)
      {
        PageTurn(raw, position, end, count - k, nonce, page);
        if !PageAtOk(raw, position, nonce, page) { return false; }
        position, k := position + page + 8, k + 1;
      }
      ok := true;
    }

    /** The header checks at the start of a turn. */
    method ReadHeader(raw: Bytes, offset: nat) returns (ok: bool, count: nat, nonce: nat, sector: nat, page: nat)
      requires Lawful() && IsBytes(raw) && offset < |raw|
      ensures ok <==> HeaderOk(raw[offset..])
      ensures ok ==>
        var rest := raw[offset..];
        count == Word(rest, 8) && nonce == Word(rest, 12) && sector == Word(rest, 20) && page == Word(rest, 24)
    {
      var rest := raw[offset..];
      ok, count, nonce, sector, page := false, 0, 0, 0, 0;
      if |rest| < 28 || rest[..8] != MAGIC { return; }
      WordRewrites(rest, 8);
      WordRewrites(rest, 12);
      WordRewrites(rest, 16);
      if !(0 < Word(rest, 8) < 0xFFFF_FFFF) || !SectorOk(Word(rest, 20)) || !SectorOk(Word(rest, 24)) { return; }
      ok, count, nonce, sector, page := true, Word(rest, 8), Word(rest, 12), Word(rest, 20), Word(rest, 24);
    }

    /** With a good header, the segment at `offset` stands or falls with its pages. */
    lemma SegmentAt(raw: Bytes, offset: nat, end: nat)
      requires offset < |raw| && HeaderOk(raw[offset..]) && end == offset + EndOf(raw[offset..])
      ensures
        var rest := raw[offset..];
        SegmentOk(rest) <==>
        && end <= |raw|
        && PagesOk(raw[offset + Word(rest, 20)..end], Word(rest, 8), Word(rest, 12), Word(rest, 24))
    {
      var rest := raw[offset..];
      if end <= |raw| {
        assert rest == raw[offset..|raw|];
        SliceOfSlice(raw, offset, |raw|, Word(rest, 20), EndOf(rest));
      }
    }

    /** What a good segment at `offset` reads as. */
    lemma SegmentSpans(raw: Bytes, offset: nat)
      requires Lawful() && offset < |raw| && SegmentOk(raw[offset..])
      ensures
        var rest := raw[offset..];
        var s := ParseSegment(rest).value;
        ValidSegment(s) && |EncodeSegment(s)| == EndOf(rest) && s.sector == Word(rest, 20)
    {
      SegmentDecodes(raw[offset..]);
    }

    /** Where the pages at `position` end. */
    method PagesEnd(position: nat, count: nat, page: nat) returns (end: nat)
      ensures end == position + Span(count, page)
    {
      SpanMultiplies(count, page);
      end := position + count * (page + 8);
    }

    /** The pages of a segment with a good header. */
    method CheckBody(raw: Bytes, offset: nat, count: nat, nonce: nat, sector: nat, page: nat)
      returns (ok: bool, end: nat)
      requires WordsFit(raw) && offset < |raw| && HeaderOk(raw[offset..])
      requires
        var rest := raw[offset..];
        count == Word(rest, 8) && nonce == Word(rest, 12) && sector == Word(rest, 20) && page == Word(rest, 24)
      ensures end == offset + EndOf(raw[offset..])
      ensures ok <==> SegmentOk(raw[offset..])
    {
      end := PagesEnd(offset + sector, count, page);
      SegmentAt(raw, offset, end);
      if end > |raw| { return false, end; }
      ok := CheckPages(raw, offset + sector, count, nonce, page);
    }

    /** Header and pages of the segment at `offset`; `end` is where they end in the file. */
    method ReadSegment(raw: Bytes, offset: nat) returns (ok: bool, end: nat, sector: nat)
      requires Lawful() && IsBytes(raw) && offset < |raw|
      ensures ok <==> ParseSegment(raw[offset..]).Some?
      ensures ok ==>
        var s := ParseSegment(raw[offset..]).value;
        ValidSegment(s) && end == offset + |EncodeSegment(s)| <= |raw| && sector == s.sector
    {
      var count, nonce, page;
      end := 0;
      ok, count, nonce, sector, page := ReadHeader(raw, offset);
      if !ok { return; }
      BytesFit(raw);
      ok, end := CheckBody(raw, offset, count, nonce, sector, page);
      if ok { SegmentSpans(raw, offset); }
    }

    lemma SegmentGoesOn(raw: Bytes, offset: nat, s: Segment, end: nat, next: nat)
      requires offset < |raw| && ParseSegment(raw[offset..]) == Some(s) && ValidSegment(s)
      requires end == offset + |EncodeSegment(s)| && next == AlignUp(end, s.sector)
      ensures
        var c := Segments();
        && c.parse(raw[offset..]) == Some(s) && c.valid(s) && Advances(c, offset, s)
        && end == offset + |c.encode(s)| && next == offset + c.stride(offset, s)
    {
      assert |EncodeSegment(s)| >= 28;
    }

    /** One turn of the outer loop: the chain at `offset` stands or falls with the chain at `next`. */
    method CheckSegment(raw: Bytes, offset: nat) returns (ok: bool, next: nat)
      requires Lawful() && IsBytes(raw) && offset < |raw|
      ensures ok ==> next > offset
      ensures !ok ==> Decode(Segments(), offset, raw[offset..]).None?
      ensures ok && next >= |raw| ==> Decode(Segments(), offset, raw[offset..]).Some?
      ensures ok && next < |raw| ==>
                (Decode(Segments(), offset, raw[offset..]).Some? <==> Decode(Segments(), next, raw[next..]).Some?)
    {
      var end, sector;
      ok, end, sector := ReadSegment(raw, offset);
      next := 0;
      if !ok { return; }
      ghost var s := ParseSegment(raw[offset..]).value;
      next := AlignTo(end, sector);
      SegmentGoesOn(raw, offset, s, end, next);
      ok := CheckGap(Segments(), raw, offset, s, end, next);
    }

    /** The outer loop. The branch after it that reports an empty journal is never taken. */
    method CheckSegments(raw: Bytes) returns (ok: bool)
      requires Lawful() && IsBytes(raw) && raw != []
      ensures ok <==> Decode(Segments(), 0, raw).Some?
    {
      var offset := 0;
      assert raw[0..] == raw;
      while offset < |raw|
        invariant offset < |raw|
        invariant Decode(Segments(), 0, raw).Some? <==> Decode(Segments(), offset, raw[offset..]).Some?
        decreases |raw| - offset
      {
        var fine, next := CheckSegment(raw, offset);
        if !fine { return false; }
        if next >= |raw| { return true; }
        offset := next;
      }
    }

    // -------------------------------------------------------------- the parser

    /** `raw` is a journal with rollback content `prefix` and super-journal name `name`. A journal without a
        pointer record must not end in the magic number, which would be taken for one. */
    ghost predicate IsJournal(raw: Bytes, prefix: Bytes, name: Option<Bytes>, utf8: Utf8) {
      exists j: Journal<Segment> :: Reads(j, raw, prefix, name, utf8)
    }

    ghost predicate Reads(j: Journal<Segment>, raw: Bytes, prefix: Bytes, name: Option<Bytes>, utf8: Utf8) {
      && Valid(Segments(), 0, j)
      && prefix == Encode(Segments(), 0, j)
      && match name
         case None => raw == prefix && !EndsWithMagic(raw)
         case Some(n) => ValidName(n) && utf8(n) && raw == prefix + Trailer(n, lockPage(j.segment.pageSize))
    }

    /** A chain of segments opens with the header of its first segment. */
    lemma FirstHeader(j: Journal<Segment>, raw: Bytes)
      requires Lawful() && ValidSegment(j.segment) && Encode(Segments(), 0, j) <= raw
      ensures |raw| >= 28 && raw[..8] == MAGIC && Word(raw, 24) == j.segment.pageSize > 0
    {
      assert Header(j.segment) <= EncodeSegment(j.segment) <= raw;
      HeaderEncodes(j.segment, raw);
    }

    lemma JournalDecodes(j: Journal<Segment>)
      requires Lawful() && Valid(Segments(), 0, j)
      ensures Decode(Segments(), 0, Encode(Segments(), 0, j)).Some?
    {
      SegmentsLawful();
      DecodeComplete(Segments(), 0, j);
    }

    /** A journal, told by its first header, its pointer record if there is one, and its chain of segments. */
    ghost predicate Shaped(raw: Bytes, prefix: Bytes, name: Option<Bytes>, utf8: Utf8) {
      && |raw| >= 28 && raw[..8] == MAGIC
      && (if EndsWithMagic(raw) then name.Some? && Closes(raw, prefix, name.value, utf8)
          else name == None && prefix == raw)
      && Decode(Segments(), 0, prefix).Some?
    }

    lemma JournalShape(raw: Bytes, prefix: Bytes, name: Option<Bytes>, utf8: Utf8)
      requires Lawful() && IsJournal(raw, prefix, name, utf8)
      ensures Shaped(raw, prefix, name, utf8)
    {
      var j :| Reads(j, raw, prefix, name, utf8);
      JournalDecodes(j);
      FirstHeader(j, raw);
      FirstHeader(j, prefix);
      assert LockPageFits(j.segment.pageSize);
      if name.Some? { TrailerFields(raw, prefix, name.value, lockPage(j.segment.pageSize)); }
    }

    lemma ShapeIsJournal(raw: Bytes, prefix: Bytes, name: Option<Bytes>, utf8: Utf8)
      requires Lawful() && Shaped(raw, prefix, name, utf8)
      ensures IsJournal(raw, prefix, name, utf8)
    {
      SegmentsLawful();
      DecodeSound(Segments(), 0, prefix);
      var j := Decode(Segments(), 0, prefix).value;
      assert prefix <= raw;
      FirstHeader(j, raw);
      assert Reads(j, raw, prefix, name, utf8);
    }

    lemma JournalsAreShaped(raw: Bytes, utf8: Utf8)
      requires Lawful()
      ensures forall prefix, name :: IsJournal(raw, prefix, name, utf8) <==> Shaped(raw, prefix, name, utf8)
    {
      forall prefix, name ensures IsJournal(raw, prefix, name, utf8) <==> Shaped(raw, prefix, name, utf8) {
        if IsJournal(raw, prefix, name, utf8) { JournalShape(raw, prefix, name, utf8); }
        if Shaped(raw, prefix, name, utf8) { ShapeIsJournal(raw, prefix, name, utf8); }
      }
    }

    /** The parser is sound and complete: it accepts exactly the journals, and returns the rollback content
        and super-journal name of the one journal the bytes encode. */
    method Prefix(raw: Bytes, utf8: Utf8) returns (r: Option<(Bytes, Option<Bytes>)>)
      requires Lawful() && IsBytes(raw)
      ensures forall prefix, name :: IsJournal(raw, prefix, name, utf8) <==> r == Some((prefix, name))
    {
      JournalsAreShaped(raw, utf8);
      if |raw| < 28 || raw[..8] != MAGIC { return None; }
      var split := SplitTrailer(raw, utf8);
      if split.None? { return None; }
      var body := split.value.0;
      assert IsBytes(body) by { assert body == raw[..|body|]; }
      var ok := CheckSegments(body);
      r := if ok then split else None;
    }

    /** A chain of segments on its own is a journal exactly when its bytes do not end in the magic number. */
    lemma ChainIsJournal(j: Journal<Segment>, utf8: Utf8)
      requires Valid(Segments(), 0, j)
      ensures
        var raw := Encode(Segments(), 0, j);
        IsJournal(raw, raw, None, utf8) <==> !EndsWithMagic(raw)
    {
      var raw := Encode(Segments(), 0, j);
      if !EndsWithMagic(raw) { assert Reads(j, raw, raw, None, utf8); }
    }

    /** So the parser reads a bare chain as itself exactly then; otherwise it takes the end for a pointer record. */
    method PrefixOfChain(ghost j: Journal<Segment>, raw: Bytes, utf8: Utf8) returns (r: Option<(Bytes, Option<Bytes>)>)
      requires Lawful() && IsBytes(raw) && Valid(Segments(), 0, j) && raw == Encode(Segments(), 0, j)
      ensures r == Some((raw, None)) <==> !EndsWithMagic(raw)
      ensures EndsWithMagic(raw) ==> r.None? || r.value.1.Some?
    {
      r := Prefix(raw, utf8);
      ChainIsJournal(j, utf8);
      if r.Some? {
        assert IsJournal(raw, r.value.0, r.value.1, utf8);
        JournalShape(raw, r.value.0, r.value.1, utf8);
      }
    }
  }

  // ---------------------------------------------------------------- the arithmetic of SQLite's format

  /** `n` is reached from `k` by doubling. */
  predicate DoublesTo(k: nat, n: nat)
    requires k > 0
    decreases n - k
  {
    k == n || (k < n && DoublesTo(2 * k, n))
  }

  predicate PowerOfTwo(n: int) {
    n >= 1 && DoublesTo(1, n)
  }

  /** `a & b`. */
  function BitAnd(a: nat, b: nat): nat {
    if a == 0 || b == 0 then 0 else 2 * BitAnd(a / 2, b / 2) + if a % 2 == 1 && b % 2 == 1 then 1 else 0
  }

  lemma {:induction false} BitAndSelf(n: nat)
    ensures BitAnd(n, n) == n
  {
    if n > 0 { BitAndSelf(n / 2); }
  }

  lemma {:induction false} DoublesHalf(k: nat, n: nat)
    requires k > 0
    ensures DoublesTo(2 * k, 2 * n) <==> DoublesTo(k, n)
    decreases n - k
  {
    if k < n { DoublesHalf(2 * k, n); }
  }

  lemma {:induction false} DoublesEven(k: nat, n: nat)
    requires k > 0 && k % 2 == 0 && DoublesTo(k, n)
    ensures n % 2 == 0
    decreases n - k
  {
    if k < n { DoublesEven(2 * k, n); }
  }

  /** The test that the code makes on sector and page sizes: no bit is shared with the number before. */
  lemma {:induction false} PowerOfTwoBits(n: nat)
    requires n >= 1
    ensures BitAnd(n, n - 1) == 0 <==> PowerOfTwo(n)
  {
    var m := n / 2;
    if n == 1 {
    } else if n % 2 == 0 {
      assert n == 2 * m && (n - 1) / 2 == m - 1;
      PowerOfTwoBits(m);
      DoublesHalf(1, m);
    } else {
      assert n == 2 * m + 1 && (n - 1) / 2 == m;
      BitAndSelf(m);
      if DoublesTo(2, n) { DoublesEven(2, n); }
    }
  }

  /** The page that covers byte 2^30, which never holds data. */
  function LockPage(pageSize: nat): nat {
    if pageSize == 0 then 0 else 0x4000_0000 / pageSize + 1
  }

  /** Every 200th byte counted from the end of the page, the first byte excluded. */
  function Samples(data: Bytes, at: int): int
    requires at < |data|
    decreases at
  {
    if at <= 0 then 0 else data[at] + Samples(data, at - 200)
  }

  function PageSum(nonce: nat, data: Bytes): (n: nat)
    ensures n < WORD
  {
    (nonce + Samples(data, |data| - 200)) % WORD
  }

  function SignedSum(name: Bytes): int {
    if name == [] then 0 else (if name[0] < 128 then name[0] else name[0] - 256) + SignedSum(name[1..])
  }

  function NameSum(name: Bytes): (n: nat)
    ensures n < WORD
  {
    SignedSum(name) % WORD
  }

  /** The loop that sums a name, its bytes taken as signed. */
  method SumName(name: Bytes) returns (sum: nat)
    ensures sum == NameSum(name)
  {
    var total := 0;
    for i := 0 to |name|
      invariant total + SignedSum(name[i..]) == SignedSum(name)
    {
      assert name[i..][1..] == name[i + 1..];
      total := total + if name[i] < 128 then name[i] else name[i] - 256;
    }
    sum := total % WORD;
  }

  /** The loop that samples a page from its end. */
  method SumPage(nonce: nat, data: Bytes) returns (sum: nat)
    ensures sum == PageSum(nonce, data)
  {
    var total := 0;
    var index := |data| - 200;
    while index > 0
      invariant index <= |data| - 200
      invariant total + Samples(data, index) == Samples(data, |data| - 200)
    {
      total := total + data[index];
      index := index - 200;
    }
    sum := (nonce + total) % WORD;
  }

  function BigEndian(q: Quad): int {
    q.b0 * 0x100_0000 + q.b1 * 0x1_0000 + q.b2 * 0x100 + q.b3
  }

  function ToBigEndian(n: nat): Quad {
    Quad((n / 0x100_0000 % 0x100), (n / 0x1_0000 % 0x100), (n / 0x100 % 0x100), (n % 0x100))
  }

  const SQLITE := Format(ToBigEndian, BigEndian, PowerOfTwo, LockPage, PageSum, NameSum)

  lemma Recompose(n: nat)
    requires n < WORD
    ensures n / 0x100_0000 % 0x100 * 0x100_0000 + n / 0x1_0000 % 0x100 * 0x1_0000 + n / 0x100 % 0x100 * 0x100
            + n % 0x100 == n
  {
    assert n / 0x100 == n / 0x1_0000 * 0x100 + n / 0x100 % 0x100;
    assert n / 0x1_0000 == n / 0x100_0000 * 0x100 + n / 0x1_0000 % 0x100;
  }

  lemma Decompose(a: int, b: int, c: int, d: int)
    requires 0 <= a < 0x100 && 0 <= b < 0x100 && 0 <= c < 0x100 && 0 <= d < 0x100
    ensures
      var n := a * 0x100_0000 + b * 0x1_0000 + c * 0x100 + d;
      n < WORD && n / 0x100_0000 % 0x100 == a && n / 0x1_0000 % 0x100 == b && n / 0x100 % 0x100 == c && n % 0x100 == d
  {
    var n := a * 0x100_0000 + b * 0x1_0000 + c * 0x100 + d;
    assert n / 0x100 == a * 0x1_0000 + b * 0x100 + c;
    assert n / 0x1_0000 == a * 0x100 + b;
    assert n / 0x100_0000 == a;
  }

  lemma ToBigEndianRoundTrips(n: nat)
    requires n < WORD
    ensures BigEndian(ToBigEndian(n)) == n
  {
    Recompose(n);
  }

  lemma BigEndianRewrites(q: Quad)
    requires q.Ok()
    ensures 0 <= BigEndian(q) < WORD && ToBigEndian(BigEndian(q)) == q
  {
    Decompose(q.b0, q.b1, q.b2, q.b3);
  }

  lemma BigEndianLawful()
    ensures SQLITE.Lawful()
  {
    forall n: nat ensures SQLITE.RoundTrips(n) { if n < WORD { ToBigEndianRoundTrips(n); } }
    forall q: Quad ensures SQLITE.Rewrites(q) { if q.Ok() { BigEndianRewrites(q); } }
    forall n: nat ensures SQLITE.LockPageFits(n) {}
    forall nonce: nat, data ensures SQLITE.PageSumFits(nonce, data) {}
    forall name ensures SQLITE.NameSumFits(name) {}
  }

  /** `_journal_prefix` on the bytes of a journal file. */
  method JournalPrefix(raw: Bytes, utf8: Utf8) returns (r: Option<(Bytes, Option<Bytes>)>)
    requires IsBytes(raw)
    ensures forall prefix, name :: SQLITE.IsJournal(raw, prefix, name, utf8) <==> r == Some((prefix, name))
  {
    BigEndianLawful();
    r := SQLITE.Prefix(raw, utf8);
  }

  // ---------------------------------------------------------------- a chain that ends in the magic number

  /** One page of zeros but for its last four bytes, which with the checksum after them spell the magic number. */
  function UnluckyPage(): Page { Page(1, Zeros(508) + [0xd9, 0xd5, 0x05, 0xf9]) }

  function UnluckySegment(): Segment { Segment(0x20a1_63d7, 0, 512, 512, Zeros(484), [UnluckyPage()]) }

  lemma UnluckySum()
    ensures PageSum(0x20a1_63d7, UnluckyPage().data) == 0x20a1_63d7
  {
    var data := UnluckyPage().data;
    assert |data| == 512 && data[312] == 0 && data[112] == 0;
    assert Samples(data, -88) == 0;
    assert Samples(data, 112) == 0;
    assert Samples(data, 312) == 0;
  }

  lemma Word512()
    ensures SQLITE.SectorOk(512)
  {
    assert DoublesTo(256, 512);
    assert DoublesTo(64, 512);
    assert DoublesTo(16, 512);
    assert DoublesTo(4, 512);
    assert DoublesTo(1, 512);
  }

  lemma UnluckyValid()
    ensures
      var j := Last(UnluckySegment(), 0);
      Valid(SQLITE.Segments(), 0, j) && IsBytes(Encode(SQLITE.Segments(), 0, j))
  {
    Word512();
    assert SQLITE.PageValid(UnluckyPage(), 512);
    UnluckyBytes();
    assert Encode(SQLITE.Segments(), 0, Last(UnluckySegment(), 0)) == SQLITE.EncodeSegment(UnluckySegment()) + [];
  }

  lemma UnluckyBytes()
    ensures IsBytes(SQLITE.EncodeSegment(UnluckySegment()))
  {
    var s := UnluckySegment();
    assert SQLITE.EncodePages(s.pages, s.nonce) == SQLITE.EncodePage(UnluckyPage(), s.nonce) by {
      assert s.pages[1..] == [];
    }
    assert IsBytes(SQLITE.Header(s));
    assert IsBytes(SQLITE.EncodePage(UnluckyPage(), s.nonce)) by { UnluckySum(); }
  }

  /** The journal ends with the one page, and that with the low bytes of the page and its checksum. */
  lemma UnluckyEnds()
    ensures EndsWithMagic(Encode(SQLITE.Segments(), 0, Last(UnluckySegment(), 0)))
  {
    var s, page := UnluckySegment(), UnluckyPage();
    var raw := Encode(SQLITE.Segments(), 0, Last(s, 0));
    var tail := SQLITE.EncodePage(page, s.nonce);
    assert tail[|tail| - 8..] == MAGIC by { UnluckyTail(); }
    assert SQLITE.EncodePages(s.pages, s.nonce) == tail by { assert s.pages[1..] == []; }
    assert raw == SQLITE.EncodeSegment(s) + [];
    assert raw[|raw| - 8..] == tail[|tail| - 8..];
  }

  lemma UnluckyTail()
    ensures
      var tail := SQLITE.EncodePage(UnluckyPage(), UnluckySegment().nonce);
      |tail| == 520 && tail[512..] == MAGIC
  {
    UnluckySum();
    assert ToBigEndian(0x20a1_63d7).Stored() == [0x20, 0xa1, 0x63, 0xd7];
  }

  /** It is a valid chain of bytes, and it is not read as itself: the failure does occur. */
  lemma UnluckyChain(utf8: Utf8)
    ensures
      var j := Last(UnluckySegment(), 0);
      var raw := Encode(SQLITE.Segments(), 0, j);
      && Valid(SQLITE.Segments(), 0, j) && IsBytes(raw) && EndsWithMagic(raw)
      && !SQLITE.IsJournal(raw, raw, None, utf8)
  {
    UnluckyValid();
    UnluckyEnds();
    SQLITE.ChainIsJournal(Last(UnluckySegment(), 0), utf8);
  }
}
