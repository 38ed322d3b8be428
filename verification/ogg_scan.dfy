// Finding the duration of an Opus file: a scan over Ogg pages (section 6 of RFC 3533)
// for the largest granule position, read at 48 kHz (section 4 of RFC 7845).

module OggScan {
  type Byte = x: int | 0 <= x < 256

  const CAPTURE_PATTERN: seq<Byte> := [0x4F, 0x67, 0x67, 0x53]
  const HEADER_SIZE := 27
  const OPUS_RATE := 48000.0

  function Little(bytes: seq<Byte>): nat {
    if bytes == [] then 0 else bytes[0] + 256 * Little(bytes[1..])
  }

  // Eight bytes read as an unsigned number and converted to a signed one.
  function Signed64(bytes: seq<Byte>): int {
    var value := Little(bytes);
    if value >= 0x8000_0000_0000_0000 then value - 0x1_0000_0000_0000_0000 else value
  }

  function Sum(bytes: seq<Byte>): nat {
    if bytes == [] then 0 else Sum(bytes[..|bytes| - 1]) + bytes[|bytes| - 1]
  }

  function Max(a: int, b: int): int {
    if b > a then b else a
  }

  // What is left of the scan from a position, given the largest granule position so far.
  function Scan(data: seq<Byte>, pos: nat, best: int): int
    decreases |data| - pos
  {
    if pos + HEADER_SIZE > |data| then best
    else if data[pos..pos + 4] != CAPTURE_PATTERN then Scan(data, pos + 1, best)
    else
      var best' := Max(best, Signed64(data[pos + 6..pos + 14]));
      var table := pos + HEADER_SIZE;
      var end := table + data[pos + 26];
      if end > |data| then best' else Scan(data, end + Sum(data[table..end]), best')
  }

  datatype Page = Page(flags: seq<Byte>, granule: seq<Byte>, identity: seq<Byte>, segments: seq<Byte>, payload: seq<Byte>)

  predicate WellFormed(page: Page) {
    && |page.flags| == 2 && |page.granule| == 8 && |page.identity| == 12
    && |page.segments| < 256 && |page.payload| == Sum(page.segments)
  }

  function Bytes(page: Page): seq<Byte>
    requires WellFormed(page)
  {
    CAPTURE_PATTERN + page.flags + page.granule + page.identity + [|page.segments|] + page.segments + page.payload
  }

  predicate AllWellFormed(pages: seq<Page>) {
    forall p :: p in pages ==> WellFormed(p)
  }

  function AllBytes(pages: seq<Page>): seq<Byte>
    requires AllWellFormed(pages)
  {
    if pages == [] then [] else Bytes(pages[0]) + AllBytes(pages[1..])
  }

  predicate CapturedAt(data: seq<Byte>, pos: nat) {
    pos + 4 <= |data| && data[pos..pos + 4] == CAPTURE_PATTERN
  }

  // No capture pattern starts in the given stretch.
  predicate Uncaptured(data: seq<Byte>, from: nat, to: nat) {
    forall i: nat :: from <= i < to ==> !CapturedAt(data, i)
  }

  predicate Holds(data: seq<Byte>, pos: nat, part: seq<Byte>) {
    pos + |part| <= |data| && data[pos..pos + |part|] == part
  }

  // The eight bytes of a granule position are a little-endian number in two's complement.
  lemma Signed64Means(b: seq<Byte>)
    requires |b| == 8
    ensures var v: seq<int> := b;
            Signed64(b) == v[0] + 0x100 * v[1] + 0x1_0000 * v[2] + 0x100_0000 * v[3] + 0x1_0000_0000 * v[4] + 0x100_0000_0000 * v[5]
                           + 0x1_0000_0000_0000 * v[6] + 0x100_0000_0000_0000 * (if v[7] >= 128 then v[7] - 256 else v[7])
  {
    LittleUnfolds(b);
    LittleUnfolds(b[1..]);
    LittleUnfolds(b[2..]);
    LittleUnfolds(b[3..]);
    LittleUnfolds(b[4..]);
    LittleUnfolds(b[5..]);
    LittleUnfolds(b[6..]);
    LittleUnfolds(b[7..]);
  }

  lemma LittleUnfolds(b: seq<Byte>)
    requires b != []
    ensures Little(b) == b[0] + 256 * Little(b[1..])
    ensures |b| > 1 ==> b[1..][1..] == b[2..]
  {}

  // A page starts with the letters OggS.
  lemma CaptureMeans(data: seq<Byte>, pos: nat)
    ensures CapturedAt(data, pos) <==>
              && pos + 4 <= |data| && data[pos] == 'O' as int && data[pos + 1] == 'g' as int
              && data[pos + 2] == 'g' as int && data[pos + 3] == 'S' as int
  {
    if pos + 4 <= |data| {
      var at := data[pos..pos + 4];
      assert at[0] == data[pos] && at[1] == data[pos + 1] && at[2] == data[pos + 2] && at[3] == data[pos + 3];
    }
  }

  lemma HoldsParts(data: seq<Byte>, pos: nat, a: seq<Byte>, b: seq<Byte>)
    requires Holds(data, pos, a + b)
    ensures Holds(data, pos, a) && Holds(data, pos + |a|, b)
  {
    assert data[pos..pos + |a|] == data[pos..pos + |a + b|][..|a|] == (a + b)[..|a|] == a;
    assert data[pos + |a|..pos + |a + b|] == data[pos..pos + |a + b|][|a|..] == (a + b)[|a|..] == b;
  }

  lemma HoldsSlice(data: seq<Byte>, pos: nat, part: seq<Byte>, i: nat, j: nat)
    requires Holds(data, pos, part) && i <= j <= |part|
    ensures data[pos + i..pos + j] == part[i..j]
  {
    forall k | i <= k < j ensures data[pos + k] == part[k] {
      assert data[pos..pos + |part|][k] == data[pos + k];
    }
  }

  lemma {:induction false} UncapturedIsSkipped(data: seq<Byte>, pos: nat, stop: nat, best: int)
    requires pos <= stop <= |data|
    requires Uncaptured(data, pos, stop)
    ensures Scan(data, pos, best) == Scan(data, stop, best)
    decreases stop - pos
  {
    if pos < stop && pos + HEADER_SIZE <= |data| {
      assert !CapturedAt(data, pos);
      UncapturedIsSkipped(data, pos + 1, stop, best);
    }
  }

  lemma PageFields(page: Page)
    requires WellFormed(page)
    ensures var b := Bytes(page);
            && |b| == HEADER_SIZE + |page.segments| + Sum(page.segments)
            && b[0..4] == CAPTURE_PATTERN && b[6..14] == page.granule && b[26] == |page.segments|
            && b[HEADER_SIZE..HEADER_SIZE + |page.segments|] == page.segments
  {}

  lemma PageIsRead(data: seq<Byte>, pos: nat, page: Page, best: int)
    requires WellFormed(page) && Holds(data, pos, Bytes(page))
    ensures Scan(data, pos, best) == Scan(data, pos + |Bytes(page)|, Max(best, Signed64(page.granule)))
  {
    var b := Bytes(page);
    PageFields(page);
    var n := |page.segments|;
    HoldsSlice(data, pos, b, 0, 4);
    HoldsSlice(data, pos, b, 6, 14);
    HoldsSlice(data, pos, b, 26, 27);
    assert data[pos + 26] == data[pos + 26..pos + 27][0] == b[26..27][0];
    HoldsSlice(data, pos, b, HEADER_SIZE, HEADER_SIZE + n);
  }

  function MaxGranule(pages: seq<Page>, best: int): int {
    if pages == [] then best else MaxGranule(pages[1..], Max(best, Signed64(pages[0].granule)))
  }

  lemma {:induction false} MaxGranuleIsMaximum(pages: seq<Page>, best: int)
    ensures var m := MaxGranule(pages, best);
            && m >= best && (forall p :: p in pages ==> Signed64(p.granule) <= m)
            && (m == best || exists p :: p in pages && Signed64(p.granule) == m)
  {
    if pages != [] {
      MaxGranuleIsMaximum(pages[1..], Max(best, Signed64(pages[0].granule)));
      assert pages[0] in pages && forall p :: p in pages ==> p == pages[0] || p in pages[1..];
      assert forall p :: p in pages[1..] ==> p in pages;
    }
  }

  lemma {:induction false} PagesAreRead(data: seq<Byte>, pos: nat, pages: seq<Page>, best: int)
    requires AllWellFormed(pages) && Holds(data, pos, AllBytes(pages))
    ensures Scan(data, pos, best) == Scan(data, pos + |AllBytes(pages)|, MaxGranule(pages, best))
    decreases |pages|
  {
    hide Scan, Bytes, Signed64, Holds;
    if pages != [] {
      var first, rest := Bytes(pages[0]), AllBytes(pages[1..]);
      HoldsParts(data, pos, first, rest);
      PageIsRead(data, pos, pages[0], best);
      PagesAreRead(data, pos + |first|, pages[1..], Max(best, Signed64(pages[0].granule)));
    }
  }

  // One round of the scan.
  lemma ScanUnfolds(data: seq<Byte>, pos: nat, best: int)
    ensures pos + HEADER_SIZE > |data| ==> Scan(data, pos, best) == best
    ensures pos + HEADER_SIZE <= |data| && data[pos..pos + 4] != CAPTURE_PATTERN ==> Scan(data, pos, best) == Scan(data, pos + 1, best)
    ensures pos + HEADER_SIZE <= |data| && data[pos..pos + 4] == CAPTURE_PATTERN ==>
              var best', end := Max(best, Signed64(data[pos + 6..pos + 14])), pos + HEADER_SIZE + data[pos + 26];
              Scan(data, pos, best) == if end > |data| then best' else Scan(data, end + Sum(data[pos + HEADER_SIZE..end]), best')
  {}

  // Whole pages between two stretches in which no capture pattern starts: the scan finds the largest
  // granule position that is not negative, and zero if there is none.
  lemma ScanFindsLargest(prefix: seq<Byte>, pages: seq<Page>, suffix: seq<Byte>)
    requires AllWellFormed(pages)
    requires var data := prefix + AllBytes(pages) + suffix;
             Uncaptured(data, 0, |prefix|) && Uncaptured(data, |prefix + AllBytes(pages)|, |data|)
    ensures var found := Scan(prefix + AllBytes(pages) + suffix, 0, 0);
            && found >= 0 && (forall p :: p in pages ==> Signed64(p.granule) <= found)
            && (found == 0 || exists p :: p in pages && Signed64(p.granule) == found)
  {
    hide Scan, CapturedAt, AllBytes, MaxGranule, Signed64;
    var data := prefix + AllBytes(pages) + suffix;
    var end := |prefix + AllBytes(pages)|;
    assert Holds(data, |prefix|, AllBytes(pages)) by {
      assert data[|prefix|..end] == AllBytes(pages);
    }
    UncapturedIsSkipped(data, 0, |prefix|, 0);
    PagesAreRead(data, |prefix|, pages, 0);
    UncapturedIsSkipped(data, end, |data|, MaxGranule(pages, 0));
    ScanUnfolds(data, |data|, MaxGranule(pages, 0));
    MaxGranuleIsMaximum(pages, 0);
  }

  class ByteReader {
    const data: seq<Byte>
    var pos: nat

    constructor (data: seq<Byte>)
      ensures this.data == data && pos == 0
    {
      this.data := data;
      pos := 0;
    }

    // One read into a buffer of n bytes; nothing at all is the end of the input.
    method Read(n: nat) returns (buf: seq<Byte>)
      modifies this
      ensures buf == if old(pos) >= |data| then [] else data[old(pos)..if old(pos) + n < |data| then old(pos) + n else |data|]
      ensures pos == old(pos) + |buf|
    {
      if pos >= |data| { return []; }
      var end := if pos + n < |data| then pos + n else |data|;
      buf := data[pos..end];
      pos := end;
    }

    method SeekFromCurrent(offset: int) returns (ok: bool)
      modifies this
      ensures ok == (old(pos) + offset >= 0)
      ensures pos == if ok then old(pos) + offset else old(pos)
    {
      if pos + offset < 0 { return false; }
      pos := pos + offset;
      ok := true;
    }
  }

  method TotalOf(segmentTable: seq<Byte>) returns (pageSize: nat)
    ensures pageSize == Sum(segmentTable)
  {
    pageSize := 0;
    for i := 0 to |segmentTable|
      invariant pageSize == Sum(segmentTable[..i])
    {
      assert segmentTable[..i + 1][..i] == segmentTable[..i];
      pageSize := pageSize + segmentTable[i];
    }
    assert segmentTable[..|segmentTable|] == segmentTable;
  }

  method GetOpusDuration(r: ByteReader) returns (duration: real)
    modifies r
    ensures duration == Scan(r.data, 0, 0) as real / 48000.0
  {
    hide Signed64, Little, Scan, Sum;
    r.pos := 0;
    var totalGranulePos := 0;
    while true
      invariant Scan(r.data, 0, 0) == Scan(r.data, r.pos, totalGranulePos)
      decreases |r.data| - r.pos
    {
      ghost var start := r.pos;
      ScanUnfolds(r.data, start, totalGranulePos);
      var buf := r.Read(HEADER_SIZE);
      if |buf| < HEADER_SIZE {
        break;
      }
      HoldsSlice(r.data, start, buf, 0, 4);
      HoldsSlice(r.data, start, buf, 6, 14);
      if buf[0..4] != CAPTURE_PATTERN {
        var ok := r.SeekFromCurrent(-26);
        continue;
      }
      var granulePos := Signed64(buf[6..14]);
      if granulePos > totalGranulePos {
        totalGranulePos := granulePos;
      }
      var numSegments := buf[26];
      var segmentTable := r.Read(numSegments);
      if |segmentTable| < numSegments {
        break;
      }
      assert segmentTable == r.data[start + HEADER_SIZE..start + HEADER_SIZE + numSegments];
      var pageSize := TotalOf(segmentTable);
      var ok := r.SeekFromCurrent(pageSize);
    }
    duration := totalGranulePos as real / OPUS_RATE;
  }
}
