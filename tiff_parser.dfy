/**
 * TiffParser: image dimensions from the first image file directory (IFD) of a
 * TIFF file (TIFF Revision 6.0, section 2: 8-byte header, 12-byte IFD entries,
 * SHORT = 3 and LONG = 4; tags ImageWidth 256, ImageLength 257 and
 * SamplesPerPixel 277 from section 8).
 *
 * The encoded image is an in-memory stream `d`: reading n bytes at position p
 * fails with EndOfStream when p + n > |d| (a seek is only ever followed by a
 * read, so a seek beyond the end fails through that read).
 */
module TiffParser {
  import opened Wrappers
  import opened DaliTypes
  import opened ByteIO

  const ENTRY_SIZE := 12
  const WIDTH_TAG := 256
  const HEIGHT_TAG := 257
  const SAMPLESPERPIXEL_TAG := 277
  const TYPE_WORD := 3
  const TYPE_DWORD := 4

  const LeHeader: seq<byte> := [0x49, 0x49, 42, 0]   // 'I', 'I', 42, 0
  const BeHeader: seq<byte> := [0x4D, 0x4D, 0, 42]   // 'M', 'M', 0, 42

  /** The first four bytes of `d` equal the header `h`, byte by byte. */
  predicate StartsWith(d: seq<byte>, h: seq<byte>)
    requires |d| >= 4 && |h| == 4
  {
    d[0] == h[0] && d[1] == h[1] && d[2] == h[2] && d[3] == h[3]
  }

  /** TiffParser::CanParse: at least four bytes, and they are one of the two byte-order headers. */
  predicate CanParse(d: seq<byte>) {
    |d| >= 4 && (StartsWith(d, LeHeader) || StartsWith(d, BeHeader))
  }

  /** TiffRead<uint16_t>: little-endian iff the header was the little-endian one. */
  function Read16(d: seq<byte>, p: nat, littleEndian: bool): (v: nat)
    requires p + 2 <= |d|
    ensures v < 0x1_0000
  {
    if littleEndian then LE16(d, p) else BE16(d, p)
  }

  /** TiffRead<uint32_t>. */
  function Read32(d: seq<byte>, p: nat, littleEndian: bool): (v: nat)
    requires p + 4 <= |d|
    ensures v < 0x1_0000_0000
  {
    if littleEndian then LE32(d, p) else BE32(d, p)
  }

  function Encode16(v: nat, littleEndian: bool): (r: seq<byte>)
    requires v < 0x1_0000
    ensures |r| == 2 && Read16(r, 0, littleEndian) == v
  {
    if littleEndian then EncodeLE16(v) else EncodeBE16(v)
  }

  function Encode32(v: nat, littleEndian: bool): (r: seq<byte>)
    requires v < 0x1_0000_0000
    ensures |r| == 4 && Read32(r, 0, littleEndian) == v
  {
    if littleEndian then EncodeLE32(v) else EncodeBE32(v)
  }

  /** The three dimensions GetInfo looks for. */
  datatype Tag = Width | Height | Channels

  function TagOf(id: nat): Option<Tag> {
    if id == WIDTH_TAG then Some(Width)
    else if id == HEIGHT_TAG then Some(Height)
    else if id == SAMPLESPERPIXEL_TAG then Some(Channels)
    else None
  }

  /** What one IFD entry contributes: nothing (another tag), or a value for one of the three tags. */
  datatype EntryRead = Ignored | Value(tag: Tag, value: nat)

  /**
   * The entry at offset `off`: tag, then for the three dimension tags the type,
   * the count (which must be 1) and the value (16-bit for SHORT, 32-bit for LONG,
   * any other type fails).
   */
  function ReadEntry(d: seq<byte>, off: nat, littleEndian: bool): Result<EntryRead> {
    if off + 2 > |d| then Fail(EndOfStream)
    else
      var tag := TagOf(Read16(d, off, littleEndian));
      if tag.None? then Ok(Ignored)
      else if off + 8 > |d| then Fail(EndOfStream)
      else
        var valueType := Read16(d, off + 2, littleEndian);
        var valueCount := Read32(d, off + 4, littleEndian);
        if valueCount != 1 then Fail(ParseError)
        else if valueType == TYPE_WORD then
          if off + 10 > |d| then Fail(EndOfStream) else Ok(Value(tag.value, Read16(d, off + 8, littleEndian)))
        else if valueType == TYPE_DWORD then
          if off + 12 > |d| then Fail(EndOfStream) else Ok(Value(tag.value, Read32(d, off + 8, littleEndian)))
        else Fail(ParseError)
  }

  /** The values read so far; `None` means the tag has not been seen. */
  datatype Dims = Dims(width: Option<nat>, height: Option<nat>, nchannels: Option<nat>) {
    predicate AllRead() {
      width.Some? && height.Some? && nchannels.Some?
    }
  }

  const NoneRead := Dims(None, None, None)

  /** A later value for a tag overwrites an earlier one; other tags are ignored. */
  function Record(st: Dims, r: EntryRead): (st': Dims)
    ensures r.Ignored? ==> st' == st
  {
    match r
    case Ignored => st
    case Value(Width, v) => st.(width := Some(v))
    case Value(Height, v) => st.(height := Some(v))
    case Value(Channels, v) => st.(nchannels := Some(v))
  }

  /** The entry scan from entry i on: stops at `count` entries or once all three dimensions are known. */
  function ScanFrom(d: seq<byte>, littleEndian: bool, ifd: nat, count: nat, i: nat, st: Dims): Result<Dims>
    decreases count - i
  {
    if i >= count || st.AllRead() then Ok(st)
    else
      match ReadEntry(d, ifd + 2 + ENTRY_SIZE * i, littleEndian)
      case Fail(e) => Fail(e)
      case Ok(r) => ScanFrom(d, littleEndian, ifd, count, i + 1, Record(st, r))
  }

  /** The shape (height, width, nchannels) once all three are known. */
  function Finish(r: Result<Dims>): (s: Result<Shape>)
    ensures s.Ok? <==> r.Ok? && r.value.AllRead()
    ensures s.Ok? ==> s.value == [r.value.height.value, r.value.width.value, r.value.nchannels.value]
  {
    if r.Fail? then Fail(r.error)
    else if !r.value.AllRead() then Fail(ParseError)
    else Ok([r.value.height.value, r.value.width.value, r.value.nchannels.value])
  }

  /** GetInfo as a function of the encoded bytes. */
  function TiffInfo(d: seq<byte>): Result<Shape> {
    if |d| < 8 then Fail(ParseError)
    else
      var le := StartsWith(d, LeHeader);
      var ifd := Read32(d, 4, le);
      if ifd + 2 > |d| then Fail(EndOfStream)
      else Finish(ScanFrom(d, le, ifd, Read16(d, ifd, le), 0, NoneRead))
  }

  /** TiffParser::GetInfo. */
  method GetInfo(d: seq<byte>) returns (r: Result<Shape>)
    ensures r == TiffInfo(d)
    ensures |d| < 8 ==> r == Fail(ParseError)
    ensures |d| >= 8 && (if StartsWith(d, LeHeader) then LE32(d, 4) else BE32(d, 4)) + 2 > |d| ==> r == Fail(EndOfStream)
  {
    if |d| < 8 {
      return Fail(ParseError);
    }
    var isLittleEndian := StartsWith(d, LeHeader);
    var ifdOffset := Read32(d, 4, isLittleEndian);
    if ifdOffset + 2 > |d| {
      return Fail(EndOfStream);
    }
    var entryCount := Read16(d, ifdOffset, isLittleEndian);
    var widthRead, heightRead, nchannelsRead := false, false, false;
    var width, height, nchannels := 0, 0, 0;
    var entryIdx := 0;
    while entryIdx < entryCount && !(widthRead && heightRead && nchannelsRead)
      invariant 0 <= entryIdx
      invariant ScanFrom(d, isLittleEndian, ifdOffset, entryCount, 0, NoneRead) ==
                ScanFrom(d, isLittleEndian, ifdOffset, entryCount, entryIdx,
                         Dims(if widthRead then Some(width) else None,
                              if heightRead then Some(height) else None,
                              if nchannelsRead then Some(nchannels) else None))
      decreases entryCount - entryIdx
    {
      var entryOffset := ifdOffset + 2 + entryIdx * ENTRY_SIZE;
      if entryOffset + 2 > |d| {
        return Fail(EndOfStream);
      }
      var tagId := Read16(d, entryOffset, isLittleEndian);
      if tagId == WIDTH_TAG || tagId == HEIGHT_TAG || tagId == SAMPLESPERPIXEL_TAG {
        if entryOffset + 8 > |d| {
          return Fail(EndOfStream);
        }
        var valueType := Read16(d, entryOffset + 2, isLittleEndian);
        var valueCount := Read32(d, entryOffset + 4, isLittleEndian);
        if valueCount != 1 {
          return Fail(ParseError);
        }
        var value;
        if valueType == TYPE_WORD {
          if entryOffset + 10 > |d| {
            return Fail(EndOfStream);
          }
          value := Read16(d, entryOffset + 8, isLittleEndian);
        } else if valueType == TYPE_DWORD {
          if entryOffset + 12 > |d| {
            return Fail(EndOfStream);
          }
          value := Read32(d, entryOffset + 8, isLittleEndian);
        } else {
          return Fail(ParseError);
        }
        if tagId == WIDTH_TAG {
          width, widthRead := value, true;
        } else if tagId == HEIGHT_TAG {
          height, heightRead := value, true;
        } else {
          nchannels, nchannelsRead := value, true;
        }
      }
      entryIdx := entryIdx + 1;
    }
    if !(widthRead && heightRead && nchannelsRead) {
      return Fail(ParseError);
    }
    return Ok([height, width, nchannels]);
  }

  // ---- An encoder for IFDs, used to state what the scan computes ----

  /** An IFD entry: tag, field type, count, and the value (SHORT values sit in the first two bytes of the value field). */
  datatype Entry = Entry(tag: nat, fieldType: nat, count: nat, value: nat)

  predicate WellFormed(e: Entry) {
    e.tag < 0x1_0000 && e.fieldType < 0x1_0000 && e.count < 0x1_0000_0000 &&
    (if e.fieldType == TYPE_WORD then e.value < 0x1_0000 else e.value < 0x1_0000_0000)
  }

  predicate AllWellFormed(es: seq<Entry>) {
    es == [] || (WellFormed(es[0]) && AllWellFormed(es[1..]))
  }

  function EncodeEntry(e: Entry, littleEndian: bool): (r: seq<byte>)
    requires WellFormed(e)
    ensures |r| == ENTRY_SIZE
  {
    Encode16(e.tag, littleEndian) + Encode16(e.fieldType, littleEndian) + Encode32(e.count, littleEndian) +
    (if e.fieldType == TYPE_WORD then Encode16(e.value, littleEndian) + [0, 0] else Encode32(e.value, littleEndian))
  }

  function EncodeEntries(es: seq<Entry>, littleEndian: bool): (r: seq<byte>)
    requires AllWellFormed(es)
    ensures |r| == ENTRY_SIZE * |es|
  {
    if es == [] then [] else EncodeEntry(es[0], littleEndian) + EncodeEntries(es[1..], littleEndian)
  }

  /** What an entry means, read off the entry value itself (the reference for ReadEntry). */
  function Meaning(e: Entry): Result<EntryRead> {
    var tag := TagOf(e.tag);
    if tag.None? then Ok(Ignored)
    else if e.count != 1 then Fail(ParseError)
    else if e.fieldType == TYPE_WORD || e.fieldType == TYPE_DWORD then Ok(Value(tag.value, e.value))
    else Fail(ParseError)
  }

  /** The scan over decoded entries: the meaning of each entry in order, until all three are known. */
  function Scan(es: seq<Entry>, st: Dims): Result<Dims> {
    if es == [] || st.AllRead() then Ok(st)
    else
      match Meaning(es[0])
      case Fail(e) => Fail(e)
      case Ok(r) => Scan(es[1..], Record(st, r))
  }

  /** Entry `e` is stored at offset `off`: its tag, type, count and value read back from the bytes. */
  predicate StoredAt(d: seq<byte>, off: nat, e: Entry, littleEndian: bool) {
    off + ENTRY_SIZE <= |d| &&
    Read16(d, off, littleEndian) == e.tag &&
    Read16(d, off + 2, littleEndian) == e.fieldType &&
    Read32(d, off + 4, littleEndian) == e.count &&
    (if e.fieldType == TYPE_WORD then Read16(d, off + 8, littleEndian) else Read32(d, off + 8, littleEndian)) == e.value
  }

  /** The entries are stored one after another from offset `off`. */
  predicate StoredFrom(d: seq<byte>, off: nat, es: seq<Entry>, littleEndian: bool)
    decreases |es|
  {
    es == [] || (StoredAt(d, off, es[0], littleEndian) && StoredFrom(d, off + ENTRY_SIZE, es[1..], littleEndian))
  }

  /** A stored entry reads back as its meaning. */
  lemma ReadStoredEntry(d: seq<byte>, off: nat, e: Entry, littleEndian: bool)
    requires StoredAt(d, off, e, littleEndian)
    ensures ReadEntry(d, off, littleEndian) == Meaning(e)
  {
  }

  /** The byte-level scan over stored entries equals the scan over the entries themselves. */
  lemma {:induction false} ScanStored(d: seq<byte>, littleEndian: bool, ifd: nat, count: nat, i: nat, es: seq<Entry>, st: Dims)
    requires i + |es| == count && StoredFrom(d, ifd + 2 + ENTRY_SIZE * i, es, littleEndian)
    ensures ScanFrom(d, littleEndian, ifd, count, i, st) == Scan(es, st)
    decreases |es|
  {
    if es != [] && !st.AllRead() {
      var off := ifd + 2 + ENTRY_SIZE * i;
      ReadStoredEntry(d, off, es[0], littleEndian);
      var m := Meaning(es[0]);
      if m.Ok? {
        var st' := Record(st, m.value);
        assert off + ENTRY_SIZE == ifd + 2 + ENTRY_SIZE * (i + 1);
        ScanStored(d, littleEndian, ifd, count, i + 1, es[1..], st');
      }
    }
  }

  /** An encoded entry is stored where it was written. */
  lemma EncodedEntryStored(d: seq<byte>, off: nat, e: Entry, littleEndian: bool, tail: seq<byte>)
    requires WellFormed(e) && off <= |d| && d[off..] == EncodeEntry(e, littleEndian) + tail
    ensures StoredAt(d, off, e, littleEndian)
  {
    var x := EncodeEntry(e, littleEndian);
    SuffixSplit(d, off, x, tail);
    var t, ft, c := Encode16(e.tag, littleEndian), Encode16(e.fieldType, littleEndian), Encode32(e.count, littleEndian);
    assert x[..2] == t && x[2..4] == ft && x[4..8] == c;
    assert Read16(d, off, littleEndian) == Read16(x, 0, littleEndian) == Read16(t, 0, littleEndian) == e.tag;
    assert Read16(d, off + 2, littleEndian) == Read16(ft, 0, littleEndian) == e.fieldType;
    assert Read32(d, off + 4, littleEndian) == Read32(c, 0, littleEndian) == e.count;
    if e.fieldType == TYPE_WORD {
      var v := Encode16(e.value, littleEndian);
      assert x[8..10] == v;
      assert Read16(d, off + 8, littleEndian) == Read16(v, 0, littleEndian) == e.value;
    } else {
      var v := Encode32(e.value, littleEndian);
      assert x[8..12] == v;
      assert Read32(d, off + 8, littleEndian) == Read32(v, 0, littleEndian) == e.value;
    }
  }

  /** Encoded entries are stored one after another. */
  lemma {:induction false} EncodedEntriesStored(d: seq<byte>, off: nat, es: seq<Entry>, littleEndian: bool, tail: seq<byte>)
    requires AllWellFormed(es) && off <= |d| && d[off..] == EncodeEntries(es, littleEndian) + tail
    ensures StoredFrom(d, off, es, littleEndian)
    decreases |es|
  {
    if es != [] {
      var x := EncodeEntry(es[0], littleEndian);
      var rest := EncodeEntries(es[1..], littleEndian) + tail;
      assert d[off..] == x + rest;
      EncodedEntryStored(d, off, es[0], littleEndian, rest);
      SuffixAfter(d, off, x, rest);
      EncodedEntriesStored(d, off + ENTRY_SIZE, es[1..], littleEndian, tail);
    }
  }

  /** The 8-byte file header (byte order, 42, IFD offset 8) followed by the IFD's entry count. */
  function FileHeader(n: nat, littleEndian: bool): (r: seq<byte>)
    requires n < 0x1_0000
    ensures |r| == 10
    ensures StartsWith(r, LeHeader) == littleEndian && (StartsWith(r, LeHeader) || StartsWith(r, BeHeader))
    ensures Read32(r, 4, littleEndian) == 8 && Read16(r, 8, littleEndian) == n
  {
    var h := if littleEndian then LeHeader else BeHeader;
    var o, c := Encode32(8, littleEndian), Encode16(n, littleEndian);
    var r := h + o + c;
    assert r[0] == h[0] && r[1] == h[1] && r[2] == h[2] && r[3] == h[3];
    assert r[4..8] == o && r[8..10] == c;
    assert Read32(r, 4, littleEndian) == Read32(o, 0, littleEndian);
    assert Read16(r, 8, littleEndian) == Read16(c, 0, littleEndian);
    r
  }

  /** A whole file: the header with IFD offset 8, the entry count, the entries, then anything. */
  function EncodeFile(es: seq<Entry>, littleEndian: bool, tail: seq<byte>): seq<byte>
    requires AllWellFormed(es) && |es| < 0x1_0000
  {
    FileHeader(|es|, littleEndian) + (EncodeEntries(es, littleEndian) + tail)
  }

  /** The bytes of a file whose header gives IFD offset 8 and whose IFD holds the entries `es`. */
  predicate FileLayout(d: seq<byte>, es: seq<Entry>, littleEndian: bool) {
    |d| >= 10 && StartsWith(d, if littleEndian then LeHeader else BeHeader) &&
    Read32(d, 4, littleEndian) == 8 && Read16(d, 8, littleEndian) == |es| &&
    StoredFrom(d, 10, es, littleEndian)
  }

  /** GetInfo on such a file is the scan of its entries, finished into (height, width, nchannels). */
  lemma LayoutInfo(d: seq<byte>, es: seq<Entry>, littleEndian: bool)
    requires FileLayout(d, es, littleEndian)
    ensures TiffInfo(d) == Finish(Scan(es, NoneRead))
    ensures CanParse(d)
  {
    assert StartsWith(d, LeHeader) == littleEndian;
    ScanStored(d, littleEndian, 8, |es|, 0, es, NoneRead);
  }

  /** The encoder lays a file out as described. */
  lemma EncodedLayout(es: seq<Entry>, littleEndian: bool, tail: seq<byte>)
    requires AllWellFormed(es) && |es| < 0x1_0000
    ensures FileLayout(EncodeFile(es, littleEndian, tail), es, littleEndian)
  {
    var hd := FileHeader(|es|, littleEndian);
    var body := EncodeEntries(es, littleEndian) + tail;
    var d := hd + body;
    assert d[..10] == hd;
    assert d[10..] == body;
    HeaderReads(d, hd, littleEndian);
    EncodedEntriesStored(d, 10, es, littleEndian, tail);
  }

  lemma HeaderReads(d: seq<byte>, hd: seq<byte>, littleEndian: bool)
    requires |d| >= 10 && |hd| == 10 && d[..10] == hd
    ensures StartsWith(d, LeHeader) == StartsWith(hd, LeHeader) && StartsWith(d, BeHeader) == StartsWith(hd, BeHeader)
    ensures Read32(d, 4, littleEndian) == Read32(hd, 4, littleEndian) && Read16(d, 8, littleEndian) == Read16(hd, 8, littleEndian)
  {
    assert forall k :: 0 <= k < 10 ==> d[k] == d[..10][k];
  }

  /**
   * Round trip: GetInfo on an encoded file is the scan of its entries,
   * finished into (height, width, nchannels), in either byte order.
   */
  lemma EncodedFileInfo(es: seq<Entry>, littleEndian: bool, tail: seq<byte>)
    requires AllWellFormed(es) && |es| < 0x1_0000
    ensures TiffInfo(EncodeFile(es, littleEndian, tail)) == Finish(Scan(es, NoneRead))
    ensures CanParse(EncodeFile(es, littleEndian, tail))
  {
    EncodedLayout(es, littleEndian, tail);
    LayoutInfo(EncodeFile(es, littleEndian, tail), es, littleEndian);
  }

  /** Three entries giving width, height and samples per pixel yield the shape (height, width, nchannels). */
  lemma {:induction false} ThreeDimensionEntries(w: Entry, h: Entry, c: Entry)
    requires w.tag == WIDTH_TAG && h.tag == HEIGHT_TAG && c.tag == SAMPLESPERPIXEL_TAG
    requires w.count == 1 && h.count == 1 && c.count == 1
    requires w.fieldType in {TYPE_WORD, TYPE_DWORD} && h.fieldType in {TYPE_WORD, TYPE_DWORD} && c.fieldType in {TYPE_WORD, TYPE_DWORD}
    ensures Finish(Scan([w, h, c], NoneRead)) == Ok([h.value, w.value, c.value])
  {
    var s1 := Dims(Some(w.value), None, None);
    var s2 := Dims(Some(w.value), Some(h.value), None);
    var s3 := Dims(Some(w.value), Some(h.value), Some(c.value));
    assert [w, h, c][1..] == [h, c] && [h, c][1..] == [c];
    assert Scan([c], s2) == Scan([], s3);
    assert Scan([h, c], s1) == Scan([c], s2);
    assert Scan([w, h, c], NoneRead) == Scan([h, c], s1);
  }

  /** A dimension entry whose count is not 1, or whose type is neither SHORT nor LONG, makes the scan fail. */
  lemma BadDimensionEntryFails(e: Entry, es: seq<Entry>, st: Dims)
    requires TagOf(e.tag).Some? && (e.count != 1 || e.fieldType !in {TYPE_WORD, TYPE_DWORD})
    requires !st.AllRead()
    ensures Scan([e] + es, st) == Fail(ParseError)
  {
    assert ([e] + es)[0] == e;
  }

  /** Once all three are known the scan stops: later entries, even malformed ones, are not read. */
  lemma ScanStopsWhenAllRead(es: seq<Entry>, st: Dims)
    requires st.AllRead()
    ensures Scan(es, st) == Ok(st)
  {
  }
}
