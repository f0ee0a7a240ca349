/**
 * JpegParser: the marker walk that finds the frame header of a JPEG stream
 * (ITU-T T.81, Annex B: marker codes in B.1.1.3 and Table B.1, segment length
 * in B.1.1.4, frame header in B.2.2).
 *
 * The encoded image is an in-memory stream `d`: reading n bytes at position p
 * fails with EndOfStream when p + n > |d|, and a seek beyond |d| fails too.
 */
module JpegParser {
  import opened Wrappers
  import opened DaliTypes
  import opened ByteIO

  const MARKER_PREFIX: byte := 0xFF
  const SOI: byte := 0xD8
  const EOI: byte := 0xD9
  const SOS: byte := 0xDA

  /** isValidMarker: 0xFF followed by a non-zero byte (FF 00 is a stuffed data byte). */
  predicate IsValidMarker(m0: byte, m1: byte) {
    m0 == 0xFF && m1 != 0x00
  }

  /** isSofMarker: a valid marker in C0..CF other than DHT (C4), JPG (C8) and DAC (CC). */
  predicate IsSofMarker(m0: byte, m1: byte) {
    IsValidMarker(m0, m1) && 0xC0 <= m1 <= 0xCF && m1 != 0xC4 && m1 != 0xC8 && m1 != 0xCC
  }

  /** The thirteen start-of-frame codes SOF0..SOF15 listed in Table B.1 of T.81. */
  const SofCodes: set<byte> := {
    0xC0, 0xC1, 0xC2, 0xC3,
    0xC5, 0xC6, 0xC7,
    0xC9, 0xCA, 0xCB,
    0xCD, 0xCE, 0xCF
  }

  /** isSofMarker agrees with Table B.1: it accepts exactly FF followed by a SOFn code. */
  lemma SofMarkerMatchesTable(m0: byte, m1: byte)
    ensures IsSofMarker(m0, m1) <==> m0 == 0xFF && m1 in SofCodes
  {
  }

  /** The markers the walk itself compares against are valid markers, and none of them opens a frame. */
  lemma NamedMarkersValid()
    ensures IsValidMarker(MARKER_PREFIX, SOI) && !IsSofMarker(MARKER_PREFIX, SOI)
    ensures IsValidMarker(MARKER_PREFIX, EOI) && !IsSofMarker(MARKER_PREFIX, EOI)
    ensures IsValidMarker(MARKER_PREFIX, SOS) && !IsSofMarker(MARKER_PREFIX, SOS)
    ensures forall m1: byte :: !IsValidMarker(m1, 0x00) && !IsSofMarker(m1, 0x00)
  {
  }

  /** CanParse: the first two bytes can be read and they are the SOI marker FF D8. */
  predicate CanParse(d: seq<byte>) {
    |d| >= 2 && d[0] == MARKER_PREFIX && d[1] == SOI
  }

  /** What the walk does with the marker at position p: stop with a result, or seek to the next marker. */
  datatype Step = Stop(result: Result<Shape>) | Continue(next: nat)

  /**
   * One iteration of GetInfo's loop at a marker position p. A segment that is
   * not SOS is skipped to (offset of its length field) + length = p + 2 + length.
   */
  function StepAt(d: seq<byte>, p: nat): (s: Step)
    ensures s.Continue? ==> p + 2 <= s.next <= |d|
    ensures s.Stop? && s.result.Ok? ==> |s.result.value| == 3
  {
    if p + 2 > |d| then Stop(Fail(EndOfStream))
    else if !IsValidMarker(d[p], d[p + 1]) then Stop(Fail(ParseError))
    else if d[p + 1] == SOS then Stop(Fail(ParseError))
    else if p + 4 > |d| then Stop(Fail(EndOfStream))
    else
      var next := p + 2 + BE16(d, p + 2);
      if IsSofMarker(d[p], d[p + 1]) then
        if p + 10 > |d| then Stop(Fail(EndOfStream))
        else if next > |d| then Stop(Fail(EndOfStream))
        else Stop(Ok([BE16(d, p + 5), BE16(d, p + 7), d[p + 9] as nat]))
      else if next > |d| then Stop(Fail(EndOfStream))
      else Continue(next)
  }

  /** The walk from a marker at position p, as a function: what GetInfo's loop yields once it has reached p. */
  function WalkFrom(d: seq<byte>, p: nat): (r: Result<Shape>)
    decreases |d| - p
    ensures r.Ok? ==> |r.value| == 3
  {
    match StepAt(d, p)
    case Stop(r) => r
    case Continue(next) => WalkFrom(d, next)
  }

  /** GetInfo as a function of the encoded bytes: SOI first, then the marker walk. */
  function JpegInfo(d: seq<byte>): Result<Shape> {
    if |d| < 2 then Fail(EndOfStream)
    else if !(d[0] == MARKER_PREFIX && d[1] == SOI) then Fail(ParseError)
    else WalkFrom(d, 2)
  }

  /** JpegParser::GetInfo: reads the shape (height, width, components) of the first frame header. */
  method GetInfo(d: seq<byte>) returns (r: Result<Shape>)
    ensures r == JpegInfo(d)
  {
    if |d| < 2 {
      return Fail(EndOfStream);
    }
    if !(d[0] == MARKER_PREFIX && d[1] == SOI) {
      return Fail(ParseError);
    }
    var pos: nat := 2;
    var readShape := false;
    var shape: Shape := [];
    while !readShape
      invariant pos <= |d|
      invariant !readShape ==> JpegInfo(d) == WalkFrom(d, pos)
      invariant readShape ==> JpegInfo(d) == Ok(shape)
      decreases (if readShape then 0 else 1), |d| - pos
    {
      if pos + 2 > |d| {
        return Fail(EndOfStream);
      }
      var m0, m1 := d[pos], d[pos + 1];
      pos := pos + 2;
      if !IsValidMarker(m0, m1) {
        return Fail(ParseError);
      }
      if m1 == SOS {
        break;
      }
      if pos + 2 > |d| {
        return Fail(EndOfStream);
      }
      var size := BE16(d, pos);
      pos := pos + 2;
      var nextMarkerOffset := pos - 2 + size;
      if IsSofMarker(m0, m1) {
        // skip the 1-byte sample precision
        if pos + 6 > |d| {
          return Fail(EndOfStream);
        }
        var height := BE16(d, pos + 1);
        var width := BE16(d, pos + 3);
        var nchannels := d[pos + 5];
        shape := [height, width, nchannels as nat];
        readShape := true;
      }
      if nextMarkerOffset > |d| {
        return Fail(EndOfStream);
      }
      pos := nextMarkerOffset;
    }
    if !readShape {
      return Fail(ParseError);
    }
    return Ok(shape);
  }

  /** Whatever GetInfo accepts, CanParse accepts too: a stream not starting with SOI never yields a shape. */
  lemma GetInfoImpliesCanParse(d: seq<byte>)
    ensures JpegInfo(d).Ok? ==> CanParse(d)
  {
  }

  /** Empty input, and input that starts with a SOF marker instead of SOI, are rejected. */
  lemma CanParseRejects(d: seq<byte>)
    ensures !CanParse([])
    ensures |d| >= 2 && d[0] == 0xFF && d[1] == 0xC0 ==> !CanParse(d) && JpegInfo(d).Fail?
  {
  }

  // ---- An encoder for well-formed streams, used to state what the walk computes ----

  /** A marker segment: FF, the marker code, a 2-byte big-endian length that counts itself, the payload. */
  datatype Segment = Segment(code: byte, payload: seq<byte>)

  predicate WellSized(s: Segment) {
    |s.payload| + 2 < 0x1_0000
  }

  function EncodeSegment(s: Segment): (e: seq<byte>)
    requires WellSized(s)
    ensures |e| == 4 + |s.payload|
  {
    [MARKER_PREFIX, s.code] + EncodeBE16(|s.payload| + 2) + s.payload
  }

  /** Segments that the walk skips: valid, not SOS and not a frame header. */
  predicate Skippable(s: Segment) {
    WellSized(s) && s.code != 0x00 && s.code != SOS && !IsSofMarker(MARKER_PREFIX, s.code)
  }

  predicate AllSkippable(segs: seq<Segment>) {
    segs == [] || (Skippable(segs[0]) && AllSkippable(segs[1..]))
  }

  function EncodeAll(segs: seq<Segment>): (e: seq<byte>)
    requires AllSkippable(segs)
  {
    if segs == [] then [] else EncodeSegment(segs[0]) + EncodeAll(segs[1..])
  }

  /** A frame header segment (B.2.2): precision, height, width, number of components, then the component specs. */
  function FrameHeader(sof: byte, precision: byte, height: nat, width: nat, nc: byte, components: seq<byte>): (s: Segment)
    requires sof in SofCodes && height < 0x1_0000 && width < 0x1_0000 && |components| + 8 < 0x1_0000
    ensures WellSized(s)
  {
    Segment(sof, [precision] + EncodeBE16(height) + EncodeBE16(width) + [nc] + components)
  }

  /** Segment `s` is stored at position p: its marker and its length field read back from the bytes. */
  predicate SegmentAt(d: seq<byte>, p: nat, s: Segment) {
    p + 4 + |s.payload| <= |d| && d[p] == MARKER_PREFIX && d[p + 1] == s.code && BE16(d, p + 2) == |s.payload| + 2
  }

  /** Skippable segments stored one after another from p, ending at q. */
  predicate SkippedFrom(d: seq<byte>, p: nat, segs: seq<Segment>, q: nat)
    decreases |segs|
  {
    if segs == [] then q == p
    else Skippable(segs[0]) && SegmentAt(d, p, segs[0]) && SkippedFrom(d, p + 4 + |segs[0].payload|, segs[1..], q)
  }

  /** A frame header stored at p: a SOFn marker, a length that fits, and height, width and components after the precision byte. */
  predicate FrameAt(d: seq<byte>, p: nat, height: nat, width: nat, nc: nat) {
    p + 10 <= |d| && d[p] == MARKER_PREFIX && d[p + 1] in SofCodes && p + 2 + BE16(d, p + 2) <= |d| &&
    BE16(d, p + 5) == height && BE16(d, p + 7) == width && d[p + 9] as nat == nc
  }

  /** The walk passes over skippable segments without looking at their payload. */
  lemma {:induction false} WalkSkips(d: seq<byte>, p: nat, segs: seq<Segment>, q: nat)
    requires SkippedFrom(d, p, segs, q)
    ensures WalkFrom(d, p) == WalkFrom(d, q)
    decreases |segs|
  {
    if segs != [] {
      var s := segs[0];
      assert StepAt(d, p) == Continue(p + 4 + |s.payload|);
      WalkSkips(d, p + 4 + |s.payload|, segs[1..], q);
    }
  }

  /** The walk stops at a frame header with its (height, width, components). */
  lemma WalkAtFrame(d: seq<byte>, p: nat, height: nat, width: nat, nc: nat)
    requires FrameAt(d, p, height, width, nc)
    ensures WalkFrom(d, p) == Ok([height, width, nc])
  {
    SofMarkerMatchesTable(d[p], d[p + 1]);
  }

  /** The walk fails at SOS. */
  lemma WalkAtSos(d: seq<byte>, p: nat)
    requires p + 2 <= |d| && d[p] == MARKER_PREFIX && d[p + 1] == SOS
    ensures WalkFrom(d, p) == Fail(ParseError)
  {
  }

  /** Encoded skippable segments are stored one after another. */
  lemma {:induction false} EncodedSkipped(d: seq<byte>, p: nat, segs: seq<Segment>, tail: seq<byte>)
    requires AllSkippable(segs) && p <= |d| && d[p..] == EncodeAll(segs) + tail
    ensures SkippedFrom(d, p, segs, p + |EncodeAll(segs)|)
    ensures d[p + |EncodeAll(segs)|..] == tail
    decreases |segs|
  {
    if segs != [] {
      var s := segs[0];
      var e := EncodeSegment(s);
      var rest := EncodeAll(segs[1..]) + tail;
      assert d[p..] == e + rest;
      SuffixSplit(d, p, e, rest);
      assert d[p] == e[0] && d[p + 1] == e[1] && d[p + 2] == e[2] && d[p + 3] == e[3];
      assert BE16(d, p + 2) == BE16(e, 2) == |s.payload| + 2;
      EncodedSkipped(d, p + |e|, segs[1..], tail);
    } else {
      assert d[p..] == tail;
    }
  }

  /** An encoded frame header is stored where it was written. */
  lemma EncodedFrame(d: seq<byte>, p: nat, sof: byte, precision: byte,
                     height: nat, width: nat, nc: byte, components: seq<byte>, tail: seq<byte>)
    requires sof in SofCodes && height < 0x1_0000 && width < 0x1_0000 && |components| + 8 < 0x1_0000
    requires p <= |d| && d[p..] == EncodeSegment(FrameHeader(sof, precision, height, width, nc, components)) + tail
    ensures FrameAt(d, p, height, width, nc as nat)
  {
    var f := EncodeSegment(FrameHeader(sof, precision, height, width, nc, components));
    SuffixSplit(d, p, f, tail);
    var hb, wb := EncodeBE16(height), EncodeBE16(width);
    assert f[5..7] == hb && f[7..9] == wb;
    assert d[p] == f[0] && d[p + 1] == f[1] && d[p + 2] == f[2] && d[p + 3] == f[3];
    assert d[p + 5] == f[5] && d[p + 6] == f[6] && d[p + 7] == f[7] && d[p + 8] == f[8] && d[p + 9] == f[9];
    assert BE16(d, p + 2) == BE16(f, 2) == |components| + 8;
    assert BE16(d, p + 5) == BE16(hb, 0);
    assert BE16(d, p + 7) == BE16(wb, 0);
  }

  /** A stream: SOI, then the skippable segments, then `rest`. */
  function EncodeStream(segs: seq<Segment>, rest: seq<byte>): seq<byte>
    requires AllSkippable(segs)
  {
    [MARKER_PREFIX, SOI] + (EncodeAll(segs) + rest)
  }

  /** The walk over such a stream reaches `rest` having only skipped segments. */
  lemma StreamWalk(segs: seq<Segment>, rest: seq<byte>)
    requires AllSkippable(segs)
    ensures var d := EncodeStream(segs, rest);
            var q := 2 + |EncodeAll(segs)|;
            q <= |d| && d[q..] == rest && JpegInfo(d) == WalkFrom(d, q)
  {
    var d := EncodeStream(segs, rest);
    var q := 2 + |EncodeAll(segs)|;
    assert d[2..] == EncodeAll(segs) + rest;
    EncodedSkipped(d, 2, segs, rest);
    WalkSkips(d, 2, segs, q);
  }

  /**
   * Round trip: SOI, any number of skippable segments, then a frame header
   * (B.2.2: precision, height, width, components) give GetInfo the frame's
   * (height, width, components), whatever follows.
   */
  lemma EncodedStreamInfo(segs: seq<Segment>, sof: byte, precision: byte,
                          height: nat, width: nat, nc: byte, components: seq<byte>, tail: seq<byte>)
    requires AllSkippable(segs)
    requires sof in SofCodes && height < 0x1_0000 && width < 0x1_0000 && |components| + 8 < 0x1_0000
    ensures JpegInfo(EncodeStream(segs, EncodeSegment(FrameHeader(sof, precision, height, width, nc, components)) + tail))
            == Ok([height, width, nc as nat])
  {
    var rest := EncodeSegment(FrameHeader(sof, precision, height, width, nc, components)) + tail;
    var d := EncodeStream(segs, rest);
    var q := 2 + |EncodeAll(segs)|;
    StreamWalk(segs, rest);
    EncodedFrame(d, q, sof, precision, height, width, nc, components, tail);
    WalkAtFrame(d, q, height, width, nc as nat);
  }

  /** SOI, skippable segments, then SOS: GetInfo fails because it never saw a frame header. */
  lemma NoFrameFails(segs: seq<Segment>, tail: seq<byte>)
    requires AllSkippable(segs)
    ensures JpegInfo(EncodeStream(segs, [MARKER_PREFIX, SOS] + tail)) == Fail(ParseError)
  {
    var d := EncodeStream(segs, [MARKER_PREFIX, SOS] + tail);
    var q := 2 + |EncodeAll(segs)|;
    StreamWalk(segs, [MARKER_PREFIX, SOS] + tail);
    SuffixSplit(d, q, [MARKER_PREFIX, SOS], tail);
    WalkAtSos(d, q);
  }
}
