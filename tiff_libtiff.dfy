/**
 * The libtiff-backed TIFF decoder (decoders/tiff_libtiff.cc): the checks on the image
 * it accepts, the region of interest it decodes, the scanlines it requests and the rows
 * it copies into the output. libtiff itself is reduced to the image's tag values and
 * its decoded scanlines; reading a scanline outside the image fails.
 */
module LibTiffDecode {
  import opened Wrappers
  import opened ByteIO
  import opened ImageConvert

  /** COMPRESSION_NONE in libtiff. */
  const CompressionNone: nat := 1

  /** The tag values Decode reads, after libtiff's defaults were applied. */
  datatype TiffInfo = TiffInfo(width: nat, height: nat, samplesPerPixel: nat, bitsPerSample: nat,
                               orientation: nat, compression: nat, rowsPerStrip: nat, tiled: bool)

  /** A region of interest: begin and end per dimension, height first. */
  datatype Roi = Roi(begin: seq<int>, end: seq<int>)

  /** The decode options Decode looks at. */
  datatype DecodeParams = DecodeParams(format: ImageFormat, useRoi: bool, roi: Roi)

  /** A region with at least height and width. */
  predicate Planar(roi: Roi) {
    |roi.begin| >= 2 && |roi.end| >= 2
  }

  /** roi.shape()[d]. */
  function Extent(roi: Roi, d: nat): int
    requires d < |roi.begin| && d < |roi.end|
  {
    roi.end[d] - roi.begin[d]
  }

  /** The enforced preconditions, in the order Decode checks them. */
  function CheckSupported(info: TiffInfo, opts: DecodeParams): (r: Outcome)
    ensures r.Pass? <==> opts.format == RGB && info.samplesPerPixel == 3 && info.bitsPerSample == 8 && !info.tiled
    ensures r.Failure? ==> r.error == Unsupported
  {
    if opts.format != RGB then Failure(Unsupported)
    else if info.samplesPerPixel != 3 then Failure(Unsupported)
    else if info.bitsPerSample != 8 then Failure(Unsupported)
    else if info.tiled then Failure(Unsupported)
    else Pass
  }

  /** Without use_roi the region becomes the whole output, from the origin to out.shape(). */
  function DecodeRoi(opts: DecodeParams, outShape: seq<int>): (roi: Roi)
    ensures opts.useRoi ==> roi == opts.roi
    ensures !opts.useRoi && |outShape| == 3 ==>
              Planar(roi) && roi.begin[0] == 0 && roi.begin[1] == 0 &&
              Extent(roi, 0) == outShape[0] && Extent(roi, 1) == outShape[1]
  {
    if opts.useRoi then opts.roi else Roi([0, 0, 0], outShape)
  }

  /** Rows can be read out of order unless the file is compressed with several rows per strip. */
  predicate RandomRowAccess(info: TiffInfo) {
    info.compression == CompressionNone || info.rowsPerStrip == 1
  }

  /** TIFFReadScanline: the decoded row, or a failure for a row outside the image. */
  function ReadScanline(scanlines: seq<seq<byte>>, y: int): (r: Result<seq<byte>>)
    ensures r.Ok? <==> 0 <= y < |scanlines|
    ensures r.Ok? ==> r.value == scanlines[y]
    ensures r.Fail? ==> r.error == LibraryError
  {
    if 0 <= y < |scanlines| then Ok(scanlines[y]) else Fail(LibraryError)
  }

  /** The integers a, a+1, ..., b-1. */
  function Range(a: int, b: int): (r: seq<int>)
    ensures |r| == if b <= a then 0 else b - a
  {
    seq(if b <= a then 0 else b - a, k => a + k)
  }

  /** One more integer at the end of a range. */
  lemma RangeSnoc(a: int, b: int)
    requires a <= b
    ensures Range(a, b) + [b] == Range(a, b + 1)
  {
  }

  /** The rows read before the region: all rows above it, unless rows can be read out of order. */
  function SkippedRows(info: TiffInfo, roi: Roi): seq<int>
    requires Planar(roi)
  {
    if RandomRowAccess(info) then [] else Range(0, roi.begin[0])
  }

  /** The scanline requests of a decode that succeeds: the skipped rows, then each row of the region. */
  function ExpectedReads(info: TiffInfo, roi: Roi): seq<int>
    requires Planar(roi)
  {
    SkippedRows(info, roi) + Range(roi.begin[0], roi.begin[0] + Extent(roi, 0))
  }

  /** Every scanline request of the decode is inside the image. */
  predicate ReadsInImage(info: TiffInfo, roi: Roi)
    requires Planar(roi)
  {
    (RandomRowAccess(info) || roi.begin[0] <= info.height) &&
    (Extent(roi, 0) <= 0 || (0 <= roi.begin[0] && roi.begin[0] + Extent(roi, 0) <= info.height))
  }

  /** out_row_stride: the region's width times three channels. */
  function RowStride(roi: Roi): int
    requires Planar(roi)
  {
    Extent(roi, 1) * 3
  }

  /** Where output row r starts for rows of w bytes: r * w, written as a sum of r strides. */
  function RowStart(r: nat, w: nat): nat {
    if r == 0 then 0 else RowStart(r - 1, w) + w
  }

  lemma {:induction false} RowStartIsProduct(r: nat, w: nat)
    ensures RowStart(r, w) == r * w
  {
    if r > 0 {
      RowStartIsProduct(r - 1, w);
    }
  }

  /** Later rows start later: every byte of row r lies before row q when r < q. */
  lemma {:induction false} RowStartMono(r: nat, q: nat, w: nat)
    requires r <= q
    ensures RowStart(r, w) <= RowStart(q, w)
    ensures r < q ==> RowStart(r, w) + w <= RowStart(q, w)
    decreases q
  {
    if r < q {
      RowStartMono(r, q - 1, w);
    }
  }

  /** The number of rows in the region (none when its height is negative). */
  function RegionRows(roi: Roi): nat
    requires Planar(roi)
  {
    if Extent(roi, 0) <= 0 then 0 else Extent(roi, 0)
  }

  /** The region's columns lie in every scanline and its rows fit the output buffer. */
  predicate CopyFits(roi: Roi, scanlines: seq<seq<byte>>, width: nat, outLen: nat) {
    Planar(roi) && 0 <= roi.begin[1] && 0 <= Extent(roi, 1) && roi.begin[1] + Extent(roi, 1) <= width &&
    (forall y :: 0 <= y < |scanlines| ==> |scanlines[y]| == width * 3) &&
    RowStart(RegionRows(roi), RowStride(roi)) <= outLen
  }

  /** The part of input row y that _TIFFmemcpy copies: the region's columns, three bytes each. */
  function RowSlice(scanlines: seq<seq<byte>>, roi: Roi, width: nat, y: int): (r: seq<byte>)
    requires Planar(roi) && 0 <= roi.begin[1] && 0 <= Extent(roi, 1) && roi.begin[1] + Extent(roi, 1) <= width
    requires 0 <= y < |scanlines| && |scanlines[y]| == width * 3
    ensures |r| == RowStride(roi)
  {
    scanlines[y][roi.begin[1] * 3 .. roi.begin[1] * 3 + RowStride(roi)]
  }

  /** s with src written from position p on. */
  function Splice(s: seq<byte>, p: nat, src: seq<byte>): (r: seq<byte>)
    requires p + |src| <= |s|
    ensures |r| == |s|
  {
    s[..p] + src + s[p + |src|..]
  }

  /** A splice holds src at its place and s everywhere else. */
  lemma SpliceAt(s: seq<byte>, p: nat, src: seq<byte>, k: int)
    requires p + |src| <= |s| && 0 <= k < |s|
    ensures Splice(s, p, src)[k] == if p <= k < p + |src| then src[k - p] else s[k]
  {
  }

  /** The first n rows of the region are rows of the image, and their copies fit the output. */
  predicate RowsFit(roi: Roi, scanlines: seq<seq<byte>>, width: nat, outLen: nat, n: nat) {
    CopyFits(roi, scanlines, width, outLen) &&
    (n == 0 || (n <= Extent(roi, 0) && 0 <= roi.begin[0] && roi.begin[0] + n <= |scanlines|))
  }

  /** The output after the first n rows of the region were copied. */
  function CopyRows(s: seq<byte>, scanlines: seq<seq<byte>>, roi: Roi, width: nat, n: nat): (r: seq<byte>)
    requires RowsFit(roi, scanlines, width, |s|, n)
    ensures |r| == |s|
  {
    if n == 0 then s
    else
      RowStartMono(n, RegionRows(roi), RowStride(roi));
      Splice(CopyRows(s, scanlines, roi, width, n - 1), RowStart(n - 1, RowStride(roi)),
             RowSlice(scanlines, roi, width, roi.begin[0] + n - 1))
  }

  /** Copying row k of the region after the first k rows. */
  lemma CopyRowsStep(s: seq<byte>, scanlines: seq<seq<byte>>, roi: Roi, width: nat, k: nat)
    requires RowsFit(roi, scanlines, width, |s|, k + 1)
    ensures RowsFit(roi, scanlines, width, |s|, k)
    ensures RowStart(k, RowStride(roi)) + RowStride(roi) <= |s|
    ensures CopyRows(s, scanlines, roi, width, k + 1) ==
            Splice(CopyRows(s, scanlines, roi, width, k), RowStart(k, RowStride(roi)), RowSlice(scanlines, roi, width, roi.begin[0] + k))
  {
    RowStartMono(k + 1, RegionRows(roi), RowStride(roi));
  }

  /** One turn of the copy loop: the bytes of row k are written, every other byte keeps its value. */
  lemma CopyRowsStepAt(s: seq<byte>, scanlines: seq<seq<byte>>, roi: Roi, width: nat, k: nat, p: int)
    requires RowsFit(roi, scanlines, width, |s|, k + 1) && 0 <= p < |s|
    ensures RowsFit(roi, scanlines, width, |s|, k)
    ensures RowStart(k + 1, RowStride(roi)) == RowStart(k, RowStride(roi)) + RowStride(roi)
    ensures CopyRows(s, scanlines, roi, width, k + 1)[p] ==
            if RowStart(k, RowStride(roi)) <= p < RowStart(k + 1, RowStride(roi))
            then scanlines[roi.begin[0] + k][roi.begin[1] * 3 + p - RowStart(k, RowStride(roi))]
            else CopyRows(s, scanlines, roi, width, k)[p]
  {
    var w := RowStride(roi);
    CopyRowsStep(s, scanlines, roi, width, k);
    SpliceAt(CopyRows(s, scanlines, roi, width, k), RowStart(k, w), RowSlice(scanlines, roi, width, roi.begin[0] + k), p);
  }

  /** The copy loop leaves everything after the copied rows unchanged. */
  lemma {:induction false} CopyRowsKeep(s: seq<byte>, scanlines: seq<seq<byte>>, roi: Roi, width: nat, n: nat, p: int)
    requires RowsFit(roi, scanlines, width, |s|, n)
    requires RowStart(n, RowStride(roi)) <= p < |s|
    ensures CopyRows(s, scanlines, roi, width, n)[p] == s[p]
  {
    if n > 0 {
      CopyRowsStepAt(s, scanlines, roi, width, n - 1, p);
      CopyRowsKeep(s, scanlines, roi, width, n - 1, p);
    }
  }

  /**
   * What the copy loop leaves in the output: byte c of output row r, at RowStart(r) + c,
   * is byte begin[1]*3 + c of scanline begin[0] + r.
   */
  lemma {:induction false} CopyRowsContent(s: seq<byte>, scanlines: seq<seq<byte>>, roi: Roi, width: nat, n: nat, r: nat, c: nat)
    requires RowsFit(roi, scanlines, width, |s|, n)
    requires r < n && c < RowStride(roi)
    ensures RowStart(r, RowStride(roi)) + c < |s|
    ensures CopyRows(s, scanlines, roi, width, n)[RowStart(r, RowStride(roi)) + c] == scanlines[roi.begin[0] + r][roi.begin[1] * 3 + c]
  {
    var k := n - 1;
    var w := RowStride(roi);
    RowStartMono(r, k, w);
    RowStartMono(k + 1, RegionRows(roi), w);
    var pos := RowStart(r, w) + c;
    CopyRowsStepAt(s, scanlines, roi, width, k, pos);
    var cur := CopyRows(s, scanlines, roi, width, k + 1);
    assert k + 1 == n;
    if r < k {
      assert pos < RowStart(k, w);
      CopyRowsContent(s, scanlines, roi, width, k, r, c);
      assert cur[pos] == CopyRows(s, scanlines, roi, width, k)[pos];
    } else {
      assert r == k && pos - RowStart(k, w) == c;
      assert cur[pos] == scanlines[roi.begin[0] + k][roi.begin[1] * 3 + c];
    }
  }

  /** The first integers of a longer range are the shorter range. */
  lemma RangePrefix(a: int, b: int, c: int)
    requires a <= b <= c
    ensures Range(a, b) == Range(a, c)[..b - a]
  {
  }

  /** A decode that stops during the copy loop has requested a prefix of the expected rows. */
  lemma ReadsPrefix(info: TiffInfo, roi: Roi, m: nat)
    requires Planar(roi) && m <= RegionRows(roi)
    ensures SkippedRows(info, roi) + Range(roi.begin[0], roi.begin[0] + m) ==
            ExpectedReads(info, roi)[..|SkippedRows(info, roi)| + m]
  {
    var b0 := roi.begin[0];
    if m > 0 {
      RangePrefix(b0, b0 + m, b0 + Extent(roi, 0));
    }
    assert ExpectedReads(info, roi)[..|SkippedRows(info, roi)| + m] ==
           SkippedRows(info, roi) + Range(b0, b0 + Extent(roi, 0))[..m];
  }

  /** Writing one more byte after a splice extends the spliced bytes by that byte. */
  lemma SpliceExtend(s: seq<byte>, p: nat, src: seq<byte>, b: byte)
    requires p + |src| + 1 <= |s|
    ensures Splice(s, p, src)[p + |src| := b] == Splice(s, p, src + [b])
  {
    var a := Splice(s, p, src)[p + |src| := b];
    var e := Splice(s, p, src + [b]);
    forall k | 0 <= k < |s|
      ensures a[k] == e[k]
    {
      SpliceAt(s, p, src, k);
      SpliceAt(s, p, src + [b], k);
    }
  }

  /** _TIFFmemcpy(out + p, src + q, n). */
  method CopyRow(out: array<byte>, p: nat, src: seq<byte>, q: nat, n: nat)
    requires p + n <= out.Length && q + n <= |src|
    modifies out
    ensures out[..] == Splice(old(out[..]), p, src[q..q + n])
  {
    ghost var s := out[..];
    assert s[..p] + [] + s[p..] == s;
    for k := 0 to n
      invariant out[..] == Splice(s, p, src[q..q + k])
    {
      SpliceExtend(s, p, src[q..q + k], src[q + k]);
      assert src[q..q + k] + [src[q + k]] == src[q..q + k + 1];
      ghost var before := out[..];
      out[p + k] := src[q + k];
      assert out[..] == before[p + k := src[q + k]];
    }
  }

  /**
   * The reads before the region when rows must be read in order: rows 0 up to the
   * region's first row, stopping at the first row outside the image.
   */
  method SkipRows(scanlines: seq<seq<byte>>, begin0: int) returns (r: Outcome, requests: seq<int>)
    ensures r.Pass? <==> begin0 <= |scanlines|
    ensures r.Pass? ==> requests == Range(0, begin0)
    ensures r.Failure? ==> r.error == LibraryError && requests == Range(0, |scanlines| + 1)
  {
    requests := [];
    var y := 0;
    while y < begin0
      invariant 0 <= y && (begin0 >= 0 ==> y <= begin0) && (begin0 < 0 ==> y == 0) && y <= |scanlines|
      invariant requests == Range(0, y)
    {
      var row := ReadScanline(scanlines, y);
      RangeSnoc(0, y);
      requests := requests + [y];
      if row.Fail? {
        return Failure(row.error), requests;
      }
      y := y + 1;
    }
    return Pass, requests;
  }

  /** The copy of region row roiY: _TIFFmemcpy of the region's columns of `row` to output offset roi_y * out_row_stride. */
  method CopyRegionRow(out: array<byte>, scanlines: seq<seq<byte>>, roi: Roi, width: nat, roiY: nat, row: seq<byte>)
    requires RowsFit(roi, scanlines, width, out.Length, roiY + 1)
    requires row == scanlines[roi.begin[0] + roiY]
    modifies out
    ensures RowStart(roiY, RowStride(roi)) + RowStride(roi) <= out.Length
    ensures out[..] == Splice(old(out[..]), RowStart(roiY, RowStride(roi)), RowSlice(scanlines, roi, width, roi.begin[0] + roiY))
  {
    var rowStride := Extent(roi, 1) * 3;
    RowStartIsProduct(roiY, rowStride);
    RowStartMono(roiY + 1, RegionRows(roi), rowStride);
    CopyRow(out, roiY * rowStride, row, roi.begin[1] * 3, rowStride);
  }

  /**
   * The copy loop: read row begin[0] + r of the region and copy its columns to output
   * row r, for each r below the region's height, stopping at the first row outside the image.
   */
  method CopyRegion(out: array<byte>, scanlines: seq<seq<byte>>, roi: Roi, width: nat)
      returns (r: Outcome, requests: seq<int>, ghost rowsDone: nat)
    requires CopyFits(roi, scanlines, width, out.Length)
    modifies out
    ensures r.Pass? <==> Extent(roi, 0) <= 0 || (0 <= roi.begin[0] && roi.begin[0] + Extent(roi, 0) <= |scanlines|)
    ensures r.Pass? ==> requests == Range(roi.begin[0], roi.begin[0] + Extent(roi, 0)) && rowsDone == RegionRows(roi)
    ensures r.Failure? ==> r.error == LibraryError && 0 < |requests| <= RegionRows(roi) &&
                           requests == Range(roi.begin[0], roi.begin[0] + |requests|) &&
                           !(0 <= requests[|requests| - 1] < |scanlines|)
    ensures RowsFit(roi, scanlines, width, out.Length, rowsDone)
    ensures out[..] == CopyRows(old(out[..]), scanlines, roi, width, rowsDone)
  {
    ghost var s0 := out[..];
    requests, rowsDone := [], 0;
    var begin0, begin1 := roi.begin[0], roi.begin[1];
    var height := Extent(roi, 0);
    var roiY := 0;
    while roiY < height
      invariant 0 <= roiY && (height >= 0 ==> roiY <= height)
      invariant requests == Range(begin0, begin0 + roiY)
      invariant roiY > 0 ==> 0 <= begin0 && begin0 + roiY <= |scanlines|
      invariant RowsFit(roi, scanlines, width, out.Length, roiY)
      invariant out[..] == CopyRows(s0, scanlines, roi, width, roiY)
    {
      var row := ReadScanline(scanlines, begin0 + roiY);
      RangeSnoc(begin0, begin0 + roiY);
      requests := requests + [begin0 + roiY];
      if row.Fail? {
        rowsDone := roiY;
        return Failure(row.error), requests, rowsDone;
      }
      assert RowsFit(roi, scanlines, width, out.Length, roiY + 1);
      CopyRowsStep(s0, scanlines, roi, width, roiY);
      CopyRegionRow(out, scanlines, roi, width, roiY, row.value);
      roiY := roiY + 1;
    }
    rowsDone := RegionRows(roi);
    return Pass, requests, rowsDone;
  }

  /**
   * The reading part of Decode for a supported image and a chosen region: read the rows
   * above the region when rows must be read in order, then copy the region row by row.
   */
  method ReadRegion(out: array<byte>, info: TiffInfo, scanlines: seq<seq<byte>>, roi: Roi)
      returns (r: Outcome, requests: seq<int>, ghost rowsDone: nat)
    requires |scanlines| == info.height && CopyFits(roi, scanlines, info.width, out.Length)
    modifies out
    ensures r.Pass? <==> ReadsInImage(info, roi)
    ensures r.Failure? ==> r.error == LibraryError
    ensures r.Pass? ==> requests == ExpectedReads(info, roi) && rowsDone == RegionRows(roi)
    ensures r.Failure? ==> 0 < |requests| <= |ExpectedReads(info, roi)| && requests == ExpectedReads(info, roi)[..|requests|] &&
                           !(0 <= requests[|requests| - 1] < info.height)
    ensures RowsFit(roi, scanlines, info.width, out.Length, rowsDone)
    ensures out[..] == CopyRows(old(out[..]), scanlines, roi, info.width, rowsDone)
  {
    requests, rowsDone := [], 0;
    if !RandomRowAccess(info) {
      r, requests := SkipRows(scanlines, roi.begin[0]);
      if r.Failure? {
        RangePrefix(0, info.height + 1, roi.begin[0]);
        return;
      }
    }
    assert requests == SkippedRows(info, roi);
    var rowRequests;
    r, rowRequests, rowsDone := CopyRegion(out, scanlines, roi, info.width);
    if r.Failure? {
      ReadsPrefix(info, roi, |rowRequests|);
    }
    requests := requests + rowRequests;
  }

  /**
   * LibTiffDecoderInstance::Decode after libtiff opened the image: check the image is
   * supported, choose the region, then read and copy it. `requests` lists the scanline
   * reads, in order.
   */
  method Decode(out: array<byte>, outShape: seq<int>, info: TiffInfo, scanlines: seq<seq<byte>>, opts: DecodeParams)
      returns (r: Outcome, requests: seq<int>, ghost rowsDone: nat)
    requires |scanlines| == info.height && |outShape| == 3
    requires opts.useRoi ==> Planar(opts.roi)
    requires CheckSupported(info, opts).Pass? ==> CopyFits(DecodeRoi(opts, outShape), scanlines, info.width, out.Length)
    modifies out
    ensures CheckSupported(info, opts).Failure? ==> r == CheckSupported(info, opts) && requests == [] && out[..] == old(out[..])
    ensures CheckSupported(info, opts).Pass? ==>
              var roi := DecodeRoi(opts, outShape);
              (r.Pass? <==> ReadsInImage(info, roi)) &&
              (r.Failure? ==> r.error == LibraryError) &&
              (r.Pass? ==> requests == ExpectedReads(info, roi) && rowsDone == RegionRows(roi)) &&
              (r.Failure? ==> 0 < |requests| <= |ExpectedReads(info, roi)| && requests == ExpectedReads(info, roi)[..|requests|] &&
                              !(0 <= requests[|requests| - 1] < info.height)) &&
              RowsFit(roi, scanlines, info.width, out.Length, rowsDone) &&
              out[..] == CopyRows(old(out[..]), scanlines, roi, info.width, rowsDone)
  {
    requests, rowsDone := [], 0;
    r := CheckSupported(info, opts);
    if r.Failure? {
      return;
    }
    var roi := DecodeRoi(opts, outShape);
    r, requests, rowsDone := ReadRegion(out, info, scanlines, roi);
  }
}
