/**
 * The OpenCV fallback decoder (decoders/opencv_fallback.cc): the mapping from OpenCV
 * element depths to DALI types, the imread flags chosen from the requested format and
 * type, and the shape, type and layout of the decoded image handed to Convert.
 * OpenCV itself is reduced to the image it returns for a set of flags and to the
 * channel requirement of its BGR-to-RGB colour conversion.
 */
module OpenCvFallback {
  import opened Wrappers
  import opened DaliTypes
  import opened ImageConvert

  // ---- Element depths ----

  /** OpenCV depth codes CV_8U .. CV_64F. */
  const Cv8U: int := 0
  const Cv8S: int := 1
  const Cv16U: int := 2
  const Cv16S: int := 3
  const Cv32S: int := 4
  const Cv32F: int := 5
  const Cv64F: int := 6

  /** CV2DaliType: the DALI type of an OpenCV depth; any other depth is rejected. */
  function CvToDaliType(cvType: int): (r: Result<DALIDataType>)
    ensures r.Ok? <==> Cv8U <= cvType <= Cv64F
    ensures r.Fail? ==> r.error == InvalidType
  {
    if cvType == Cv8U then Ok(UInt8)
    else if cvType == Cv8S then Ok(Int8)
    else if cvType == Cv16U then Ok(UInt16)
    else if cvType == Cv16S then Ok(Int16)
    else if cvType == Cv32S then Ok(Int32)
    else if cvType == Cv32F then Ok(Float)
    else if cvType == Cv64F then Ok(Float64)
    else Fail(InvalidType)
  }

  /** The types OpenCV can hold: 8- and 16-bit integers of both signs, 32-bit signed integers and both float widths. */
  predicate CvRepresentable(t: DALIDataType) {
    t in {UInt8, Int8, UInt16, Int16, Int32, Float, Float64}
  }

  /** The OpenCV depth of a representable DALI type. */
  function DaliToCvType(t: DALIDataType): int
    requires CvRepresentable(t)
  {
    match t
    case UInt8 => Cv8U
    case Int8 => Cv8S
    case UInt16 => Cv16U
    case Int16 => Cv16S
    case Int32 => Cv32S
    case Float => Cv32F
    case Float64 => Cv64F
  }

  /** Every accepted depth maps to a representable type, and back to the same depth: the mapping is one-to-one. */
  lemma CvTypeRoundTrip(cvType: int)
    requires CvToDaliType(cvType).Ok?
    ensures CvRepresentable(CvToDaliType(cvType).value)
    ensures DaliToCvType(CvToDaliType(cvType).value) == cvType
  {
  }

  /** Every representable DALI type is reached, from its own depth. */
  lemma DaliTypeRoundTrip(t: DALIDataType)
    requires CvRepresentable(t)
    ensures CvToDaliType(DaliToCvType(t)) == Ok(t)
  {
  }

  // ---- Read flags ----

  /** cv::ImreadModes as 32-bit words; IMREAD_UNCHANGED is -1, every bit set. */
  const ImreadUnchanged: bv32 := 0xFFFF_FFFF
  const ImreadGrayscale: bv32 := 0
  const ImreadColor: bv32 := 1
  const ImreadAnyDepth: bv32 := 2
  const ImreadIgnoreOrientation: bv32 := 128

  /** The mode bits chosen by the requested format. */
  function FormatFlags(format: ImageFormat): bv32 {
    match format
    case AnyData => 0 | ImreadUnchanged
    case Gray => 0 | (ImreadGrayscale | ImreadIgnoreOrientation)
    case _ => 0 | (ImreadColor | ImreadIgnoreOrientation)
  }

  /** The flags Decode passes to imread / imdecode. */
  function ReadFlags(format: ImageFormat, dtype: DALIDataType): bv32 {
    if dtype != UInt8 then FormatFlags(format) | ImreadAnyDepth else FormatFlags(format)
  }

  /**
   * What the flags ask of OpenCV: any data is read unchanged (which already keeps the
   * depth), grey is read as one channel and colour as three, both ignoring the EXIF
   * orientation, and the depth is kept exactly when the requested type is not uint8.
   */
  lemma ReadFlagsMeaning(format: ImageFormat, dtype: DALIDataType)
    ensures format == AnyData ==> ReadFlags(format, dtype) == ImreadUnchanged
    ensures format != AnyData ==>
              ReadFlags(format, dtype) & ImreadIgnoreOrientation != 0 &&
              (ReadFlags(format, dtype) & ImreadColor != 0 <==> format != Gray) &&
              (ReadFlags(format, dtype) & ImreadAnyDepth != 0 <==> dtype != UInt8) &&
              ReadFlags(format, dtype) & !(ImreadColor | ImreadAnyDepth | ImreadIgnoreOrientation) == 0
  {
  }

  // ---- The decoded image ----

  /** A cv::Mat as Decode sees it: its spatial sizes (one per dimension), channel count and depth. */
  datatype CvMat = CvMat(size: seq<nat>, channels: nat, depth: int)

  /** cvtColor(COLOR_BGR2RGB): defined for three- and four-channel images, giving three channels. */
  function BgrToRgb(img: Option<CvMat>): (r: Result<CvMat>)
    ensures r.Ok? <==> img.Some? && img.value.channels in {3, 4}
    ensures r.Ok? ==> r.value == img.value.(channels := 3)
  {
    if img.Some? && img.value.channels in {3, 4} then Ok(img.value.(channels := 3)) else Fail(LibraryError)
  }

  /** The test Decode applies before the BGR-to-RGB conversion: the IMREAD_COLOR bit of the flags. */
  predicate SwapsChannelsAsWritten(flags: bv32) {
    flags & ImreadColor != 0
  }

  /**
   * IMREAD_UNCHANGED has every bit set, so a request for any data passes the colour test
   * and a single-channel image read unchanged is sent to the BGR-to-RGB conversion,
   * which rejects it: the decode fails where it could have succeeded.
   */
  lemma AnyDataGreyFailsAsWritten(dtype: DALIDataType, img: CvMat)
    requires img.channels == 1
    ensures SwapsChannelsAsWritten(ReadFlags(AnyData, dtype))
    ensures BgrToRgb(Some(img)).Fail?
  {
    ReadFlagsMeaning(AnyData, dtype);
  }

  /**
   * The conversion as evidently intended: for a colour read, and for an unchanged read
   * only when the image has channels to swap.
   */
  predicate SwapsChannels(flags: bv32, img: Option<CvMat>) {
    flags & ImreadColor != 0 && (flags != ImreadUnchanged || (img.Some? && img.value.channels in {3, 4}))
  }

  /** The colour test Decode applies: the one written in the source, or the intended one. */
  predicate Swaps(flags: bv32, img: Option<CvMat>, asWritten: bool) {
    if asWritten then SwapsChannelsAsWritten(flags) else SwapsChannels(flags, img)
  }

  /** The intended test agrees with the written one on every format but any data, and never fails for any data. */
  lemma SwapsChannelsAgrees(format: ImageFormat, dtype: DALIDataType, img: Option<CvMat>)
    ensures format != AnyData ==> (SwapsChannels(ReadFlags(format, dtype), img) <==> SwapsChannelsAsWritten(ReadFlags(format, dtype)))
    ensures format == AnyData && SwapsChannels(ReadFlags(format, dtype), img) ==> BgrToRgb(img).Ok?
    ensures format == Gray ==> !SwapsChannels(ReadFlags(format, dtype), img)
  {
    ReadFlagsMeaning(format, dtype);
  }

  // ---- Decode ----

  /** The layout of the decoded image: DHWC for a volume, HWC otherwise. */
  function LayoutFor(dims: nat): string {
    if dims == 3 then "DHWC" else "HWC"
  }

  /** The decoded sample handed to Convert, with the requested format on both sides. */
  datatype ConvertCall = ConvertCall(shape: seq<nat>, dtype: DALIDataType, layout: string, format: ImageFormat)

  /** DecodeResult: success, and whether an exception was captured. */
  datatype DecodeResult = DecodeResult(success: bool, exception: bool)

  /** The flag word Decode builds up from the requested format and type. */
  method ChooseFlags(format: ImageFormat, dtype: DALIDataType) returns (flags: bv32)
    ensures flags == ReadFlags(format, dtype)
  {
    flags := 0;
    match format {
      case AnyData =>
        flags := flags | ImreadUnchanged;
      case Gray =>
        flags := flags | ImreadGrayscale | ImreadIgnoreOrientation;
      case _ =>
        flags := flags | ImreadColor | ImreadIgnoreOrientation;
    }
    if dtype != UInt8 {
      flags := flags | ImreadAnyDepth;
    }
  }

  /** The shape of the decoded sample: one extent per spatial dimension, then the channels. */
  method SampleShape(mat: CvMat) returns (shape: seq<nat>)
    ensures shape == mat.size + [mat.channels]
  {
    var dims := |mat.size|;
    shape := [];
    for d := 0 to dims
      invariant shape == mat.size[..d]
    {
      shape := shape + [mat.size[d]];
    }
    assert mat.size[..dims] == mat.size;
    shape := shape + [mat.channels];
  }

  /**
   * OpenCVDecoderInstance::Decode: choose the flags, read the image (`imread` stands for
   * imread / imdecode of the source), swap BGR to RGB, and hand the image to Convert with
   * shape (sizes..., channels). `convertFails` says whether that Convert call throws. Every
   * error is captured as an exception with success false; a failed read without the colour
   * conversion is no exception, only no success. `asWritten` selects the source's colour
   * test, under which a request for any data always converts (and a grey or failed read
   * then throws), or the intended one.
   */
  method Decode(format: ImageFormat, dtype: DALIDataType, outSampleDim: int,
                imread: bv32 -> Option<CvMat>, convertFails: ConvertCall -> bool, asWritten: bool)
      returns (res: DecodeResult, flags: bv32, call: Option<ConvertCall>)
    ensures flags == ReadFlags(format, dtype)
    ensures var img := imread(flags);
            var swap := Swaps(flags, img, asWritten);
            var decoded := if swap && BgrToRgb(img).Ok? then Some(BgrToRgb(img).value) else if swap then None else img;
            var converts := decoded.Some? && |decoded.value.size| + 1 == outSampleDim && CvToDaliType(decoded.value.depth).Ok?;
            (converts <==> call.Some?) &&
            (converts ==> call.value == ConvertCall(decoded.value.size + [decoded.value.channels],
                                                    CvToDaliType(decoded.value.depth).value,
                                                    LayoutFor(|decoded.value.size|), format)) &&
            (res.success <==> converts && !convertFails(call.value)) &&
            (res.success ==> !res.exception) &&
            (!res.success ==> (res.exception <==> swap || decoded.Some?))
  {
    flags := ChooseFlags(format, dtype);
    call := None;
    var img := imread(flags);
    if Swaps(flags, img, asWritten) {
      var rgb := BgrToRgb(img);
      if rgb.Fail? {
        return DecodeResult(false, true), flags, None;
      }
      img := Some(rgb.value);
    }
    if img.None? {
      return DecodeResult(false, false), flags, None;
    }
    var mat := img.value;
    var dims := |mat.size|;
    if dims + 1 != outSampleDim {
      return DecodeResult(false, true), flags, None;
    }
    var t := CvToDaliType(mat.depth);
    if t.Fail? {
      return DecodeResult(false, true), flags, None;
    }
    var shape := SampleShape(mat);
    call := Some(ConvertCall(shape, t.value, LayoutFor(dims), format));
    if convertFails(call.value) {
      return DecodeResult(false, true), flags, call;
    }
    res := DecodeResult(true, false);
  }
}
