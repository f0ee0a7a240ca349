/**
 * FromExifOrientation: the value of the Exif Orientation tag (0x0112, Exif 2.3
 * section 4.6.4) mapped to DALI's Orientation {rotate, flip_x, flip_y}.
 * Angles are counter-clockwise degrees, so a clockwise rotation is negative.
 */
module ImageOrientation {
  import opened Wrappers

  /** The ExifOrientation enumerators, with their Exif tag values. */
  const HORIZONTAL := 1
  const MIRROR_HORIZONTAL := 2
  const ROTATE_180 := 3
  const MIRROR_VERTICAL := 4
  const MIRROR_HORIZONTAL_ROTATE_270_CW := 5
  const ROTATE_90_CW := 6
  const MIRROR_HORIZONTAL_ROTATE_90_CW := 7
  const ROTATE_270_CW := 8

  datatype Orientation = Orientation(rotate: int, flipX: bool, flipY: bool)

  /** The eight values the switch handles. */
  predicate IsExifOrientation(v: int) {
    1 <= v <= 8
  }

  function FromExifOrientation(v: int): (r: Result<Orientation>)
    ensures r.Ok? <==> IsExifOrientation(v)
    ensures r.Ok? ==> r.value.rotate in {0, 180, -90, -270}
    ensures r.Ok? ==> (r.value.flipY <==> v == MIRROR_VERTICAL)
    ensures r.Ok? ==> (r.value.flipX <==> v in {MIRROR_HORIZONTAL, MIRROR_HORIZONTAL_ROTATE_270_CW, MIRROR_HORIZONTAL_ROTATE_90_CW})
    ensures r.Ok? ==> (r.value.rotate == 180 <==> v == ROTATE_180)
    ensures r.Ok? ==> (r.value.rotate == -90 <==> v in {ROTATE_90_CW, MIRROR_HORIZONTAL_ROTATE_90_CW})
    ensures r.Ok? ==> (r.value.rotate == -270 <==> v in {ROTATE_270_CW, MIRROR_HORIZONTAL_ROTATE_270_CW})
  {
    if v == HORIZONTAL then Ok(Orientation(0, false, false))
    else if v == MIRROR_HORIZONTAL then Ok(Orientation(0, true, false))
    else if v == ROTATE_180 then Ok(Orientation(180, false, false))
    else if v == MIRROR_VERTICAL then Ok(Orientation(0, false, true))
    else if v == MIRROR_HORIZONTAL_ROTATE_270_CW then Ok(Orientation(-270, true, false))
    else if v == ROTATE_90_CW then Ok(Orientation(-90, false, false))
    else if v == MIRROR_HORIZONTAL_ROTATE_90_CW then Ok(Orientation(-90, true, false))
    else if v == ROTATE_270_CW then Ok(Orientation(-270, false, false))
    else Fail(ParseError)
  }

  /** The orientations the mapping can produce. */
  predicate IsProduced(o: Orientation) {
    o in {
      Orientation(0, false, false), Orientation(0, true, false),
      Orientation(180, false, false), Orientation(0, false, true),
      Orientation(-270, true, false), Orientation(-90, false, false),
      Orientation(-90, true, false), Orientation(-270, false, false)
    }
  }

  /** An independent inverse of the mapping: the Exif value that describes `o`. */
  function ToExifOrientation(o: Orientation): (v: int)
    requires IsProduced(o)
    ensures IsExifOrientation(v)
  {
    if o.flipY then MIRROR_VERTICAL
    else if o.rotate == 180 then ROTATE_180
    else if o.rotate == -90 then (if o.flipX then MIRROR_HORIZONTAL_ROTATE_90_CW else ROTATE_90_CW)
    else if o.rotate == -270 then (if o.flipX then MIRROR_HORIZONTAL_ROTATE_270_CW else ROTATE_270_CW)
    else if o.flipX then MIRROR_HORIZONTAL
    else HORIZONTAL
  }

  /** Every accepted Exif value maps to a distinct orientation: decoding then re-encoding is the identity. */
  lemma FromExifRoundTrip(v: int)
    requires IsExifOrientation(v)
    ensures FromExifOrientation(v).Ok?
    ensures IsProduced(FromExifOrientation(v).value)
    ensures ToExifOrientation(FromExifOrientation(v).value) == v
  {
  }

  /** ... and every orientation the mapping produces comes from exactly one Exif value. */
  lemma ToExifRoundTrip(o: Orientation)
    requires IsProduced(o)
    ensures FromExifOrientation(ToExifOrientation(o)) == Ok(o)
  {
  }

  /** Hence the mapping is injective on the values it accepts. */
  lemma FromExifInjective(v: int, w: int)
    requires FromExifOrientation(v).Ok? && FromExifOrientation(w).Ok?
    requires FromExifOrientation(v) == FromExifOrientation(w)
    ensures v == w
  {
    FromExifRoundTrip(v);
    FromExifRoundTrip(w);
  }
}
