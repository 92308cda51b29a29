/** Conversion between device-independent pixels and the two physical units the
    page and the rulers can be shown in.  The framework's pixel is 1/96 inch, so an
    inch is 96 pixels and a centimetre 37.7952755905512 pixels (96 / 2.54, rounded
    to the double the source writes out).  Arithmetic is over the reals. */
module Units {

  /** The unit the page size and the rulers are shown in; `Inch` is the default. */
  datatype Measurement = Inch | Centimeter

  /** Pixels per inch. */
  const InchFactor: real := 96.0
  /** Pixels per centimetre. */
  const CmFactor: real := 37.7952755905512

  function CmToPx(cm: real): (px: real)
    ensures px / CmFactor == cm
    ensures cm > 0.0 <==> px > 0.0
  {
    cm * CmFactor
  }

  function InchToPx(inch: real): (px: real)
    ensures px / InchFactor == inch
    ensures inch > 0.0 <==> px > 0.0
  {
    inch * InchFactor
  }

  function PxToCm(px: real): (cm: real)
    ensures cm * CmFactor == px
  {
    px / CmFactor
  }

  function PxToInch(px: real): (inch: real)
    ensures inch * InchFactor == px
  {
    px / InchFactor
  }

  /** The conversion the page-size setters apply: a value in unit `m` to pixels. */
  function ToPx(m: Measurement, v: real): (px: real)
    ensures m == Inch ==> px == InchToPx(v) && PxToInch(px) == v
    ensures m == Centimeter ==> px == CmToPx(v) && PxToCm(px) == v
    ensures px >= 0.0 <==> v >= 0.0
  {
    match m
    case Centimeter => CmToPx(v)
    case Inch => InchToPx(v)
  }

  /** The conversion the page-size getters apply: pixels to a value in unit `m`. */
  function FromPx(m: Measurement, px: real): (v: real)
    ensures m == Inch ==> v == PxToInch(px) && InchToPx(v) == px
    ensures m == Centimeter ==> v == PxToCm(px) && CmToPx(v) == px
  {
    match m
    case Centimeter => PxToCm(px)
    case Inch => PxToInch(px)
  }

  /** The size in pixels of one unit, which a ruler steps by. */
  function UnitPx(m: Measurement): (px: real)
    ensures px > 0.0
    ensures FromPx(m, px) == 1.0
    ensures m == Inch ==> px == 96.0
    ensures m == Centimeter ==> px == 37.7952755905512
  {
    ToPx(m, 1.0)
  }

  /** Converting to pixels and back gives the value back, in either unit. */
  lemma ToPxRoundTrip(m: Measurement, v: real)
    ensures FromPx(m, ToPx(m, v)) == v
  {
  }

  /** Converting from pixels and back gives the pixels back, in either unit. */
  lemma FromPxRoundTrip(m: Measurement, px: real)
    ensures ToPx(m, FromPx(m, px)) == px
  {
  }

  /** The centimetre factor is 96 / 2.54 up to the rounding of the written constant. */
  lemma CmFactorIsInchOver254()
    ensures -0.000000000001 < CmFactor - 96.0 / 2.54 < 0.000000000001
  {
  }
}
