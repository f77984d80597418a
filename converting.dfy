/** Linear unit and temperature conversions (src/CNCPy/Converting.py), over
    `real` as an exact idealisation of the source's floating point. */
module Converting {

  function MmToIn(mm: real): (inches: real)
    ensures mm == 0.0 <==> inches == 0.0
    ensures 0.0 <= mm ==> 0.0 <= inches <= mm
  {
    mm * 0.0393
  }

  function CmToIn(cm: real): (inches: real)
    ensures inches == 10.0 * MmToIn(cm)
    ensures cm == 0.0 <==> inches == 0.0
  {
    cm * 0.393
  }

  function InToMm(inch: real): (mm: real)
    ensures inch == 0.0 <==> mm == 0.0
    ensures 0.0 <= inch ==> 0.0 <= mm <= inch
  {
    inch * 0.254
  }

  function InToCm(inch: real): (cm: real)
    ensures cm == 10.0 * InToMm(inch)
    ensures inch == 0.0 <==> cm == 0.0
  {
    inch * 2.54
  }

  function FarenheitToCelsius(temp: real): (celsius: real)
    ensures temp == 32.0 ==> celsius == 0.0
    ensures temp == 212.0 ==> celsius == 100.0
  {
    (temp - 32.0) * 5.0 / 9.0
  }

  function CelsiusToFarenheit(temp: real): (farenheit: real)
    ensures temp == 0.0 ==> farenheit == 32.0
    ensures temp == 100.0 ==> farenheit == 212.0
  {
    temp * 9.0 / 5.0 + 32.0
  }

  /** The two temperature conversions are inverse to each other. */
  lemma TemperatureRoundTrip(t: real)
    ensures FarenheitToCelsius(CelsiusToFarenheit(t)) == t
    ensures CelsiusToFarenheit(FarenheitToCelsius(t)) == t
  {
  }

  /** Every conversion preserves order. */
  lemma ConversionsMonotone(a: real, b: real)
    requires a <= b
    ensures MmToIn(a) <= MmToIn(b) && CmToIn(a) <= CmToIn(b)
    ensures InToMm(a) <= InToMm(b) && InToCm(a) <= InToCm(b)
    ensures FarenheitToCelsius(a) <= FarenheitToCelsius(b)
    ensures CelsiusToFarenheit(a) <= CelsiusToFarenheit(b)
  {
  }

  /** The length factors are rounded, so a length round trip scales by a
      factor slightly below 1 and loses every non-zero length. */
  lemma LengthRoundTripsInexact(x: real)
    ensures CmToIn(InToCm(x)) == 0.99822 * x
    ensures InToCm(CmToIn(x)) == 0.99822 * x
    ensures MmToIn(InToMm(x)) == 0.0099822 * x
    ensures x != 0.0 ==> CmToIn(InToCm(x)) != x
  {
  }

  /** One inch is 25.4 mm: the factor `InToMm` evidently means, and the one
      that makes it agree with `InToCm` and invert `MmToIn` as closely as
      the centimetre pair does. */
  function InToMmIntended(inch: real): (mm: real)
    ensures InToCm(inch) == mm / 10.0
    ensures MmToIn(mm) == 0.99822 * inch
    ensures 0.0 <= inch ==> inch <= mm
  {
    inch * 25.4
  }

  /** `InToMm` is off by a factor of 100: one inch comes out as 0.254 mm,
      so converting an inch to millimetres and back gives about a
      hundredth of an inch. */
  lemma InToMmOffByHundred()
    ensures InToMm(1.0) == 0.254 && InToMmIntended(1.0) == 25.4
    ensures 100.0 * InToMm(1.0) == InToMmIntended(1.0)
    ensures MmToIn(InToMm(1.0)) == 0.0099822
    ensures InToCm(1.0) != InToMm(1.0) / 10.0
  {
  }
}
