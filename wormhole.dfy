/**
 * The throat parameters of the wormhole (Wormhole.h): a plain aggregate of four
 * floats that the camera reads when it moves and that the renderer hands to the
 * lensing shader as four 32-bit root constants. Floats are modelled as reals.
 */
module WormholeParameters {

  datatype Wormhole = Wormhole(mass: real, radius: real, length: real, pad: real)

  /** Bounds of the three on-screen sliders, the only code that changes a wormhole. */
  const MinRadius: real := 0.00001
  const MaxRadius: real := 4.0
  const MinMass: real := 0.00001
  const MaxMass: real := 4.0
  const MinLength: real := 0.0
  const MaxLength: real := 6.0

  predicate InSliderRange(w: Wormhole) {
    && MinRadius <= w.radius <= MaxRadius
    && MinMass <= w.mass <= MaxMass
    && MinLength <= w.length <= MaxLength
  }

  /** The default constructor: mass 0.1, radius 0.5, length 0, pad 0. */
  function Default(): (w: Wormhole)
    ensures w.mass == 0.1 && w.radius == 0.5 && w.length == 0.0 && w.pad == 0.0
    ensures InSliderRange(w)
    ensures 0.0 < w.radius
  {
    Wormhole(0.1, 0.5, 0.0, 0.0)
  }

  function Clamp(v: real, lo: real, hi: real): real
    requires lo <= hi
  {
    if v < lo then lo else if hi < v then hi else v
  }

  /**
   * One frame of the three sliders: each dragged value is held to its slider's
   * bounds; the padding is never touched.
   */
  function ApplySliders(w: Wormhole, radius: real, mass: real, length: real): (r: Wormhole)
    ensures InSliderRange(r)
    ensures r.pad == w.pad
    ensures MinRadius <= radius <= MaxRadius ==> r.radius == radius
    ensures MinMass <= mass <= MaxMass ==> r.mass == mass
    ensures MinLength <= length <= MaxLength ==> r.length == length
  {
    w.(radius := Clamp(radius, MinRadius, MaxRadius),
       mass := Clamp(mass, MinMass, MaxMass),
       length := Clamp(length, MinLength, MaxLength))
  }

  /** Every wormhole the program can produce has a throat ball of positive radius. */
  lemma SliderRangeRadiusPositive(w: Wormhole)
    requires InSliderRange(w)
    ensures 0.0 < w.radius
  {
  }

  /** The four root constants, in declaration order. */
  function RootConstants(w: Wormhole): (c: seq<real>)
    ensures |c| == 4
  {
    [w.mass, w.radius, w.length, w.pad]
  }

  /** How the shader reads the four constants back as a float4. */
  function FromRootConstants(c: seq<real>): Wormhole
    requires |c| == 4
  {
    Wormhole(c[0], c[1], c[2], c[3])
  }

  lemma RootConstantsRoundTrip(w: Wormhole, c: seq<real>)
    ensures FromRootConstants(RootConstants(w)) == w
    ensures |c| == 4 ==> RootConstants(FromRootConstants(c)) == c
  {
  }
}
