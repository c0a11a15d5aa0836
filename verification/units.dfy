/**
 * Quick unit transformations between CGS, geometrized "cctk" units
 * (c = G = M_sun = 1, optionally scaled by a mass M in solar masses) and
 * natural units (c = hbar = k_B = 1, energies in eV).
 *
 * Floating-point values are modelled as exact reals. The unit of a quantity
 * is the same free-form string tag the converters dispatch on, so that a
 * tag outside a converter's list is an ordinary input with its own outcome.
 */
module Units {

  /** What a conversion call gives back. */
  datatype Outcome =
    | Value(v: real)          // the converted quantity
    | UnknownUnit             // the bare `return` after "ERROR: Unknown unit."
    | NameError(name: string) // a branch that reads a name bound nowhere

  // Geometrized units: one gram, centimetre and second for M = 1.
  const CctkGram: real := 5.028916268544129e-34
  const CctkCentimetre: real := 6.772400341316594e-6
  const CctkSecond: real := 2.0303145448833407e5

  // Natural units: one gram, centimetre, second, kelvin and coulomb.
  const NaturalGram: real := 1.0 / 1.78e-33
  const NaturalCentimetre: real := 1.0 / 1.97e-5
  const NaturalSecond: real := 1.0 / 6.58e-16
  const NaturalKelvin: real := 1.0 / 1.16e4
  const NaturalCoulomb: real := 1.0 / 1.88e-18

  // Fixed ratios of the two convenience conversions.
  const CentimetresPerParsec: real := 3.08567758128e18
  const SecondsPerYear: real := 3.154e7

  /** Tags each converter recognises; every other string is unknown to it. */
  const CctkToCgsTags: set<string> :=
    {"length", "distance", "time", "mass", "density", "energy density"}
  const CgsToCctkTags: set<string> := CctkToCgsTags
  const NaturalToCgsTags: set<string> :=
    {"length", "distance", "time", "mass", "temperature", "electric charge", "density"}
  const CgsToNaturalTags: set<string> :=
    NaturalToCgsTags + {"energy", "energy density"}

  /** The name the natural-to-CGS energy-density branch reads but never binds. */
  const UnboundName: string := "cctk"

  /** Applies a conversion result to a multiple of the input: numbers scale, failures stay. */
  function Scaled(o: Outcome, k: real): Outcome
  {
    match o
    case Value(v) => Value(k * v)
    case _ => o
  }

  /**
   * cctk quantity to CGS for mass scale M. The three factors are the cctk
   * size of one gram, centimetre and second, all shrinking as 1/M.
   */
  function CctkToCgs(cctk: real, unit: string, M: real): (r: Outcome)
    requires M != 0.0
    ensures r.Value? <==> unit in CctkToCgsTags
    ensures r.UnknownUnit? <==> unit !in CctkToCgsTags
  {
    var g := CctkGram / M;
    var cm := CctkCentimetre / M;
    var s := CctkSecond / M;
    if unit == "length" || unit == "distance" then Value(cctk / cm)
    else if unit == "time" then Value(cctk / s)
    else if unit == "mass" then Value(cctk / g)
    else if unit == "density" then Value(cctk * (cm * cm * cm) / g)
    else if unit == "energy density" then Value(cctk * (cm * s * s) / g)
    else UnknownUnit
  }

  /**
   * CGS quantity to cctk for mass scale M. As written, 'energy density'
   * uses the same factor as 'density'.
   */
  function CgsToCctk(cgs: real, unit: string, M: real): (r: Outcome)
    requires M != 0.0
    ensures r.Value? <==> unit in CgsToCctkTags
    ensures r.UnknownUnit? <==> unit !in CgsToCctkTags
  {
    var g := CctkGram / M;
    var cm := CctkCentimetre / M;
    var s := CctkSecond / M;
    if unit == "length" || unit == "distance" then Value(cgs * cm)
    else if unit == "time" then Value(cgs * s)
    else if unit == "mass" then Value(cgs * g)
    else if unit == "density" then Value(cgs * g / (cm * cm * cm))
    else if unit == "energy density" then Value(cgs * g / (cm * cm * cm))
    else UnknownUnit
  }

  /** Centimetres to parsecs. */
  function CmToParsec(cm: real): (pc: real)
    ensures pc * CentimetresPerParsec == cm
    ensures pc > 0.0 <==> cm > 0.0
    ensures pc < 0.0 <==> cm < 0.0
  {
    cm / CentimetresPerParsec
  }

  /** Seconds to years of 3.154e7 s. */
  function SecondsToYears(s: real): (years: real)
    ensures years * SecondsPerYear == s
    ensures years > 0.0 <==> s > 0.0
    ensures years < 0.0 <==> s < 0.0
  {
    s / SecondsPerYear
  }

  /**
   * Natural quantity to CGS ('electric charge' gives coulombs). There is
   * no 'energy' branch, and the 'energy density' branch reads the unbound
   * name `cctk`, so it raises instead of returning.
   */
  function NaturalToCgs(natural: real, unit: string): (r: Outcome)
    ensures r.Value? <==> unit in NaturalToCgsTags
    ensures r.NameError? <==> unit == "energy density"
    ensures r.NameError? ==> r.name == UnboundName
    ensures r.UnknownUnit? <==> unit !in NaturalToCgsTags && unit != "energy density"
  {
    var g := NaturalGram;
    var cm := NaturalCentimetre;
    var s := NaturalSecond;
    var K := NaturalKelvin;
    var C := NaturalCoulomb;
    if unit == "length" || unit == "distance" then Value(natural / cm)
    else if unit == "time" then Value(natural / s)
    else if unit == "mass" then Value(natural / g)
    else if unit == "temperature" then Value(natural / K)
    else if unit == "electric charge" then Value(natural / C)
    else if unit == "density" then Value(natural * (cm * cm * cm) / g)
    else if unit == "energy density" then NameError(UnboundName)
    else UnknownUnit
  }

  /** CGS quantity to natural units ('electric charge' takes coulombs). */
  function CgsToNatural(cgs: real, unit: string): (r: Outcome)
    ensures r.Value? <==> unit in CgsToNaturalTags
    ensures r.UnknownUnit? <==> unit !in CgsToNaturalTags
  {
    var g := NaturalGram;
    var cm := NaturalCentimetre;
    var s := NaturalSecond;
    var K := NaturalKelvin;
    var C := NaturalCoulomb;
    if unit == "length" || unit == "distance" then Value(cgs * cm)
    else if unit == "time" then Value(cgs * s)
    else if unit == "mass" then Value(cgs * g)
    else if unit == "temperature" then Value(cgs * K)
    else if unit == "electric charge" then Value(cgs * C)
    else if unit == "density" then Value(cgs * g / (cm * cm * cm))
    else if unit == "energy" then Value(cgs * g * cm * cm / (s * s))
    else if unit == "energy density" then Value(cgs * g / (cm * s * s))
    else UnknownUnit
  }
}
