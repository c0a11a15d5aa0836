/**
 * Two energy-density branches that break the inverse pairing of the
 * converters, each shown as written and then corrected.
 *
 * - CGS-to-cctk 'energy density' uses the density factor g/cm^3 where the
 *   inverse of cctk-to-CGS, g/(cm s^2), is meant; the round trip then
 *   multiplies by a fixed constant instead of giving the value back.
 * - Natural-to-CGS 'energy density' multiplies the unbound name `cctk`
 *   where its own argument is meant, so it raises instead of converting.
 */
module UnitFindings {
  import opened Units
  import opened UnitLemmas

  /** The factor the as-written cctk energy-density round trip applies, (s/cm)^2. */
  const EnergyDensityDrift: real := (CctkSecond / CctkCentimetre) * (CctkSecond / CctkCentimetre)

  /**
   * As written, cctk -> CGS -> cctk on 'energy density' multiplies by
   * EnergyDensityDrift (independent of M, and far above 1), so it gives the
   * value back only for 0.
   */
  lemma CctkEnergyDensityRoundTripDrifts(x: real, M: real)
    requires M != 0.0
    ensures EnergyDensityDrift > 1.0
    ensures CgsToCctk(CctkToCgs(x, "energy density", M).v, "energy density", M)
      == Value(EnergyDensityDrift * x)
    ensures CgsToCctk(CctkToCgs(x, "energy density", M).v, "energy density", M) == Value(x)
      <==> x == 0.0
  {
    var g := CctkGram / M;
    var cm := CctkCentimetre / M;
    var s := CctkSecond / M;
    assert s / cm == CctkSecond / CctkCentimetre;
    var y := x * (cm * s * s) / g;
    assert y * g / (cm * cm * cm) == x * (s / cm) * (s / cm);
    assert CctkSecond / CctkCentimetre > 1.0;
  }

  /** CGS to cctk with 'energy density' converted by g/(cm s^2), the inverse of cctk-to-CGS. */
  function CgsToCctkCorrected(cgs: real, unit: string, M: real): (r: Outcome)
    requires M != 0.0
    ensures r.Value? <==> unit in CgsToCctkTags
    ensures unit != "energy density" ==> r == CgsToCctk(cgs, unit, M)
  {
    if unit == "energy density" then
      var g := CctkGram / M;
      var cm := CctkCentimetre / M;
      var s := CctkSecond / M;
      Value(cgs * g / (cm * s * s))
    else
      CgsToCctk(cgs, unit, M)
  }

  /** With the correction, the geometrized pair are mutual inverses on every tag they know. */
  lemma CctkRoundTripCorrected(x: real, unit: string, M: real)
    requires M != 0.0
    requires unit in CctkToCgsTags
    ensures CgsToCctkCorrected(CctkToCgs(x, unit, M).v, unit, M) == Value(x)
    ensures CctkToCgs(CgsToCctkCorrected(x, unit, M).v, unit, M) == Value(x)
  {
    if unit == "energy density" {
      EnergyDensityRoundTripCorrected(x, M);
    } else {
      CctkRoundTrip(x, unit, M);
    }
  }

  /** The 'energy density' case of CctkRoundTripCorrected. */
  lemma EnergyDensityRoundTripCorrected(x: real, M: real)
    requires M != 0.0
    ensures CgsToCctkCorrected(CctkToCgs(x, "energy density", M).v, "energy density", M) == Value(x)
    ensures CctkToCgs(CgsToCctkCorrected(x, "energy density", M).v, "energy density", M) == Value(x)
  {
    var g := CctkGram / M;
    var cm := CctkCentimetre / M;
    var s := CctkSecond / M;
    assert cm * s * s != 0.0;
    CancelRatio(x, cm * s * s, g);
  }

  /** Natural to CGS with 'energy density' converted by cm s^2/g, the inverse of CGS-to-natural. */
  function NaturalToCgsCorrected(natural: real, unit: string): (r: Outcome)
    ensures r.Value? <==> unit in NaturalToCgsTags || unit == "energy density"
    ensures !r.NameError?
    ensures unit != "energy density" ==> r == NaturalToCgs(natural, unit)
  {
    if unit == "energy density" then
      var g := NaturalGram;
      var cm := NaturalCentimetre;
      var s := NaturalSecond;
      Value(natural * (cm * s * s) / g)
    else
      NaturalToCgs(natural, unit)
  }

  /** With the correction, 'energy density' joins the tags on which the natural pair are mutual inverses. */
  lemma NaturalRoundTripCorrected(x: real, unit: string)
    requires unit in NaturalToCgsTags || unit == "energy density"
    ensures CgsToNatural(NaturalToCgsCorrected(x, unit).v, unit) == Value(x)
    ensures NaturalToCgsCorrected(CgsToNatural(x, unit).v, unit) == Value(x)
  {
  }
}
