/**
 * Properties of the converters in module Units: inverse pairs, tag
 * synonyms, linearity in the value, scaling in the mass M, dimensional
 * consistency of the composite tags, and the asymmetries the code has.
 */
module UnitLemmas {
  import opened Units

  /** Tags on which the geometrized pair are mutual inverses. */
  const CctkInverseTags: set<string> := {"length", "distance", "time", "mass", "density"}

  /**
   * Converting with one mass scale and back with another rescales the
   * value by a power of the ratio of the scales: cctk -> CGS -> cctk by
   * M1/M2 for length, time and mass and by (M2/M1)^2 for density, and
   * CGS -> cctk -> CGS by the reciprocals.
   */
  lemma CctkRescale(x: real, unit: string, M1: real, M2: real)
    requires M1 != 0.0 && M2 != 0.0
    requires unit in CctkInverseTags
    ensures unit != "density" ==>
      CgsToCctk(CctkToCgs(x, unit, M1).v, unit, M2) == Value(x * (M1 / M2))
    ensures unit != "density" ==>
      CctkToCgs(CgsToCctk(x, unit, M1).v, unit, M2) == Value(x * (M2 / M1))
    ensures unit == "density" ==>
      CgsToCctk(CctkToCgs(x, unit, M1).v, unit, M2) == Value(x * (M2 / M1) * (M2 / M1))
    ensures unit == "density" ==>
      CctkToCgs(CgsToCctk(x, unit, M1).v, unit, M2) == Value(x * (M1 / M2) * (M1 / M2))
  {
    if unit == "length" {
      LengthRescale(x, M1, M2);
    } else if unit == "distance" {
      LengthDistanceSynonyms(x, M1);
      LengthDistanceSynonyms(CctkToCgs(x, unit, M1).v, M2);
      LengthDistanceSynonyms(CgsToCctk(x, unit, M1).v, M2);
      LengthRescale(x, M1, M2);
    } else if unit == "time" {
      TimeRescale(x, M1, M2);
    } else if unit == "mass" {
      MassRescale(x, M1, M2);
    } else {
      DensityRescaleThroughCgs(x, M1, M2);
      DensityRescaleThroughCctk(x, M1, M2);
    }
  }

  /** The 'length' case of CctkRescale. */
  lemma LengthRescale(x: real, M1: real, M2: real)
    requires M1 != 0.0 && M2 != 0.0
    ensures CgsToCctk(CctkToCgs(x, "length", M1).v, "length", M2) == Value(x * (M1 / M2))
    ensures CctkToCgs(CgsToCctk(x, "length", M1).v, "length", M2) == Value(x * (M2 / M1))
  {
    RescaleFirstPower(x, CctkCentimetre, M1, M2);
  }

  /** The 'time' case of CctkRescale. */
  lemma TimeRescale(x: real, M1: real, M2: real)
    requires M1 != 0.0 && M2 != 0.0
    ensures CgsToCctk(CctkToCgs(x, "time", M1).v, "time", M2) == Value(x * (M1 / M2))
    ensures CctkToCgs(CgsToCctk(x, "time", M1).v, "time", M2) == Value(x * (M2 / M1))
  {
    RescaleFirstPower(x, CctkSecond, M1, M2);
  }

  /** The 'mass' case of CctkRescale. */
  lemma MassRescale(x: real, M1: real, M2: real)
    requires M1 != 0.0 && M2 != 0.0
    ensures CgsToCctk(CctkToCgs(x, "mass", M1).v, "mass", M2) == Value(x * (M1 / M2))
    ensures CctkToCgs(CgsToCctk(x, "mass", M1).v, "mass", M2) == Value(x * (M2 / M1))
  {
    RescaleFirstPower(x, CctkGram, M1, M2);
  }

  /** The 'density' case of CctkRescale, cctk -> CGS -> cctk. */
  lemma DensityRescaleThroughCgs(x: real, M1: real, M2: real)
    requires M1 != 0.0 && M2 != 0.0
    ensures CgsToCctk(CctkToCgs(x, "density", M1).v, "density", M2) == Value(x * (M2 / M1) * (M2 / M1))
  {
    RescaleDensityToCgs(x, CctkCentimetre, CctkGram, M1, M2);
  }

  /** The 'density' case of CctkRescale, CGS -> cctk -> CGS. */
  lemma DensityRescaleThroughCctk(x: real, M1: real, M2: real)
    requires M1 != 0.0 && M2 != 0.0
    ensures CctkToCgs(CgsToCctk(x, "density", M1).v, "density", M2) == Value(x * (M1 / M2) * (M1 / M2))
  {
    RescaleDensityToCctk(x, CctkCentimetre, CctkGram, M1, M2);
  }

  /** cctk -> CGS -> cctk and CGS -> cctk -> CGS at one mass scale are the identity on these tags. */
  lemma CctkRoundTrip(x: real, unit: string, M: real)
    requires M != 0.0
    requires unit in CctkInverseTags
    ensures CgsToCctk(CctkToCgs(x, unit, M).v, unit, M) == Value(x)
    ensures CctkToCgs(CgsToCctk(x, unit, M).v, unit, M) == Value(x)
  {
    CctkRescale(x, unit, M, M);
    assert M / M == 1.0;
  }

  /** A factor c/M applied at one scale and undone at another leaves the ratio of the scales. */
  lemma RescaleFirstPower(x: real, c: real, M1: real, M2: real)
    requires c != 0.0 && M1 != 0.0 && M2 != 0.0
    ensures x / (c / M1) * (c / M2) == x * (M1 / M2)
    ensures x * (c / M1) / (c / M2) == x * (M2 / M1)
  {
  }

  /** The density factor (c/M)^3/(g/M) applied at M1 and undone at M2 leaves (M2/M1)^2. */
  lemma RescaleDensityToCgs(x: real, c: real, g: real, M1: real, M2: real)
    requires c != 0.0 && g != 0.0 && M1 != 0.0 && M2 != 0.0
    ensures x * ((c / M1) * (c / M1) * (c / M1)) / (g / M1) * (g / M2) / ((c / M2) * (c / M2) * (c / M2))
      == x * (M2 / M1) * (M2 / M1)
  {
  }

  /** The density factor undone at M1 and applied at M2 leaves (M1/M2)^2. */
  lemma RescaleDensityToCctk(x: real, c: real, g: real, M1: real, M2: real)
    requires c != 0.0 && g != 0.0 && M1 != 0.0 && M2 != 0.0
    ensures x * (g / M1) / ((c / M1) * (c / M1) * (c / M1)) * ((c / M2) * (c / M2) * (c / M2)) / (g / M2)
      == x * (M1 / M2) * (M1 / M2)
  {
  }

  /** Multiplying by a/b and then by b/a, in either order, cancels. */
  lemma CancelRatio(x: real, a: real, b: real)
    requires a != 0.0 && b != 0.0
    ensures x * a / b * b / a == x
    ensures x * b / a * a / b == x
  {
  }

  /** natural -> CGS -> natural and back are the identity on every tag natural-to-CGS converts. */
  lemma NaturalRoundTrip(x: real, unit: string)
    requires unit in NaturalToCgsTags
    ensures CgsToNatural(NaturalToCgs(x, unit).v, unit) == Value(x)
    ensures NaturalToCgs(CgsToNatural(x, unit).v, unit) == Value(x)
  {
  }

  /** 'length' and 'distance' mean the same thing to all four converters. */
  lemma LengthDistanceSynonyms(x: real, M: real)
    requires M != 0.0
    ensures CctkToCgs(x, "distance", M) == CctkToCgs(x, "length", M)
    ensures CgsToCctk(x, "distance", M) == CgsToCctk(x, "length", M)
    ensures NaturalToCgs(x, "distance") == NaturalToCgs(x, "length")
    ensures CgsToNatural(x, "distance") == CgsToNatural(x, "length")
  {
  }

  /** CGS-to-cctk treats 'energy density' exactly as 'density'. */
  lemma CgsToCctkEnergyDensityIsDensity(x: real, M: real)
    requires M != 0.0
    ensures CgsToCctk(x, "energy density", M) == CgsToCctk(x, "density", M)
  {
  }

  /**
   * 'energy' is converted only towards natural units, and natural-to-CGS
   * 'energy density' raises on the unbound name instead of giving a number.
   */
  lemma NaturalEnergyAsymmetry(x: real)
    ensures NaturalToCgs(x, "energy") == UnknownUnit
    ensures CgsToNatural(x, "energy").Value?
    ensures NaturalToCgs(x, "energy density") == NameError(UnboundName)
    ensures CgsToNatural(x, "energy density").Value?
  {
  }

  /** cctk-to-CGS commutes with multiplying the value by k; failures do not depend on the value. */
  lemma CctkToCgsLinear(x: real, k: real, unit: string, M: real)
    requires M != 0.0
    ensures CctkToCgs(k * x, unit, M) == Scaled(CctkToCgs(x, unit, M), k)
  {
  }

  /** CGS-to-cctk commutes with multiplying the value by k; failures do not depend on the value. */
  lemma CgsToCctkLinear(x: real, k: real, unit: string, M: real)
    requires M != 0.0
    ensures CgsToCctk(k * x, unit, M) == Scaled(CgsToCctk(x, unit, M), k)
  {
  }

  /** Natural-to-CGS commutes with multiplying the value by k; the NameError does not depend on the value. */
  lemma NaturalToCgsLinear(x: real, k: real, unit: string)
    ensures NaturalToCgs(k * x, unit) == Scaled(NaturalToCgs(x, unit), k)
  {
  }

  /** CGS-to-natural commutes with multiplying the value by k; failures do not depend on the value. */
  lemma CgsToNaturalLinear(x: real, k: real, unit: string)
    ensures CgsToNatural(k * x, unit) == Scaled(CgsToNatural(x, unit), k)
  {
  }

  /** Zero converts to zero whenever a number comes back: the k = 0 case of the four linearity lemmas. */
  lemma ConvertersKeepZero(unit: string, M: real)
    requires M != 0.0
    ensures CctkToCgs(0.0, unit, M).Value? ==> CctkToCgs(0.0, unit, M).v == 0.0
    ensures CgsToCctk(0.0, unit, M).Value? ==> CgsToCctk(0.0, unit, M).v == 0.0
    ensures NaturalToCgs(0.0, unit).Value? ==> NaturalToCgs(0.0, unit).v == 0.0
    ensures CgsToNatural(0.0, unit).Value? ==> CgsToNatural(0.0, unit).v == 0.0
  {
    CctkToCgsLinear(0.0, 0.0, unit, M);
    CgsToCctkLinear(0.0, 0.0, unit, M);
    NaturalToCgsLinear(0.0, 0.0, unit);
    CgsToNaturalLinear(0.0, 0.0, unit);
  }

  /**
   * The mass scale enters as a power of M: length, time and mass in CGS
   * grow as M, density and energy density as 1/M^2.
   */
  lemma CctkToCgsMassScaling(x: real, unit: string, M: real)
    requires M != 0.0
    ensures unit in {"length", "distance", "time", "mass"} ==>
      CctkToCgs(x, unit, M) == Scaled(CctkToCgs(x, unit, 1.0), M)
    ensures unit in {"density", "energy density"} ==>
      CctkToCgs(x, unit, M) == Scaled(CctkToCgs(x, unit, 1.0), 1.0 / (M * M))
  {
  }

  lemma CgsToCctkMassScaling(x: real, unit: string, M: real)
    requires M != 0.0
    ensures unit in {"length", "distance", "time", "mass"} ==>
      CgsToCctk(x, unit, M) == Scaled(CgsToCctk(x, unit, 1.0), 1.0 / M)
    ensures unit in {"density", "energy density"} ==>
      CgsToCctk(x, unit, M) == Scaled(CgsToCctk(x, unit, 1.0), M * M)
  {
  }

  /**
   * The composite tags of cctk-to-CGS are the products of its base
   * factors that dimensional analysis asks for: density = mass/length^3,
   * energy density = mass/(length time^2).
   */
  lemma CctkToCgsDimensions(x: real, M: real)
    requires M != 0.0
    ensures
      var m := CctkToCgs(1.0, "mass", M).v;
      var l := CctkToCgs(1.0, "length", M).v;
      var t := CctkToCgs(1.0, "time", M).v;
      && CctkToCgs(x, "density", M) == Value(x * m / (l * l * l))
      && CctkToCgs(x, "energy density", M) == Value(x * m / (l * t * t))
  {
  }

  /** CGS-to-cctk density is mass/length^3 in its own base factors. */
  lemma CgsToCctkDimensions(x: real, M: real)
    requires M != 0.0
    ensures
      var m := CgsToCctk(1.0, "mass", M).v;
      var l := CgsToCctk(1.0, "length", M).v;
      CgsToCctk(x, "density", M) == Value(x * m / (l * l * l))
  {
  }

  /** Natural-to-CGS density is mass/length^3 in its own base factors. */
  lemma NaturalToCgsDimensions(x: real)
    ensures
      var m := NaturalToCgs(1.0, "mass").v;
      var l := NaturalToCgs(1.0, "length").v;
      NaturalToCgs(x, "density") == Value(x * m / (l * l * l))
  {
  }

  /**
   * CGS-to-natural composites: density = mass/length^3,
   * energy = mass length^2/time^2, energy density = mass/(length time^2).
   */
  lemma CgsToNaturalDimensions(x: real)
    ensures
      var m := CgsToNatural(1.0, "mass").v;
      var l := CgsToNatural(1.0, "length").v;
      var t := CgsToNatural(1.0, "time").v;
      && CgsToNatural(x, "density") == Value(x * m / (l * l * l))
      && CgsToNatural(x, "energy") == Value(x * m * l * l / (t * t))
      && CgsToNatural(x, "energy density") == Value(x * m / (l * t * t))
  {
  }

  /** The fixed-ratio conversions are strictly increasing. */
  lemma FixedRatiosMonotone(x: real, y: real)
    requires x < y
    ensures CmToParsec(x) < CmToParsec(y)
    ensures SecondsToYears(x) < SecondsToYears(y)
  {
  }

  /** One parsec and one year of their stated lengths map to 1. */
  lemma FixedRatiosUnit()
    ensures CmToParsec(3.08567758128e18) == 1.0
    ensures SecondsToYears(3.154e7) == 1.0
  {
  }
}
