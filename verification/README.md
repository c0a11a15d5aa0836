# Unit conversions for numerical relativity and astrophysics

This project models the unit-transformation functions of `units.py`. They convert a tagged physical quantity between three unit systems:

- CGS;
- geometrized "cctk" units, where c = G = M☉ = 1 and the scale is set by a mass M in solar masses;
- natural units, where c = ħ = k_B = 1 and energies are in eV.

There are also two fixed-ratio helpers: centimetres to parsecs and seconds to years.

Module `Units` (`units.dfy`) holds the six functions: `CctkToCgs`, `CgsToCctk`, `CmToParsec`, `SecondsToYears`, `NaturalToCgs` and `CgsToNatural`.

- **Values and tags.** Python floats are exact `real`s. The unit tag stays the free-form string the source compares against. A tag outside a converter's list is therefore an ordinary input.
- **Scale factors.** Each converter first derives its scale factors. The cctk converters use three (`g`, `cm`, `s`), each a fixed constant divided by `M`. The natural-unit converters use five fixed ones (`g`, `cm`, `s`, `K`, `C`). The converter then picks one multiply-or-divide expression through a single if/else-if chain, as the source does.
- **Results.** A call gives back an `Outcome`, which is one of:
  - `Value(v)`: the converted number;
  - `UnknownUnit`: the bare `return` after the "Unknown unit" message, which Python sees as `None`;
  - `NameError(name)`: the natural-to-CGS `'energy density'` branch reads the name `cctk`, which is bound nowhere in that function or module.

Module `UnitLemmas` (`unit_lemmas.dfy`) proves the properties of these converters. Module `UnitFindings` (`unit_findings.dfy`) covers two energy-density defects: it pins down what each branch does as written and proves that a corrected branch restores the inverse pairing.

Four behaviours of the code that the model keeps as they are:

- **Mass scale.** The CGS value of a cctk length, time or mass at mass scale M is M times its value at M = 1, because `g`, `cm` and `s` are constants divided by M (units.py:20-22, 29).
- **Energy density, cctk.** CGS-to-cctk `'energy density'` reuses the density factor (units.py:66), so it is not the inverse of cctk-to-CGS `'energy density'` (units.py:33).
- **Energy, natural units.** Natural-to-CGS has no `'energy'` branch, and its `'energy density'` branch raises (units.py:110-111).
- **Unknown tags.** An unknown tag returns `None` (units.py:36, 69, 114, 156).

## Model

| member | source | states |
|---|---|---|
| `Units.CctkToCgs` | units.py:5-37 | gives a number exactly for length, distance, time, mass, density and energy density; every other tag gives the unknown-unit outcome and never a number or a raise |
| `Units.CgsToCctk` | units.py:39-70 | gives a number exactly for the same six tags; every other tag gives the unknown-unit outcome |
| `Units.CmToParsec` | units.py:72-73 | the result times 3.08567758128e18 is the input; the result is positive or negative exactly when the input is |
| `Units.SecondsToYears` | units.py:75-76 | the result times 3.154e7 is the input; the sign of the input is kept |
| `Units.NaturalToCgs` | units.py:78-115 | gives a number exactly for length, distance, time, mass, temperature, electric charge and density; 'energy density' raises a NameError on `cctk`; every other tag, 'energy' included, gives the unknown-unit outcome |
| `Units.CgsToNatural` | units.py:118-157 | gives a number exactly for those seven tags plus energy and energy density; every other tag gives the unknown-unit outcome |
| `UnitLemmas.CctkRoundTrip` | units.py:20-64 | for every M ≠ 0 and every tag among length, distance, time, mass and density, cctk→CGS→cctk and CGS→cctk→CGS both return the original value |
| `UnitLemmas.CctkRescale` | units.py:20-64 | converting to CGS at mass scale M1 and back at M2 multiplies the value by M1/M2 for length, distance, time and mass and by (M2/M1)² for density; the CGS→cctk→CGS trip multiplies by the reciprocals |
| `UnitLemmas.NaturalRoundTrip` | units.py:92-149 | for every tag natural-to-CGS converts, natural→CGS→natural and CGS→natural→CGS both return the original value |
| `UnitLemmas.LengthDistanceSynonyms` | units.py:23-138 | all four converters give identical outcomes for 'length' and 'distance' |
| `UnitLemmas.CgsToCctkEnergyDensityIsDensity` | units.py:63-66 | CGS-to-cctk gives the same outcome for 'energy density' as for 'density' |
| `UnitLemmas.NaturalEnergyAsymmetry` | units.py:98-153 | 'energy' is unknown to natural-to-CGS but converted by CGS-to-natural; natural-to-CGS 'energy density' is a NameError on `cctk` while CGS-to-natural converts it |
| `UnitLemmas.CctkToCgsLinear` | units.py:20-37 | converting k·x gives k times the conversion of x, and an unknown tag stays unknown whatever the value |
| `UnitLemmas.CgsToCctkLinear` | units.py:54-70 | the same linearity for CGS-to-cctk |
| `UnitLemmas.NaturalToCgsLinear` | units.py:92-115 | the same linearity for natural-to-CGS, the NameError included |
| `UnitLemmas.CgsToNaturalLinear` | units.py:132-157 | the same linearity for CGS-to-natural |
| `UnitLemmas.ConvertersKeepZero` | units.py:5-157 | whenever any of the four converters gives a number for 0, that number is 0 |
| `UnitLemmas.CctkToCgsMassScaling` | units.py:20-33 | in CGS, length, time and mass at mass scale M are M times their value at M = 1; density and energy density are 1/M² times theirs |
| `UnitLemmas.CgsToCctkMassScaling` | units.py:54-66 | in cctk, length, time and mass at scale M are 1/M times their value at M = 1; density and energy density are M² times theirs |
| `UnitLemmas.CctkToCgsDimensions` | units.py:20-33 | cctk-to-CGS density is mass/length³ and energy density is mass/(length·time²), both in its own length, time and mass factors |
| `UnitLemmas.CgsToCctkDimensions` | units.py:54-64 | CGS-to-cctk density is mass/length³ in its own factors |
| `UnitLemmas.NaturalToCgsDimensions` | units.py:92-109 | natural-to-CGS density is mass/length³ in its own factors |
| `UnitLemmas.CgsToNaturalDimensions` | units.py:132-153 | CGS-to-natural density is mass/length³, energy is mass·length²/time² and energy density is mass/(length·time²), all in its own factors |
| `UnitLemmas.FixedRatiosMonotone` | units.py:72-76 | centimetres-to-parsecs and seconds-to-years are strictly increasing |
| `UnitLemmas.FixedRatiosUnit` | units.py:72-76 | 3.08567758128e18 cm is one parsec and 3.154e7 s is one year |
| `UnitFindings.CctkEnergyDensityRoundTripDrifts` | units.py:33-66 | as written, cctk→CGS→cctk on 'energy density' multiplies the value by (s/cm)² > 1 for every M, so it returns the value only when the value is 0 |
| `UnitFindings.CgsToCctkCorrected` | units.py:65-66 | the corrected CGS-to-cctk knows the same tags and agrees with the original on every tag except 'energy density' |
| `UnitFindings.CctkRoundTripCorrected` | units.py:20-66 | with the correction, the cctk pair are mutual inverses on all six tags, energy density included |
| `UnitFindings.NaturalToCgsCorrected` | units.py:110-111 | the corrected natural-to-CGS never raises; it gives a number for the seven tags plus 'energy density' and agrees with the original elsewhere |
| `UnitFindings.NaturalRoundTripCorrected` | units.py:92-153 | with the correction, the natural pair are mutual inverses on 'energy density' as well as on the seven tags |

## Findings

| source | as written | input that shows it | evidently intended | confidence | as-written member | corrected member |
|---|---|---|---|---|---|---|
| units.py:66 | `cctk = cgs * g / (cm * cm * cm)`, a copy of the density factor | converting x = 1 with M = 1 and 'energy density' from cctk to CGS and back gives (s/cm)² ≈ 9e20 instead of 1 | `cgs * g / (cm * s * s)`, the inverse of units.py:33 | high; not executed | `UnitFindings.CctkEnergyDensityRoundTripDrifts` | `UnitFindings.CgsToCctkCorrected` |
| units.py:111 | `cgs = cctk * (cm * s * s) / g` reads `cctk`, which is unbound in `natural2cgs` | `natural2cgs(1.0, 'energy density')` raises NameError | `natural * (cm * s * s) / g`, the inverse of units.py:153 | high; not executed | `UnitLemmas.NaturalEnergyAsymmetry` | `UnitFindings.NaturalToCgsCorrected` |

## Left out

- orbits.py (the Kepler orbit calculator) is not part of this model. It is closed-form floating-point physics built on square roots and trigonometric functions, which have no exact counterpart over `real`.
- The console output is not modelled: the debug print in the cctk-to-CGS time branch (units.py:27) and the "ERROR: Unknown unit." messages. Only the returned outcome is.
- IEEE-754 rounding is not modelled. Values are exact reals, so the round trips hold exactly here, while in floating point they hold only up to rounding.
- A mass scale M = 0 is excluded by `requires M != 0.0`. In the source, `5.03e-34 / M` raises ZeroDivisionError before the tag is looked at.
- The default argument `M=1` is not modelled: callers pass `1.0` explicitly.
- Non-numeric values and tags that are not strings are not modelled. Python's dynamic typing would let them through to the arithmetic or to the string comparison.
- Natural-to-CGS `'energy'` stays unknown in the corrected converter as well. The corrected converter adds no branch the source lacks, because a missing branch is not evidently a defect. The inverse of units.py:151 would be `natural * s * s / (g * cm * cm)`.
