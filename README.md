# isadora: a Dafny model of the ISA core

isadora implements the ICAO 1983 International Standard Atmosphere from sea
level to 47 km of geopotential altitude. This project models its three core
modules in Dafny, over `real`:

- `units.dfy` (module `Units`) models `isadora/units.py`. It holds:
  - the three unit-definition tables (SI, USCS, Imperial) and the constructor tables built from them;
  - the process-wide `UnitRegistry`, which selects a standard exactly once;
  - the conversions `to_si` and `to_user_unit`;
  - the write-once descriptor `_UnitParam`.
- `constants.dfy` (module `Constants`) models `isadora/constants.py`: the
  constants object, whose constants are each assigned once through its
  descriptor.
- `base.dfy` (module `Base`) models `isadora/base.py`. It holds:
  - the layer selector;
  - the three layer classes, with their temperature and pressure;
  - the `ISA` object, with the quantities derived from its layer.
- `errors.dfy` (module `Errors`) holds the Python exception classes and the
  `Result` and `Outcome` values that stand for a raise.

The model has these parts:

- **Registry.** `UnitRegistry` is a class with the two fields
  `unitStandard` and `locked`. `SetUnitStandard` is proved against the pure
  transition `Transition`. `Run` replays a sequence of calls and carries the
  set-at-most-once property.
- **Descriptor.** `_UnitParam.__set__` is a method on an instance
  dictionary (`InstanceDict.entries`). It is proved against the pure
  `Assign`. The dictionary is keyed by the attribute names the
  descriptors guard; for the constants object these are the values of
  `Constants.Field`, each with its Python attribute name.
- **Constants object.** Its `__init__` is a constructor that assigns every
  field in source order, through the descriptor. The derived kinematic
  viscosity and speed of sound are computed from fields read back after
  they were set.
- **Layers.** The layer objects hold a reference to their `ISA` parent and
  read its `offset` and `altitude` through it, as the source does. So
  `isa + n` (`ISA.Add`) changes what the layer computes without touching the
  layer.
- **Reference profile.** An independent reference description of the
  standard's profile (`Segment`, `SegmentAt`, `StandardTemperature`,
  `StandardPressure`) is what the layer objects are proved against.

Calls into code this model cannot see are parameters. Their results are
left uninterpreted:

- The `mudu` package is not part of this model. Its `convert_to` is the
  `Converter` inside a `Units.Context`. Under SI every conversion is proved
  to be the identity.
- `math.exp`, `math.log` and float `**` are the fields of `Base.Math`.

Callers inside the library always spell quantity names in upper case.
`Units.Quantity` names those quantities, and `Units.Standard` names the
three standards of `STANDARDS`. `InSI`/`InUserUnit` are proved equal to
`ToSI`/`ToUserUnit` on every spelling of the quantity's key
(`ConversionsOfQuantities`).

The model follows the code as written:

- `set_unit_standard` upper-cases its argument, so "si" is accepted.
- `__add__`/`__sub__` change `offset` in place and return `None`. They do
  not build a new ISA.
- The temperature offset enters the troposphere's and stratosphere's
  pressure, through the temperature ratio. It does not enter the
  tropopause's pressure. With a nonzero offset, the pressure formulas
  therefore no longer meet at 11 and 20 km.
- Layer intervals are closed and are tried from the bottom. A boundary
  altitude therefore belongs to the lower layer: 11 km is troposphere.
- Altitudes are stored in km, the SI distance unit of the tables, not in
  metres.
- An out-of-range altitude raises a bare `Exception`.
- The stratosphere's pressure exponent is negative, so at a temperature of
  0 K `**` raises ZeroDivisionError (`ISAStratosphere.Pressure`). The value
  of the power law elsewhere is `ISAStratosphere.PowerLaw`. The density
  divides by the same zero temperature and raises the same error.
- The stratosphere's sub-layer test passes the tuple `(20.0, 32, 0)`. Only
  its first two elements are read, so the lower sub-layer spans 20..32 km.
- `tests/test_units_and_invariance.py:14` passes a geometric height of
  10000 as if it were metres. In km that height has no layer, so
  `from_geometric_height` raises for it (`TenThousandKilometresHaveNoLayer`).

## Model

| member | source | states |
|---|---|---|
| Units.UpperIdempotent | isadora/units.py:312 | upper-casing a name twice gives what upper-casing it once gives |
| Units.StandardNamed | isadora/units.py:280 | each name in `STANDARDS` names one standard, whose name it is |
| Units.UnitDefinitions | isadora/units.py:171-214 | each standard's table has exactly the eleven quantity keys plus "UNIT_NAME", names its own standard, and maps every quantity to a unit |
| Units.SiShape | isadora/units.py:171-184 | `si_units` has the eleven quantity keys plus "UNIT_NAME" = "SI", and a unit under every quantity key |
| Units.UscsShape | isadora/units.py:186-199 | `uscs_units` has the eleven quantity keys plus "UNIT_NAME" = "USCS", and a unit under every quantity key |
| Units.ImperialShape | isadora/units.py:201-214 | `imperial_units` has the eleven quantity keys plus "UNIT_NAME" = "IMPERIAL", and a unit under every quantity key |
| Units.SiUnitsOfQuantities | isadora/units.py:171-184 | the SI unit of each of the eleven quantities: K, kg/m^3, Pa, km, kg/(m s), m^2/s, m/s, J/(mol K), kg/mol, J/(kg K), K/m |
| Units.TablesShareConstantUnits | isadora/units.py:171-214 | all three tables have the same keys and give the gas constant, the molar mass and the specific-heat constant the same units |
| Units.QuantityTable.Construct | isadora/units.py:411 | calling a field of a constructor table succeeds exactly for a quantity field and tags the magnitude with its unit; "UNIT_NAME" raises TypeError and any other name AttributeError |
| Units.MakeQuantityTable | isadora/units.py:220-263 | the built table takes its name from "UNIT_NAME" and has a constructor for exactly the entries that are units, tagging with that unit |
| Units.UnitConstructors | isadora/units.py:220-263 | a standard's constructor table carries the standard's name and tags each quantity with the unit its definition table gives |
| Units.SetSIStandard | isadora/units.py:350 | `_set_SI_standard` succeeds exactly for a quantity key and tags the value with its SI unit; any other name raises TypeError |
| Units.ToSI | isadora/units.py:394-415 | succeeds exactly when the upper-cased name is a quantity, else raises TypeError for "UNIT_NAME" and AttributeError otherwise; the result is in the SI unit, the input unchanged under SI and mudu's conversion from the user unit otherwise |
| Units.ToUserUnit | isadora/units.py:418-441 | succeeds exactly when the upper-cased name is a quantity, else raises TypeError; the result is in the active standard's unit, unchanged under SI and converted from SI otherwise |
| Units.SiTable | isadora/units.py:171-184 | each quantity's key is a table key, and its SI unit is the entry of `si_units` |
| Units.UscsTable | isadora/units.py:186-199 | each quantity's USCS unit is the entry of `uscs_units` |
| Units.ImperialTable | isadora/units.py:201-214 | each quantity's Imperial unit is the entry of `imperial_units` |
| Units.QuantityTables | isadora/units.py:171-214 | each quantity's key is a table key, and its unit in every standard is that table's entry |
| Units.InSI | isadora/units.py:394-415 | a conversion to SI tags with the SI unit and leaves the magnitude unchanged under SI |
| Units.InUserUnit | isadora/units.py:418-441 | a conversion to the user's unit tags with the active standard's unit and leaves the magnitude unchanged under SI |
| Units.ConversionsOfQuantities | isadora/units.py:394-441 | for every name that upper-cases to a quantity's key, `to_si` and `to_user_unit` never fail and give what `InSI` and `InUserUnit` give |
| Units.ConversionIgnoresCase | isadora/units.py:410-415 | any spelling of a name converts as its upper-cased spelling does, both ways |
| Units.SIConversionsAreIdentity | isadora/units.py:413-415 | under SI, "temperature" and "Distance" convert to the same magnitude in K and km |
| Units.UserUnitRoundTrip | isadora/units.py:394-441 | converting to the user's unit and back gives the SI value back whenever mudu's two conversions undo each other, and always under SI |
| Units.Transition | isadora/units.py:312-323 | a locked registry raises RuntimeError and stays; otherwise a name whose upper-case is in `STANDARDS` passes, recording it and locking, and any other raises ValueError and changes nothing |
| Units.Run | isadora/units.py:312-323 | calls made in order give one outcome each, and a locked registry stays as it is |
| Units.LockedRegistryRejectsAll | isadora/units.py:314-317 | once locked, every call raises RuntimeError, valid name or not, and the state stays |
| Units.StandardSetAtMostOnce | isadora/units.py:312-323 | over any sequence of calls, every call after a successful one raises RuntimeError; the final standard is the upper-cased argument of the successful call, or the initial state when none succeeded |
| Units.LowerCaseStandardsAccepted | isadora/units.py:312-323 | "si", "uscs" and "imperial" are accepted from the initial state; "metric" raises ValueError and changes nothing |
| Units.UnitRegistry.constructor | isadora/units.py:281-282 | the registry starts at "SI", unlocked |
| Units.UnitRegistry.SetUnitStandard | isadora/units.py:296-323 | upper-cases the argument; raises RuntimeError when locked, before validating; raises ValueError for an unknown name, changing nothing; otherwise records the name and locks |
| Units.UnitRegistry.GetUnits | isadora/units.py:326-335 | the constructor table of the active standard, agreeing key by key with its definition table |
| Units.UnitRegistry.GetUnitStandard | isadora/units.py:338-347 | a table with exactly the quantity keys and `UNIT_NAME`, naming the active standard, whose entry for every quantity is that quantity's unit in the active standard |
| Units.UnitRegistry.ActiveContext | isadora/units.py:410-411 | the conversions read the registry's active standard |
| Units.UnitParam.Get | isadora/units.py:375-382 | reading an unset name raises AttributeError; otherwise returns the stored value |
| Units.UnitParam.Assign | isadora/units.py:384-391 | assigning succeeds exactly for an unset name and a number; a set name raises RuntimeError before a non-number raises TypeError; success stores the value tagged with the SI unit |
| Units.UnitParam.Set | isadora/units.py:384-391 | a second assignment raises RuntimeError before the type check; a non-number raises TypeError; otherwise stores the value tagged in SI; a failure changes nothing |
| Units.UnitParam.WriteOnce | isadora/units.py:375-391 | a stored value reads back unchanged in SI, any later assignment raises RuntimeError, and the other names keep their values |
| Constants.ConstantsAreFrozen | isadora/constants.py:51-72 | after construction every descriptor-backed constant is set, and assigning any of them again raises RuntimeError; `y` is not among them |
| Constants.SeaLevelSpeedOfSound | isadora/constants.py:204 | whenever `**` returns the non-negative square root of `y R T0`, the stored `a_o` lies between 340.29 and 340.30 m/s, within the 340.3 +- 0.5 that tests/test_derived_quantities.py:9-12 expects |
| Constants.SeaLevelKinematicViscosity | isadora/constants.py:194-196 | the stored kinematic viscosity times the density is the dynamic viscosity |
| Constants.Container.constructor | isadora/constants.py:74-204 | construction leaves `y` = 1.4 and exactly the fourteen constants, each with its value and SI unit |
| Constants.AssignFresh | isadora/constants.py:82-186 | one assignment of a constant through its descriptor, on a name not yet set, adds exactly that constant in SI |
| Constants.AssignSeaLevel | isadora/constants.py:82-110 | sets the four sea-level constants in an empty dictionary |
| Constants.AssignPhysical | isadora/constants.py:118-162 | adds `g` (tagged as a speed), `R`, `R_`, `r` and `M`, then sets the plain attribute `y` to 1.4 |
| Constants.AssignThermal | isadora/constants.py:170-186 | adds `c_p`, `c_v` and `S` |
| Constants.AssignDerived | isadora/constants.py:194-204 | adds the kinematic viscosity as dynamic viscosity over density, and `a_o` as `(y R T0) ** 0.5`, from values read back |
| Base.Power | isadora/base.py:383 | float `**`: zero raised to a negative power raises ZeroDivisionError, any other case is the uninterpreted power |
| Base.IsAltitude | isadora/base.py:46-48 | the closed-interval test lo <= altitude <= hi; `ChooseAtmosphere`'s contract states the intervals it yields |
| Base.ChooseAtmosphere | isadora/base.py:406-415 | troposphere exactly on [0, 11], tropopause exactly on (11, 20], stratosphere exactly on (20, 47], a bare Exception exactly below 0 or above 47 |
| Base.ISATroposphere.constructor | isadora/base.py:252-254 | the layer holds its parent and the sea-level base temperature |
| Base.ISATroposphere.SiTemperature | isadora/base.py:261-278 | the standard's troposphere temperature at the parent's altitude, plus its offset |
| Base.ISATroposphere.Temperature | isadora/base.py:261-278 | tagged with the user's temperature unit; under SI the SI temperature |
| Base.ISATroposphere.Pressure | isadora/base.py:281-307 | tagged with the user's pressure unit; under SI the power law from sea level, with the offset in the ratio |
| Base.ISATropopause.constructor | isadora/base.py:187-188 | the layer holds its parent |
| Base.ISATropopause.SiTemperature | isadora/base.py:195-205 | 216.65 K plus the parent's offset at every altitude of the layer |
| Base.ISATropopause.Temperature | isadora/base.py:195-205 | tagged with the user's temperature unit; under SI the SI temperature |
| Base.ISATropopause.ExpNum | isadora/base.py:208-222 | the isothermal exponent from the 11 km base up to the parent's altitude: 0 at the base, negative above it and positive below |
| Base.ISATropopause.Pressure | isadora/base.py:224-235 | tagged with the user's pressure unit; under SI exponential decay from 22632.06 Pa, independent of the offset, and at the 11 km base `exp(log 22632.06)` |
| Base.ISAStratosphere.constructor | isadora/base.py:327-337 | the lower sub-layer's values exactly when 20 <= altitude <= 32, else the upper sub-layer's values, overwritten on the instance |
| Base.ISAStratosphere.SiTemperature | isadora/base.py:344-367 | the standard's temperature in the sub-layer's segment, plus the offset |
| Base.ISAStratosphere.Temperature | isadora/base.py:344-367 | tagged with the user's temperature unit; under SI the SI temperature |
| Base.ISAStratosphere.PowerLaw | isadora/base.py:370-384 | tagged with the user's pressure unit; under SI, wherever the temperature is not 0, the sub-layer's power law with the offset in the ratio |
| Base.ISAStratosphere.Pressure | isadora/base.py:370-384 | raises ZeroDivisionError exactly when the temperature read back in SI is 0, since the exponent is negative; otherwise the power law; under SI the sub-layer's pressure, failure included |
| Base.ISA.Create | isadora/base.py:484-497 | succeeds exactly when the altitude in SI has a layer, else raises Exception; stores the offset and the SI altitude and builds a fresh layer object for it, pointing back at the ISA |
| Base.ISA.FromGeometricHeight | isadora/base.py:445-462 | raises only ZeroDivisionError or Exception; under SI succeeds exactly when the geopotential height has a layer, and the result's geometric height is the given one |
| Base.ISA.GeopotentialHeight | isadora/base.py:465-482 | raises ZeroDivisionError exactly when r + h is 0; under SI the result hp satisfies hp (r + h) = r h |
| Base.ISA.Add | isadora/base.py:507-509 | adds n to the offset in place; the altitude and the layer object stay, and the temperature rises by n |
| Base.ISA.Sub | isadora/base.py:511-513 | subtracts n from the offset in place; the altitude and the layer object stay, and the temperature falls by n |
| Base.ISA.SiTemperature | isadora/base.py:195-367 | whichever layer is chosen, its temperature is the standard's at the altitude, shifted by the offset |
| Base.ISA.Temperature | isadora/base.py:499-505 | the layer's temperature, tagged with the user's unit; under SI the SI temperature in K |
| Base.ISA.PressureValue | isadora/base.py:224-384 | the layer's pressure as a value, tagged with the user's unit; under SI the standard's pressure at the altitude wherever that does not raise |
| Base.ISA.Pressure | isadora/base.py:224-384 | raises ZeroDivisionError exactly in the stratosphere at 0 K read back in SI, and is otherwise the layer's pressure value; under SI the standard's pressure at the altitude, failure included |
| Base.ISA.TemperatureInSI | isadora/base.py:529-531 | the temperature read back in SI; under SI the layer's temperature |
| Base.ISA.Density | isadora/base.py:520-533 | raises ZeroDivisionError exactly when the SI temperature is 0, from the pressure or from the division; tagged with the user's density unit; under SI, rho = P / (R T) |
| Base.ISA.TemperatureRatio | isadora/base.py:536-548 | the ratio times 288.15 is the temperature in SI |
| Base.ISA.DensityRatio | isadora/base.py:551-560 | propagates the density's error; under SI succeeds with the density 1.2250122659907 times the ratio |
| Base.ISA.PressureRatio | isadora/base.py:563-574 | fails only with ZeroDivisionError, and whenever the pressure fails; under SI succeeds exactly when the pressure does, with 101325 times the ratio equal to the pressure |
| Base.ISA.GeometricHeight | isadora/base.py:577-588 | tagged with the user's distance unit; under SI its geopotential height is the stored altitude and it is at least that altitude |
| Base.ISA.DynamicViscosity | isadora/base.py:591-607 | raises ZeroDivisionError exactly when the temperature plus S is 0; the result is tagged kg/(m s) in every standard; under SI it is Sutherland's law, mu (T + S) = mu0 (T / T0) ** 1.5 (T0 + S) |
| Base.ISA.KinematicViscosity | isadora/base.py:610-620 | succeeds exactly when both viscosity and density do and the density is nonzero; the result is tagged m^2/s and is the dynamic viscosity over the density |
| Base.ISA.SpeedOfSound | isadora/base.py:623-636 | tagged with the user's speed unit; under SI it is `(T R y) ** 0.5` of the layer's temperature |
| Base.ISA.MachNumber | isadora/base.py:638-653 | raises ZeroDivisionError exactly when the speed of sound in SI is 0; the Mach number times the speed of sound is the velocity, in SI |
| Base.ISA.DynamicPressure | isadora/base.py:655-673 | succeeds exactly when the density does; tagged with the user's pressure unit; under SI it is 0.5 rho V^2 |
| Base.SegmentsFollowLayers | isadora/base.py:406-415 | the reference profile has a segment exactly where a layer is chosen, and it is the layer's segment, the stratosphere's split at 32 km included |
| Base.TemperatureIsContinuous | isadora/base.py:195-367 | adjacent temperature formulas agree at 11, 20 and 32 km for every offset |
| Base.TroposphereTemperatures | tests/test_isadora.py:20-22 | at offset 0 the temperature is 288.15, 255.65 and 216.65 K at 0, 5 and 11 km |
| Base.TropopauseTemperatures | tests/test_isadora.py:23 | at offset 0 the temperature is 216.65 K at 16 and 20 km |
| Base.StratosphereTemperatures | tests/test_isadora.py:24-25 | at offset 0 the temperature is 221.65, 228.65, 251.05 and 270.65 K at 25, 32, 40 and 47 km |
| Base.PressureFailsOnlyAtZeroKelvin | isadora/base.py:379-383 | the standard's pressure exists wherever its temperature does, except in the stratosphere at 0 K, where it raises ZeroDivisionError |
| Base.ZeroKelvinStratosphere | isadora/base.py:379-383 | at 25 km with offset -221.65 the temperature is 0 K and the pressure raises ZeroDivisionError |
| Base.OffsetShiftsTemperature | isadora/base.py:204 | the temperature with offset n is the temperature with offset 0 plus n, and exists at the same altitudes |
| Base.LayerIgnoresOffset | isadora/base.py:675-679 | two ISA objects at the same altitude hold the same kind of layer and sub-layer, whatever their offsets |
| Base.TemperatureProfile | isadora/base.py:250 | over 0..47 km the temperature falls through the troposphere, is constant through the tropopause and rises through the stratosphere |
| Base.SpeedOfSoundAtSeaLevel | isadora/base.py:623-636 | at sea level with no offset, under SI, the speed of sound is the constants' `a_o` |
| Base.HeightRoundTrip | isadora/base.py:479-482 | for every height above the Earth's centre, the geopotential height is below r and its geometric height is the height again |
| Base.GeopotentialRoundTrip | isadora/base.py:586-588 | for every geopotential height below r, the geometric height lies above -r and converts back |
| Base.GeometricNotBelowGeopotential | tests/test_isadora.py:68-72 | for 0 <= hp < r the geometric height is at least hp, and strictly above it when hp > 0 |
| Base.TenThousandKilometresHaveNoLayer | tests/test_units_and_invariance.py:14 | a geometric height of 10000 km has no layer |

## Left out

- The mudu package is not part of this model. Unit objects are names. `convert_to` is an uninterpreted parameter, so results outside SI are stated only by their unit.
- mudu's arithmetic on unit-tagged values is not modelled. The sums, products and quotients of quantities are taken as arithmetic on their magnitudes. When a quotient's divisor is 0, the model raises ZeroDivisionError.
- `math.exp`, `math.log` and float `**` are uninterpreted parameters; only `**`'s ZeroDivisionError for zero raised to a negative power is modelled (`Base.Power`). Pressure monotonicity, hydrostatic balance and the pressure and density tables depend on their values, so they are not stated. Python's `**` on a negative float returning a complex number is also not modelled.
- Float rounding is not modelled: every value is a `real`, and the tests' tolerances are not needed.
- `ISA.__getattr__`'s reflective delegation is replaced by explicit `ISA` functions that dispatch on the layer.
- The `__repr__` methods are not modelled: they only build strings.
- The unused `AtmosphericLayer`/`IsothermalLayer` stubs are not modelled: they return `None`.
- The tropopause's class attribute `base_density` is never read by the core, so it is left out.
- `_UnitParam.__get__` on the class (`instance is None`) only returns the descriptor itself, so it is left out.
- `str.upper()` is modelled for ASCII letters only.
- The tests' reset of `UnitRegistry._locked` bypasses the registry's rules, so it is not modelled.
- The registry's fields are class fields in the source. One `UnitRegistry` object stands for them, and each conversion takes the active standard through a `Context`.
- Units.InSI: states only the unit and the SI identity, not the value outside SI. `ConversionsOfQuantities` ties it to `ToSI`, which states that value.
- Units.InUserUnit: states only the unit and the SI identity, not the value outside SI. `ConversionsOfQuantities` ties it to `ToUserUnit`, which states that value.
- Base.ISA.FromGeometricHeight: outside SI states only the error classes, because the conversions outside SI are uninterpreted.
- Base.ISA.MachNumber: outside SI relates the Mach number to the SI magnitudes only.
- Base.ISA.DynamicViscosity: outside SI states only the unit of the result, because the conversions outside SI are uninterpreted.
- Base.ISA.SpeedOfSound: outside SI states only the unit of the result.
