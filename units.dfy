/** The unit system: the three unit standards, the process-wide registry
    that selects one of them exactly once, the conversions between the
    active standard and SI, and the write-once descriptor that holds the
    physical constants.

    The unit objects and the conversions between them belong to the
    `mudu` package, whose source is not part of this model. A unit is
    therefore a name (`Unit`), and mudu's `convert_to` is a parameter
    (`Converter`) of every operation that converts. */
module Units {
  import opened Errors

  /** The mudu units named by the three unit standards. */
  datatype Unit =
    | Kelvin | Farenheit | Celsius
    | KilogramPerCubicMeter | SlugPerCubicFoot | PoundPerCubicFoot
    | Pascal | InHg | PoundPerSquareFoot
    | Kilometer | Feet
    | KilogramPerMeterSecond | SlugPerFeetSecond | PoundPerFeetSecond
    | MeterSqrPerSecond | FeetPerSqrSecond
    | MeterPerSecond | FeetPerSecond | Knot
    | KelvinPerMeter | FarenheitPerFeet | CelsiusPerFeet
    | JoulePerMolKelvin | KilogramPerMol | JoulePerKilogramKelvin

  /** A magnitude tagged with its unit, as a mudu quantity object is. */
  datatype Measure = Measure(value: real, unit: Unit)

  /** mudu's `convert_to`: the magnitude in unit `to` of `value` given in
      unit `from`. */
  type Converter = (Unit, Unit, real) -> real

  /** ASCII upper-casing of one character. */
  function UpperChar(c: char): char {
    if 'a' <= c <= 'z' then (c as int - 32) as char else c
  }

  /** `str.upper()`, restricted to ASCII letters. */
  function Upper(s: string): string {
    seq(|s|, i requires 0 <= i < |s| => UpperChar(s[i]))
  }

  /** Upper-casing twice is upper-casing once. */
  lemma UpperIdempotent(s: string)
    ensures Upper(Upper(s)) == Upper(s)
  {
    var u := Upper(s);
    forall i | 0 <= i < |u|
      ensures Upper(u)[i] == u[i]
    {
      assert u[i] == UpperChar(s[i]);
    }
  }

  // ---------------------------------------------------------------------
  // The unit-definition tables (`si_units`, `uscs_units`, `imperial_units`)
  // ---------------------------------------------------------------------

  /** A value of a unit-definition dictionary: the standard's name under
      the key "UNIT_NAME", a unit under every other key. */
  datatype Entry = UnitName(name: string) | UnitOf(unit: Unit)

  type UnitTable = map<string, Entry>

  /** The quantity keys every table defines besides "UNIT_NAME". */
  const QUANTITIES: set<string> := {
    "TEMPERATURE", "DENSITY", "PRESSURE", "DISTANCE", "DYNAMIC_VISCOSITY",
    "KINEMATIC_VISCOSITY", "SPEED", "LAPSE_RATE", "UNIV_GAS_CONSTANT",
    "EARTH_MOLAR_MASS", "SPEC_HEAT_CONSTANT"
  }

  const SI_UNITS: UnitTable := map[
    "UNIT_NAME" := UnitName("SI"),
    "TEMPERATURE" := UnitOf(Kelvin),
    "DENSITY" := UnitOf(KilogramPerCubicMeter),
    "PRESSURE" := UnitOf(Pascal),
    "DISTANCE" := UnitOf(Kilometer),
    "DYNAMIC_VISCOSITY" := UnitOf(KilogramPerMeterSecond),
    "KINEMATIC_VISCOSITY" := UnitOf(MeterSqrPerSecond),
    "SPEED" := UnitOf(MeterPerSecond),
    "LAPSE_RATE" := UnitOf(KelvinPerMeter),
    "UNIV_GAS_CONSTANT" := UnitOf(JoulePerMolKelvin),
    "EARTH_MOLAR_MASS" := UnitOf(KilogramPerMol),
    "SPEC_HEAT_CONSTANT" := UnitOf(JoulePerKilogramKelvin)
  ]

  const USCS_UNITS: UnitTable := map[
    "UNIT_NAME" := UnitName("USCS"),
    "TEMPERATURE" := UnitOf(Farenheit),
    "DENSITY" := UnitOf(SlugPerCubicFoot),
    "PRESSURE" := UnitOf(InHg),
    "DISTANCE" := UnitOf(Feet),
    "DYNAMIC_VISCOSITY" := UnitOf(SlugPerFeetSecond),
    "KINEMATIC_VISCOSITY" := UnitOf(FeetPerSqrSecond),
    "SPEED" := UnitOf(FeetPerSecond),
    "LAPSE_RATE" := UnitOf(FarenheitPerFeet),
    "UNIV_GAS_CONSTANT" := UnitOf(JoulePerMolKelvin),
    "EARTH_MOLAR_MASS" := UnitOf(KilogramPerMol),
    "SPEC_HEAT_CONSTANT" := UnitOf(JoulePerKilogramKelvin)
  ]

  const IMPERIAL_UNITS: UnitTable := map[
    "UNIT_NAME" := UnitName("IMPERIAL"),
    "TEMPERATURE" := UnitOf(Celsius),
    "DENSITY" := UnitOf(PoundPerCubicFoot),
    "PRESSURE" := UnitOf(PoundPerSquareFoot),
    "DISTANCE" := UnitOf(Feet),
    "DYNAMIC_VISCOSITY" := UnitOf(PoundPerFeetSecond),
    "KINEMATIC_VISCOSITY" := UnitOf(FeetPerSqrSecond),
    "SPEED" := UnitOf(Knot),
    "LAPSE_RATE" := UnitOf(CelsiusPerFeet),
    "UNIV_GAS_CONSTANT" := UnitOf(JoulePerMolKelvin),
    "EARTH_MOLAR_MASS" := UnitOf(KilogramPerMol),
    "SPEC_HEAT_CONSTANT" := UnitOf(JoulePerKilogramKelvin)
  ]

  /** `UnitRegistry.STANDARDS`. */
  const STANDARDS: seq<string> := ["SI", "USCS", "IMPERIAL"]

  /** A unit standard, one per name in `STANDARDS`. */
  datatype Standard = SI | USCS | IMPERIAL {
    function Name(): string {
      match this
      case SI => "SI"
      case USCS => "USCS"
      case IMPERIAL => "IMPERIAL"
    }
  }

  /** The standard a valid name in `STANDARDS` names. */
  function StandardNamed(name: string): (s: Standard)
    requires name in STANDARDS
    ensures s.Name() == name
  {
    if name == "SI" then SI else if name == "USCS" then USCS else IMPERIAL
  }

  /** `_unit_std_mapping`: the unit-definition table of a standard. */
  function UnitDefinitions(standard: Standard): (t: UnitTable)
    ensures t.Keys == QUANTITIES + {"UNIT_NAME"}
    ensures t["UNIT_NAME"] == UnitName(standard.Name())
    ensures forall key :: key in QUANTITIES ==> t[key].UnitOf?
  {
    match standard
    case SI => SiShape(); SI_UNITS
    case USCS => UscsShape(); USCS_UNITS
    case IMPERIAL => ImperialShape(); IMPERIAL_UNITS
  }

  /** A table of a standard names that standard and gives a unit to every
      quantity key. */
  predicate WellShaped(t: UnitTable, standard: string) {
    && t.Keys == QUANTITIES + {"UNIT_NAME"}
    && t["UNIT_NAME"] == UnitName(standard)
    && forall key :: key in QUANTITIES ==> t[key].UnitOf?
  }

  lemma SiShape()
    ensures WellShaped(SI_UNITS, "SI")
  {
  }

  lemma UscsShape()
    ensures WellShaped(USCS_UNITS, "USCS")
  {
  }

  lemma ImperialShape()
    ensures WellShaped(IMPERIAL_UNITS, "IMPERIAL")
  {
  }

  /** The unit a standard gives to a quantity. */
  function UnitOfQuantity(standard: Standard, key: string): Unit
    requires key in QUANTITIES
  {
    UnitDefinitions(standard)[key].unit
  }

  /** The SI unit of a quantity. */
  function SiUnit(key: string): Unit
    requires key in QUANTITIES
  {
    UnitOfQuantity(SI, key)
  }

  /** The SI unit of each quantity the model converts. */
  lemma SiUnitsOfQuantities()
    ensures SiUnit("TEMPERATURE") == Kelvin && SiUnit("PRESSURE") == Pascal
    ensures SiUnit("DENSITY") == KilogramPerCubicMeter && SiUnit("DISTANCE") == Kilometer
    ensures SiUnit("SPEED") == MeterPerSecond && SiUnit("DYNAMIC_VISCOSITY") == KilogramPerMeterSecond
    ensures SiUnit("KINEMATIC_VISCOSITY") == MeterSqrPerSecond
    ensures SiUnit("UNIV_GAS_CONSTANT") == JoulePerMolKelvin && SiUnit("EARTH_MOLAR_MASS") == KilogramPerMol
    ensures SiUnit("SPEC_HEAT_CONSTANT") == JoulePerKilogramKelvin && SiUnit("LAPSE_RATE") == KelvinPerMeter
  {
  }

  /** The physical constants' quantities carry the same unit in all three
      standards, and the three tables define the same keys. */
  lemma TablesShareConstantUnits(standard: Standard)
    ensures UnitDefinitions(standard).Keys == SI_UNITS.Keys
    ensures UnitOfQuantity(standard, "UNIV_GAS_CONSTANT") == JoulePerMolKelvin
    ensures UnitOfQuantity(standard, "EARTH_MOLAR_MASS") == KilogramPerMol
    ensures UnitOfQuantity(standard, "SPEC_HEAT_CONSTANT") == JoulePerKilogramKelvin
  {
  }

  // ---------------------------------------------------------------------
  // The unit-constructor tables (`si`, `uscs`, `imperial`, QuantityTable)
  // ---------------------------------------------------------------------

  /** The dataclass `QuantityTable`: the standard's name and, per quantity,
      the unit its constructor tags a magnitude with. */
  datatype QuantityTable = QuantityTable(unitName: string, constructors: map<string, Unit>) {

    /** `getattr(table, name)(x)`: the name "UNIT_NAME" yields a string,
        which is not callable; any other name that is not a field fails. */
    function Construct(name: string, x: real): (r: Result<Measure>)
      ensures r.Success? <==> name != "UNIT_NAME" && name in constructors
      ensures r.Success? ==> r.value == Measure(x, constructors[name])
      ensures r.Failure? ==> r.error == (if name == "UNIT_NAME" then TypeError else AttributeError)
    {
      if name == "UNIT_NAME" then Failure(TypeError)
      else if name in constructors then Success(Measure(x, constructors[name]))
      else Failure(AttributeError)
    }
  }

  /** Builds a constructor table from a unit-definition table, as the
      dictionaries `si`, `uscs` and `imperial` are built entry by entry. */
  function MakeQuantityTable(defs: UnitTable): (t: QuantityTable)
    requires "UNIT_NAME" in defs && defs["UNIT_NAME"].UnitName?
    ensures t.unitName == defs["UNIT_NAME"].name
    ensures forall key :: key in t.constructors <==> key in defs && defs[key].UnitOf?
    ensures forall key :: key in t.constructors ==> defs[key] == UnitOf(t.constructors[key])
  {
    QuantityTable(defs["UNIT_NAME"].name,
                  map key | key in defs && defs[key].UnitOf? :: defs[key].unit)
  }

  /** `_unit_mapping`: the constructor table of a standard. */
  function UnitConstructors(standard: Standard): (t: QuantityTable)
    ensures t.unitName == standard.Name()
    ensures t.constructors.Keys == QUANTITIES
    ensures forall key :: key in QUANTITIES ==> t.constructors[key] == UnitOfQuantity(standard, key)
  {
    MakeQuantityTable(UnitDefinitions(standard))
  }

  /** `_set_SI_standard(quantity, value)`, i.e. `si.get(quantity)(value)`:
      a missing key yields `None` and "UNIT_NAME" yields a string, and
      calling either raises TypeError. */
  function SetSIStandard(quantity: string, value: real): (r: Result<Measure>)
    ensures r.Success? <==> quantity in QUANTITIES
    ensures r.Success? ==> r.value == Measure(value, SiUnit(quantity))
    ensures r.Failure? ==> r.error == TypeError
  {
    if quantity !in SI_UNITS then Failure(TypeError)
    else match SI_UNITS[quantity]
      case UnitName(_) => Failure(TypeError)
      case UnitOf(unit) => Success(Measure(value, unit))
  }

  // ---------------------------------------------------------------------
  // Conversions (`to_si`, `to_user_unit`)
  // ---------------------------------------------------------------------

  /** What a conversion needs: the registry's active standard (its
      `_unit_standard`) and mudu's conversion. */
  datatype Context = Context(standard: Standard, convert: Converter)

  /** `to_si(x, quantity)`: reads `x` in the active standard's unit for the
      quantity and, outside SI, converts it to the SI unit. */
  function ToSI(u: Context, x: real, quantity: string): (r: Result<Measure>)
    ensures r.Success? <==> Upper(quantity) in QUANTITIES
    ensures r.Failure? ==> r.error == (if Upper(quantity) == "UNIT_NAME" then TypeError else AttributeError)
    ensures r.Success? ==> r.value.unit == SiUnit(Upper(quantity))
    ensures r.Success? && u.standard == SI ==> r.value.value == x
    ensures r.Success? && u.standard != SI ==>
              r.value.value == u.convert(UnitOfQuantity(u.standard, Upper(quantity)), SiUnit(Upper(quantity)), x)
  {
    var key := Upper(quantity);
    var val :- UnitConstructors(u.standard).Construct(key, x);
    if UnitDefinitions(u.standard)["UNIT_NAME"] != UnitName("SI") then
      Success(Measure(u.convert(val.unit, SiUnit(key), val.value), SiUnit(key)))
    else
      Success(val)
  }

  /** `to_user_unit(x, quantity)`: tags the SI magnitude `x` and, outside
      SI, converts it to the USCS unit when the standard is "USCS" and to
      the Imperial unit otherwise. */
  function ToUserUnit(u: Context, x: real, quantity: string): (r: Result<Measure>)
    ensures r.Success? <==> Upper(quantity) in QUANTITIES
    ensures r.Failure? ==> r.error == TypeError
    ensures r.Success? ==> r.value.unit == UnitOfQuantity(u.standard, Upper(quantity))
    ensures r.Success? && u.standard == SI ==> r.value.value == x
    ensures r.Success? && u.standard != SI ==>
              r.value.value == u.convert(SiUnit(Upper(quantity)), UnitOfQuantity(u.standard, Upper(quantity)), x)
  {
    var key := Upper(quantity);
    var value :- SetSIStandard(key, x);
    var userStd := UnitDefinitions(u.standard)["UNIT_NAME"].name;
    if userStd == "SI" then
      Success(value)
    else
      var std := if userStd == "USCS" then USCS_UNITS else IMPERIAL_UNITS;
      Success(Measure(u.convert(value.unit, std[key].unit, value.value), std[key].unit))
  }

  /** A quantity named by its table key, for callers that spell the key
      out in upper case (as every caller inside the library does).

      `Si`, `Uscs` and `Imperial` give the quantity's unit in each
      standard by a match on the quantity rather than by a lookup of the
      key in the string-keyed tables above, which stay as the source's
      dictionaries are. Reasoning about the layers then needs no string
      comparisons; `SiTable`, `UscsTable` and `ImperialTable` prove that
      both give the same unit. */
  datatype Quantity =
    | TEMPERATURE | DENSITY | PRESSURE | DISTANCE | DYNAMIC_VISCOSITY
    | KINEMATIC_VISCOSITY | SPEED | LAPSE_RATE | UNIV_GAS_CONSTANT
    | EARTH_MOLAR_MASS | SPEC_HEAT_CONSTANT
  {
    /** The key the tables file the quantity under. */
    function Key(): string {
      match this
      case TEMPERATURE => "TEMPERATURE"
      case DENSITY => "DENSITY"
      case PRESSURE => "PRESSURE"
      case DISTANCE => "DISTANCE"
      case DYNAMIC_VISCOSITY => "DYNAMIC_VISCOSITY"
      case KINEMATIC_VISCOSITY => "KINEMATIC_VISCOSITY"
      case SPEED => "SPEED"
      case LAPSE_RATE => "LAPSE_RATE"
      case UNIV_GAS_CONSTANT => "UNIV_GAS_CONSTANT"
      case EARTH_MOLAR_MASS => "EARTH_MOLAR_MASS"
      case SPEC_HEAT_CONSTANT => "SPEC_HEAT_CONSTANT"
    }

    /** The quantity's unit in `si_units`. */
    function Si(): Unit {
      match this
      case TEMPERATURE => Kelvin
      case DENSITY => KilogramPerCubicMeter
      case PRESSURE => Pascal
      case DISTANCE => Kilometer
      case DYNAMIC_VISCOSITY => KilogramPerMeterSecond
      case KINEMATIC_VISCOSITY => MeterSqrPerSecond
      case SPEED => MeterPerSecond
      case LAPSE_RATE => KelvinPerMeter
      case UNIV_GAS_CONSTANT => JoulePerMolKelvin
      case EARTH_MOLAR_MASS => KilogramPerMol
      case SPEC_HEAT_CONSTANT => JoulePerKilogramKelvin
    }

    /** The quantity's unit in `uscs_units`. */
    function Uscs(): Unit {
      match this
      case TEMPERATURE => Farenheit
      case DENSITY => SlugPerCubicFoot
      case PRESSURE => InHg
      case DISTANCE => Feet
      case DYNAMIC_VISCOSITY => SlugPerFeetSecond
      case KINEMATIC_VISCOSITY => FeetPerSqrSecond
      case SPEED => FeetPerSecond
      case LAPSE_RATE => FarenheitPerFeet
      case UNIV_GAS_CONSTANT => JoulePerMolKelvin
      case EARTH_MOLAR_MASS => KilogramPerMol
      case SPEC_HEAT_CONSTANT => JoulePerKilogramKelvin
    }

    /** The quantity's unit in `imperial_units`. */
    function Imperial(): Unit {
      match this
      case TEMPERATURE => Celsius
      case DENSITY => PoundPerCubicFoot
      case PRESSURE => PoundPerSquareFoot
      case DISTANCE => Feet
      case DYNAMIC_VISCOSITY => PoundPerFeetSecond
      case KINEMATIC_VISCOSITY => FeetPerSqrSecond
      case SPEED => Knot
      case LAPSE_RATE => CelsiusPerFeet
      case UNIV_GAS_CONSTANT => JoulePerMolKelvin
      case EARTH_MOLAR_MASS => KilogramPerMol
      case SPEC_HEAT_CONSTANT => JoulePerKilogramKelvin
    }

    /** The quantity's unit in a standard's table. */
    function In(standard: Standard): Unit {
      match standard
      case SI => Si()
      case USCS => Uscs()
      case IMPERIAL => Imperial()
    }
  }

  /** Each quantity's key is one of the tables' keys, and the units above
      are the entries `si_units` files under it. */
  lemma SiTable(q: Quantity)
    ensures q.Key() in QUANTITIES
    ensures q.Si() == SiUnit(q.Key()) == UnitOfQuantity(SI, q.Key())
  {
  }

  /** The units above are the entries `uscs_units` files under the keys. */
  lemma UscsTable(q: Quantity)
    ensures q.Uscs() == UnitOfQuantity(USCS, q.Key())
  {
  }

  /** The units above are the entries `imperial_units` files under the keys. */
  lemma ImperialTable(q: Quantity)
    ensures q.Imperial() == UnitOfQuantity(IMPERIAL, q.Key())
  {
  }

  /** The unit of a quantity in each standard is the table's entry. */
  lemma QuantityTables(q: Quantity, standard: Standard)
    ensures q.Key() in QUANTITIES
    ensures q.Si() == SiUnit(q.Key())
    ensures q.In(standard) == UnitOfQuantity(standard, q.Key())
  {
    SiTable(q);
    match standard
    case SI =>
    case USCS => UscsTable(q);
    case IMPERIAL => ImperialTable(q);
  }

  /** Every quantity's entry in a standard's definition table is its unit
      in that standard. */
  lemma DefinitionsOfQuantities(standard: Standard)
    ensures forall q: Quantity :: q.Key() in QUANTITIES && UnitDefinitions(standard)[q.Key()] == UnitOf(q.In(standard))
  {
    forall q: Quantity
      ensures q.Key() in QUANTITIES && UnitDefinitions(standard)[q.Key()] == UnitOf(q.In(standard))
    {
      QuantityTables(q, standard);
    }
  }

  /** `to_si(x, q.Key())`. */
  function InSI(u: Context, x: real, q: Quantity): (m: Measure)
    ensures m.unit == q.Si()
    ensures u.standard == SI ==> m.value == x
  {
    if u.standard == SI then Measure(x, q.Si())
    else Measure(u.convert(q.In(u.standard), q.Si(), x), q.Si())
  }

  /** `to_user_unit(x, q.Key())`. */
  function InUserUnit(u: Context, x: real, q: Quantity): (m: Measure)
    ensures m.unit == q.In(u.standard)
    ensures u.standard == SI ==> m.value == x
  {
    if u.standard == SI then Measure(x, q.Si())
    else Measure(u.convert(q.Si(), q.In(u.standard), x), q.In(u.standard))
  }

  /** The two agree with `to_si` and `to_user_unit` on every spelling of
      the quantity's key: neither fails. */
  lemma ConversionsOfQuantities(u: Context, x: real, q: Quantity, name: string)
    requires Upper(name) == q.Key()
    ensures ToSI(u, x, name) == Success(InSI(u, x, q))
    ensures ToUserUnit(u, x, name) == Success(InUserUnit(u, x, q))
  {
    QuantityTables(q, u.standard);
    QuantityTables(q, SI);
  }

  /** Quantity names are upper-cased before lookup, so any spelling that
      upper-cases to the same name converts alike. */
  lemma ConversionIgnoresCase(u: Context, x: real, quantity: string)
    ensures ToSI(u, x, quantity) == ToSI(u, x, Upper(quantity))
    ensures ToUserUnit(u, x, quantity) == ToUserUnit(u, x, Upper(quantity))
  {
    UpperIdempotent(quantity);
  }

  /** Under SI both conversions return the magnitude unchanged, tagged with
      the SI unit; "temperature" and "TEMPERATURE" are the same name. */
  lemma SIConversionsAreIdentity(u: Context, x: real)
    requires u.standard == SI
    ensures ToSI(u, x, "temperature") == Success(Measure(x, Kelvin))
    ensures ToUserUnit(u, x, "Distance") == Success(Measure(x, Kilometer))
  {
    assert Upper("temperature") == "TEMPERATURE";
    assert Upper("Distance") == "DISTANCE";
    SiUnitsOfQuantities();
  }

  /** Converting to the user's unit and back is the identity whenever the
      two mudu conversions it uses undo each other; under SI it always is. */
  lemma UserUnitRoundTrip(u: Context, x: real, quantity: string)
    requires Upper(quantity) in QUANTITIES
    requires u.standard != SI ==>
               var user := UnitOfQuantity(u.standard, Upper(quantity));
               var si := SiUnit(Upper(quantity));
               u.convert(user, si, u.convert(si, user, x)) == x
    ensures ToUserUnit(u, x, quantity).Success?
    ensures ToSI(u, ToUserUnit(u, x, quantity).value.value, quantity) == Success(Measure(x, SiUnit(Upper(quantity))))
  {
  }

  // ---------------------------------------------------------------------
  // UnitRegistry
  // ---------------------------------------------------------------------

  /** The registry's two class fields `_unit_standard` and `_locked`. */
  datatype RegistryState = RegistryState(unitStandard: string, locked: bool)

  /** The state at import time: SI, unlocked. */
  const INITIAL_REGISTRY: RegistryState := RegistryState("SI", false)

  /** `set_unit_standard(standard)` as a transition: the argument is
      upper-cased first, the lock is checked before the name is validated,
      and only a successful call changes the state, recording the name and
      locking. */
  function Transition(s: RegistryState, standard: string): (r: (Outcome, RegistryState))
    ensures s.locked ==> r == (Fail(RuntimeError), s)
    ensures r.0 == Pass <==> !s.locked && Upper(standard) in STANDARDS
    ensures r.0 == Fail(ValueError) <==> !s.locked && Upper(standard) !in STANDARDS
    ensures r.0 == Pass ==> r.1 == RegistryState(Upper(standard), true)
    ensures r.0 != Pass ==> r.1 == s
  {
    var name := Upper(standard);
    if s.locked then (Fail(RuntimeError), s)
    else if name !in STANDARDS then (Fail(ValueError), s)
    else (Pass, RegistryState(name, true))
  }

  /** The outcomes and the final state of a sequence of calls of
      `set_unit_standard`, made in order. */
  function Run(s: RegistryState, calls: seq<string>): (r: (seq<Outcome>, RegistryState))
    ensures |r.0| == |calls|
    ensures s.locked ==> r.1 == s
    decreases |calls|
  {
    if calls == [] then ([], s)
    else
      var (first, next) := Transition(s, calls[0]);
      var (rest, final) := Run(next, calls[1..]);
      ([first] + rest, final)
  }

  /** Once locked, every call, valid or not, raises RuntimeError and
      changes nothing. */
  lemma {:induction false} LockedRegistryRejectsAll(s: RegistryState, calls: seq<string>)
    requires s.locked
    ensures |Run(s, calls).0| == |calls|
    ensures Run(s, calls).1 == s
    ensures forall i :: 0 <= i < |calls| ==> Run(s, calls).0[i] == Fail(RuntimeError)
    decreases |calls|
  {
    if calls != [] {
      LockedRegistryRejectsAll(s, calls[1..]);
    }
  }

  /** The standard is set at most once: after the first successful call
      every later one raises RuntimeError, and the final standard is the
      upper-cased argument of the successful call, or the starting
      standard when no call succeeded. */
  lemma {:induction false} StandardSetAtMostOnce(s: RegistryState, calls: seq<string>)
    ensures |Run(s, calls).0| == |calls|
    ensures forall i, j :: 0 <= i < j < |calls| && Run(s, calls).0[i] == Pass ==>
              Run(s, calls).0[j] == Fail(RuntimeError)
    ensures forall i :: 0 <= i < |calls| && Run(s, calls).0[i] == Pass ==>
              Run(s, calls).1 == RegistryState(Upper(calls[i]), true)
    ensures Pass !in Run(s, calls).0 ==> Run(s, calls).1 == s
    decreases |calls|
  {
    if calls != [] {
      var (first, next) := Transition(s, calls[0]);
      StandardSetAtMostOnce(next, calls[1..]);
      if first == Pass {
        LockedRegistryRejectsAll(next, calls[1..]);
      }
      var outs := Run(s, calls).0;
      assert outs == [first] + Run(next, calls[1..]).0;
      forall i | 0 <= i < |calls| && outs[i] == Pass
        ensures Run(s, calls).1 == RegistryState(Upper(calls[i]), true)
      {
        if i > 0 {
          assert Run(next, calls[1..]).0[i - 1] == Pass;
        }
      }
    }
  }

  /** The lower-case spellings are accepted from the initial state. */
  lemma LowerCaseStandardsAccepted()
    ensures Transition(INITIAL_REGISTRY, "si") == (Pass, RegistryState("SI", true))
    ensures Transition(INITIAL_REGISTRY, "uscs") == (Pass, RegistryState("USCS", true))
    ensures Transition(INITIAL_REGISTRY, "imperial") == (Pass, RegistryState("IMPERIAL", true))
    ensures Transition(INITIAL_REGISTRY, "metric") == (Fail(ValueError), INITIAL_REGISTRY)
  {
    assert Upper("si") == "SI";
    assert Upper("uscs") == "USCS";
    assert Upper("imperial") == "IMPERIAL";
  }

  /** The process-wide registry. Its two fields are class fields in the
      library; one instance of this class stands for them. */
  class UnitRegistry {
    var unitStandard: string
    var locked: bool

    /** The class fields' defaults. */
    constructor ()
      ensures State() == INITIAL_REGISTRY
    {
      unitStandard, locked := "SI", false;
    }

    ghost predicate Valid()
      reads this
    {
      unitStandard in STANDARDS
    }

    function State(): RegistryState
      reads this
    {
      RegistryState(unitStandard, locked)
    }

    /** `set_unit_standard`. */
    method SetUnitStandard(standard: string) returns (r: Outcome)
      requires Valid()
      modifies this
      ensures Valid()
      ensures (r, State()) == Transition(old(State()), standard)
    {
      var name := Upper(standard);
      if locked {
        return Fail(RuntimeError);
      }
      if name !in STANDARDS {
        return Fail(ValueError);
      }
      unitStandard := name;
      locked := true;
      r := Pass;
    }

    /** `get_units`: the constructor table of the active standard. */
    function GetUnits(): (t: QuantityTable)
      reads this
      requires Valid()
      ensures t.unitName == unitStandard
      ensures forall key :: key in QUANTITIES ==>
                key in t.constructors && GetUnitStandard()[key] == UnitOf(t.constructors[key])
    {
      UnitConstructors(StandardNamed(unitStandard))
    }

    /** `get_unit_standard`: the unit-definition table of the active
        standard. */
    function GetUnitStandard(): (t: UnitTable)
      reads this
      requires Valid()
      ensures WellShaped(t, unitStandard)
      ensures forall q: Quantity :: q.Key() in t && t[q.Key()] == UnitOf(q.In(StandardNamed(unitStandard)))
    {
      DefinitionsOfQuantities(StandardNamed(unitStandard));
      UnitDefinitions(StandardNamed(unitStandard))
    }

    /** The conversion context of the active standard. */
    function ActiveContext(convert: Converter): (u: Context)
      reads this
      requires Valid()
      ensures u.standard.Name() == unitStandard
    {
      Context(StandardNamed(unitStandard), convert)
    }
  }

  // ---------------------------------------------------------------------
  // _UnitParam
  // ---------------------------------------------------------------------

  /** The Python values a descriptor may be assigned; `bool` is a subclass
      of `int`, so it passes the type check. */
  datatype PyValue = Int(i: int) | Float(f: real) | Bool(b: bool) | NonNumeric {

    /** `isinstance(value, (int, float))`. */
    predicate IsNumber() {
      !NonNumeric?
    }

    function AsReal(): real
      requires IsNumber()
    {
      match this
      case Int(i) => i as real
      case Float(f) => f
      case Bool(b) => if b then 1.0 else 0.0
    }
  }

  /** An object's `__dict__`, restricted to the descriptor-managed names,
      which are of type `K`. */
  class InstanceDict<K(==)> {
    var entries: map<K, Measure>

    constructor ()
      ensures entries == map[]
    {
      entries := map[];
    }
  }

  /** The descriptor `_UnitParam(name, quantity)`: the attribute it guards
      and the quantity whose SI unit tags the stored value. */
  datatype UnitParam<K(==)> = UnitParam(name: K, quantity: Quantity) {

    /** `__get__` on an instance: reading a name never set raises
        AttributeError. */
    function Get(entries: map<K, Measure>): (r: Result<Measure>)
      ensures r.Success? <==> name in entries
      ensures r.Success? ==> r.value == entries[name]
      ensures r.Failure? ==> r.error == AttributeError
    {
      if name !in entries then Failure(AttributeError) else Success(entries[name])
    }

    /** What `__set__` does to the instance dictionary: a second
        assignment raises RuntimeError before the value's type is checked,
        a non-number raises TypeError, and a first numeric assignment
        stores the value tagged with the quantity's SI unit. */
    function Assign(entries: map<K, Measure>, value: PyValue): (r: Result<map<K, Measure>>)
      ensures r.Success? <==> name !in entries && value.IsNumber()
      ensures r.Failure? ==> r.error == (if name in entries then RuntimeError else TypeError)
      ensures r.Success? ==> r.value == entries[name := Measure(value.AsReal(), quantity.Si())]
    {
      if name in entries then Failure(RuntimeError)
      else if !value.IsNumber() then Failure(TypeError)
      else Success(entries[name := Measure(value.AsReal(), quantity.Si())])
    }

    /** `__set__`. */
    method Set(instance: InstanceDict<K>, value: PyValue) returns (r: Outcome)
      modifies instance
      ensures name in old(instance.entries) ==>
                r == Fail(RuntimeError) && instance.entries == old(instance.entries)
      ensures name !in old(instance.entries) && !value.IsNumber() ==>
                r == Fail(TypeError) && instance.entries == old(instance.entries)
      ensures name !in old(instance.entries) && value.IsNumber() ==>
                r == Pass && instance.entries == old(instance.entries)[name := Measure(value.AsReal(), quantity.Si())]
      ensures Assign(old(instance.entries), value) ==
                if r == Pass then Success(instance.entries) else Failure(r.error)
    {
      if name in instance.entries {
        return Fail(RuntimeError);
      }
      if !value.IsNumber() {
        return Fail(TypeError);
      }
      instance.entries := instance.entries[name := Measure(value.AsReal(), quantity.Si())];
      r := Pass;
    }

    /** A successful assignment is read back unchanged, in SI, and the
        name can never be assigned again, whatever the new value. */
    lemma WriteOnce(entries: map<K, Measure>, value: PyValue, again: PyValue)
      requires Assign(entries, value).Success?
      ensures Get(Assign(entries, value).value) == Success(Measure(value.AsReal(), quantity.Si()))
      ensures Assign(Assign(entries, value).value, again) == Failure(RuntimeError)
      ensures forall other :: other in entries && other != name ==>
                other in Assign(entries, value).value && Assign(entries, value).value[other] == entries[other]
    {
    }
  }
}
