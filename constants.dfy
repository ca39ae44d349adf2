/** The physical and atmospheric constants: their values in SI, and the
    container object whose unit-tagged fields are each assigned exactly
    once through the write-once descriptor. */
module Constants {
  import opened Errors
  import opened Units

  // The magnitudes, in SI, that the container's fields hold.

  /** Sea-level standard temperature, K. */
  const MSL_TEMPERATURE: real := 288.15
  /** Sea-level standard pressure, Pa. */
  const MSL_PRESSURE: real := 101325.0
  /** Sea-level standard density, kg/m^3. */
  const MSL_DENSITY: real := 1.2250122659907
  /** Sea-level dynamic viscosity, kg/(m s). */
  const MSL_DYNAMIC_VISCOSITY: real := 0.000017894
  /** Sea-level kinematic viscosity, m^2/s, derived from the two above. */
  const MSL_KINEMATIC_VISCOSITY: real := MSL_DYNAMIC_VISCOSITY / MSL_DENSITY
  /** Standard gravity `g`, m/s^2. */
  const G: real := 9.80665
  /** Specific gas constant of dry air `R`, J/(kg K). */
  const R: real := 287.052874
  /** Universal gas constant `R_`, J/(mol K). */
  const R_UNIVERSAL: real := 8.314462618
  /** Mean Earth radius `r`, km. */
  const EARTH_RADIUS: real := 6371.0
  /** Molar mass of dry air `M`, kg/mol. */
  const M: real := 0.0289644
  /** Ratio of specific heats `y` (gamma), a plain number. */
  const Y: real := 1.4
  /** Specific heats `c_p` and `c_v`, J/(kg K). */
  const C_P: real := 1005.0
  const C_V: real := 718.0
  /** Sutherland's constant `S`, K. */
  const S: real := 110.4

  // The descriptors declared on the container class, with the quantity
  // each tags its value with. `g` is declared as a SPEED.

  /** The names of the container's descriptor-backed attributes. */
  datatype Field =
    | MslTemperature | MslPressure | MslDensity | MslDynamicViscosity
    | MslKinematicViscosity | Gravity | GasConstant | UniversalGasConstant
    | EarthRadius | MolarMass | SoundSpeed | HeatAtConstantPressure
    | HeatAtConstantVolume | Sutherland
  {
    /** The attribute's name in the container's `__dict__`. */
    function Attribute(): string {
      match this
      case MslTemperature => "MSL_TEMPERATURE"
      case MslPressure => "MSL_PRESSURE"
      case MslDensity => "MSL_DENSITY"
      case MslDynamicViscosity => "MSL_DYNAMIC_VISCOSITY"
      case MslKinematicViscosity => "MSL_KINEMATIC_VISCOSITY"
      case Gravity => "g"
      case GasConstant => "R"
      case UniversalGasConstant => "R_"
      case EarthRadius => "r"
      case MolarMass => "M"
      case SoundSpeed => "a_o"
      case HeatAtConstantPressure => "c_p"
      case HeatAtConstantVolume => "c_v"
      case Sutherland => "S"
    }
  }

  const MSL_TEMPERATURE_PARAM := UnitParam(MslTemperature, TEMPERATURE)
  const MSL_PRESSURE_PARAM := UnitParam(MslPressure, PRESSURE)
  const MSL_DENSITY_PARAM := UnitParam(MslDensity, DENSITY)
  const MSL_DYNAMIC_VISCOSITY_PARAM := UnitParam(MslDynamicViscosity, DYNAMIC_VISCOSITY)
  const MSL_KINEMATIC_VISCOSITY_PARAM := UnitParam(MslKinematicViscosity, KINEMATIC_VISCOSITY)
  const G_PARAM := UnitParam(Gravity, SPEED)
  const R_PARAM := UnitParam(GasConstant, SPEC_HEAT_CONSTANT)
  const R_UNIVERSAL_PARAM := UnitParam(UniversalGasConstant, UNIV_GAS_CONSTANT)
  const EARTH_RADIUS_PARAM := UnitParam(EarthRadius, DISTANCE)
  const M_PARAM := UnitParam(MolarMass, EARTH_MOLAR_MASS)
  const A_O_PARAM := UnitParam(SoundSpeed, SPEED)
  const C_P_PARAM := UnitParam(HeatAtConstantPressure, SPEC_HEAT_CONSTANT)
  const C_V_PARAM := UnitParam(HeatAtConstantVolume, SPEC_HEAT_CONSTANT)
  const S_PARAM := UnitParam(Sutherland, TEMPERATURE)

  /** Every descriptor of the container; `y` is not among them. */
  const PARAMS: seq<UnitParam<Field>> := [
    MSL_TEMPERATURE_PARAM, MSL_PRESSURE_PARAM, MSL_DENSITY_PARAM,
    MSL_DYNAMIC_VISCOSITY_PARAM, MSL_KINEMATIC_VISCOSITY_PARAM,
    G_PARAM, R_PARAM, R_UNIVERSAL_PARAM, EARTH_RADIUS_PARAM, M_PARAM,
    A_O_PARAM, C_P_PARAM, C_V_PARAM, S_PARAM
  ]

  /** The values of the prescribed fields, before the two derived ones. */
  function PrescribedEntries(): map<Field, Measure> {
    map[
      MslTemperature := Measure(MSL_TEMPERATURE, Kelvin),
      MslPressure := Measure(MSL_PRESSURE, Pascal),
      MslDensity := Measure(MSL_DENSITY, KilogramPerCubicMeter),
      MslDynamicViscosity := Measure(MSL_DYNAMIC_VISCOSITY, KilogramPerMeterSecond),
      Gravity := Measure(G, MeterPerSecond),
      GasConstant := Measure(R, JoulePerKilogramKelvin),
      UniversalGasConstant := Measure(R_UNIVERSAL, JoulePerMolKelvin),
      EarthRadius := Measure(EARTH_RADIUS, Kilometer),
      MolarMass := Measure(M, KilogramPerMol),
      HeatAtConstantPressure := Measure(C_P, JoulePerKilogramKelvin),
      HeatAtConstantVolume := Measure(C_V, JoulePerKilogramKelvin),
      Sutherland := Measure(S, Kelvin)
    ]
  }

  /** The instance dictionary once construction is complete, given the
      computed sea-level speed of sound `aO`. */
  function Entries(aO: real): map<Field, Measure> {
    PrescribedEntries()[
      MslKinematicViscosity := Measure(MSL_KINEMATIC_VISCOSITY, MeterSqrPerSecond)][
      SoundSpeed := Measure(aO, MeterPerSecond)]
  }

  /** Once built, every descriptor-backed constant is set, and assigning
      any of them again raises RuntimeError, whatever the value; `y` is a
      plain attribute and is not guarded. */
  lemma ConstantsAreFrozen(aO: real, i: nat, value: PyValue)
    requires i < |PARAMS|
    ensures PARAMS[i].Get(Entries(aO)).Success?
    ensures PARAMS[i].Assign(Entries(aO), value) == Failure(RuntimeError)
    ensures PARAMS[i].name.Attribute() != "y"
  {
  }

  /** Where the power function returns the non-negative square root of
      `y R T`, the stored sea-level speed of sound is 340.29..340.30 m/s,
      the ICAO value of about 340.3. */
  lemma SeaLevelSpeedOfSound(pow: (real, real) -> real)
    requires var root := pow(Y * R * MSL_TEMPERATURE, 0.5); root >= 0.0 && root * root == Y * R * MSL_TEMPERATURE
    ensures var aO := Entries(pow(Y * R * MSL_TEMPERATURE, 0.5))[SoundSpeed].value;
            340.29 < aO < 340.30
  {
    var aO := pow(Y * R * MSL_TEMPERATURE, 0.5);
    SquareBounds(aO, 340.29, 340.30);
  }

  /** A non-negative number whose square lies strictly between the squares
      of `lo` and `hi` lies strictly between them. */
  lemma SquareBounds(x: real, lo: real, hi: real)
    requires 0.0 <= x && 0.0 <= lo < hi
    requires lo * lo < x * x < hi * hi
    ensures lo < x < hi
  {
    assert (x - lo) * (x + lo) == x * x - lo * lo > 0.0;
    assert (hi - x) * (hi + x) == hi * hi - x * x > 0.0;
  }

  /** The stored kinematic viscosity times the density is the dynamic
      viscosity. */
  lemma SeaLevelKinematicViscosity(aO: real)
    ensures Entries(aO)[MslKinematicViscosity].value * Entries(aO)[MslDensity].value
            == Entries(aO)[MslDynamicViscosity].value
  {
  }

  /** The constants object `__Constants`; the library builds one, the
      singleton `CONSTANTS`, at import time. */
  class Container {
    /** The instance dictionary the descriptors write into. */
    const attrs: InstanceDict<Field>
    /** The plain attribute `y`, outside the descriptors' guard. */
    var y: real

    /** `__init__`: assigns every field in sequence through its descriptor,
        then derives the kinematic viscosity and the speed of sound from
        fields assigned before them. `pow` is Python's `**` on floats. */
    constructor (pow: (real, real) -> real)
      ensures fresh(attrs)
      ensures y == Y
      ensures attrs.entries == Entries(pow(Y * R * MSL_TEMPERATURE, 0.5))
    {
      attrs := new InstanceDict();
      y := 1.4;
      new;
      AssignSeaLevel(attrs);
      AssignPhysical(attrs, this);
      AssignThermal(attrs);
      AssignDerived(attrs, y, pow);
    }
  }

  /** An assignment through a descriptor whose attribute is not set yet:
      it stores the value in the quantity's SI unit. */
  method AssignFresh(param: UnitParam<Field>, attrs: InstanceDict<Field>, value: real)
    requires param.name !in attrs.entries
    modifies attrs
    ensures attrs.entries == old(attrs.entries)[param.name := Measure(value, param.quantity.Si())]
  {
    var ok := param.Set(attrs, Float(value));
  }

  // The statements of `__init__` before the two derived constants, in
  // order, in three groups; `y` is set between `M` and `c_p`.

  /** The sea-level temperature, pressure, density and dynamic viscosity. */
  method AssignSeaLevel(attrs: InstanceDict<Field>)
    requires attrs.entries == map[]
    modifies attrs
    ensures attrs.entries == map[
                MslTemperature := Measure(MSL_TEMPERATURE, Kelvin),
                MslPressure := Measure(MSL_PRESSURE, Pascal),
                MslDensity := Measure(MSL_DENSITY, KilogramPerCubicMeter),
                MslDynamicViscosity := Measure(MSL_DYNAMIC_VISCOSITY, KilogramPerMeterSecond)]
  {
    AssignFresh(MSL_TEMPERATURE_PARAM, attrs, 288.15);
    AssignFresh(MSL_PRESSURE_PARAM, attrs, 101325.0);
    AssignFresh(MSL_DENSITY_PARAM, attrs, 1.2250122659907);
    AssignFresh(MSL_DYNAMIC_VISCOSITY_PARAM, attrs, 0.000017894);
  }

  /** Gravity, the two gas constants, the Earth's radius, the molar mass,
      and then the plain attribute `y`. */
  method AssignPhysical(attrs: InstanceDict<Field>, c: Container)
    requires attrs.entries == map[
                MslTemperature := Measure(MSL_TEMPERATURE, Kelvin),
                MslPressure := Measure(MSL_PRESSURE, Pascal),
                MslDensity := Measure(MSL_DENSITY, KilogramPerCubicMeter),
                MslDynamicViscosity := Measure(MSL_DYNAMIC_VISCOSITY, KilogramPerMeterSecond)]
    modifies attrs, c
    ensures attrs.entries == map[
                MslTemperature := Measure(MSL_TEMPERATURE, Kelvin),
                MslPressure := Measure(MSL_PRESSURE, Pascal),
                MslDensity := Measure(MSL_DENSITY, KilogramPerCubicMeter),
                MslDynamicViscosity := Measure(MSL_DYNAMIC_VISCOSITY, KilogramPerMeterSecond),
                Gravity := Measure(G, MeterPerSecond),
                GasConstant := Measure(R, JoulePerKilogramKelvin),
                UniversalGasConstant := Measure(R_UNIVERSAL, JoulePerMolKelvin),
                EarthRadius := Measure(EARTH_RADIUS, Kilometer),
                MolarMass := Measure(M, KilogramPerMol)]
    ensures c.y == Y
  {
    AssignFresh(G_PARAM, attrs, 9.80665);
    AssignFresh(R_PARAM, attrs, 287.052874);
    AssignFresh(R_UNIVERSAL_PARAM, attrs, 8.314462618);
    AssignFresh(EARTH_RADIUS_PARAM, attrs, 6371.0);
    AssignFresh(M_PARAM, attrs, 0.0289644);
    c.y := 1.4;
  }

  /** The specific heats and Sutherland's constant. */
  method AssignThermal(attrs: InstanceDict<Field>)
    requires attrs.entries == map[
                MslTemperature := Measure(MSL_TEMPERATURE, Kelvin),
                MslPressure := Measure(MSL_PRESSURE, Pascal),
                MslDensity := Measure(MSL_DENSITY, KilogramPerCubicMeter),
                MslDynamicViscosity := Measure(MSL_DYNAMIC_VISCOSITY, KilogramPerMeterSecond),
                Gravity := Measure(G, MeterPerSecond),
                GasConstant := Measure(R, JoulePerKilogramKelvin),
                UniversalGasConstant := Measure(R_UNIVERSAL, JoulePerMolKelvin),
                EarthRadius := Measure(EARTH_RADIUS, Kilometer),
                MolarMass := Measure(M, KilogramPerMol)]
    modifies attrs
    ensures attrs.entries == PrescribedEntries()
  {
    AssignFresh(C_P_PARAM, attrs, 1005.0);
    AssignFresh(C_V_PARAM, attrs, 718.0);
    AssignFresh(S_PARAM, attrs, 110.4);
  }

  /** The kinematic viscosity, read back from the dynamic viscosity and the
      density, and the speed of sound, from `y`, `R` and the temperature. */
  method AssignDerived(attrs: InstanceDict<Field>, y: real, pow: (real, real) -> real)
    requires attrs.entries == PrescribedEntries()
    modifies attrs
    ensures attrs.entries == Entries(pow(y * R * MSL_TEMPERATURE, 0.5))
  {
    var dynamic := MSL_DYNAMIC_VISCOSITY_PARAM.Get(attrs.entries);
    var density := MSL_DENSITY_PARAM.Get(attrs.entries);
    AssignFresh(MSL_KINEMATIC_VISCOSITY_PARAM, attrs, dynamic.value.value / density.value.value);
    var gas := R_PARAM.Get(attrs.entries);
    var temperature := MSL_TEMPERATURE_PARAM.Get(attrs.entries);
    AssignFresh(A_O_PARAM, attrs, pow(y * gas.value.value * temperature.value.value, 0.5));
  }
}
