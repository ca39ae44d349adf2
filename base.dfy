/** The International Standard Atmosphere from sea level to 47 km of
    geopotential altitude: the choice of layer, the layer objects and their
    temperature and pressure, and the `ISA` object with the quantities
    derived from them.

    Altitudes are geopotential and in km, as the SI distance unit of the
    library is the kilometre; temperatures are in K. `math.exp`,
    `math.log` and Python's float `**` are parameters (`Math`), left
    uninterpreted. */
module Base {
  import opened Errors
  import opened Units
  import opened Constants

  /** Python's float `**` and `math.exp`, `math.log`. */
  datatype Math = Math(pow: (real, real) -> real, exp: real -> real, log: real -> real)

  /** Python's `base ** exponent` on floats: zero raised to a negative
      power raises ZeroDivisionError; any other value is `pow`'s. */
  function Power(m: Math, base: real, exponent: real): Result<real> {
    if base == 0.0 && exponent < 0.0 then Failure(ZeroDivisionError)
    else Success(m.pow(base, exponent))
  }

  // ---------------------------------------------------------------------
  // The temperature profile of the standard, as reference
  // ---------------------------------------------------------------------

  /** A segment of the standard's profile: from `baseHeight` (km) upwards
      the temperature starts at `baseTemperature` (K) and changes by
      `lapseRate` (K per m); `basePressure` (Pa) is the pressure at the
      segment's base. */
  datatype Segment = Segment(baseHeight: real, baseTemperature: real, basePressure: real, lapseRate: real)

  // These repeat the layer classes' own constants on purpose: the
  // reference is written independently of the classes, and
  // `SegmentsFollowLayers` and the layers' contracts prove the two agree.
  const TROPOSPHERE_SEGMENT := Segment(0.0, 288.15, 101325.0, -0.0065)
  const TROPOPAUSE_SEGMENT := Segment(11.0, 216.65, 22632.06, 0.0)
  const LOWER_STRATOSPHERE_SEGMENT := Segment(20.0, 216.65, 5474.89, 0.001)
  const UPPER_STRATOSPHERE_SEGMENT := Segment(32.0, 228.65, 868.02, 0.0028)

  /** The segment an altitude belongs to; a boundary altitude belongs to
      the segment below it, and there is none outside 0..47 km. */
  function SegmentAt(altitude: real): Result<Segment> {
    if 0.0 <= altitude <= 11.0 then Success(TROPOSPHERE_SEGMENT)
    else if 11.0 < altitude <= 20.0 then Success(TROPOPAUSE_SEGMENT)
    else if 20.0 < altitude <= 32.0 then Success(LOWER_STRATOSPHERE_SEGMENT)
    else if 32.0 < altitude <= 47.0 then Success(UPPER_STRATOSPHERE_SEGMENT)
    else Failure(Exception)
  }

  /** The temperature, K, in segment `s` at `altitude`, shifted by `offset`. */
  function SegmentTemperature(s: Segment, altitude: real, offset: real): real {
    s.baseTemperature + s.lapseRate * (altitude - s.baseHeight) * 1000.0 + offset
  }

  /** The temperature, K, of the standard at `altitude`, shifted by `offset`. */
  function StandardTemperature(altitude: real, offset: real): Result<real> {
    var s :- SegmentAt(altitude);
    Success(SegmentTemperature(s, altitude, offset))
  }

  /** The exponent of the power law in a segment with a gradient. */
  function GradientExponent(lapseRate: real): real
    requires lapseRate != 0.0
  {
    -1.0 * G / (R * lapseRate)
  }

  /** The increment of the pressure's logarithm from the base of an
      isothermal segment up to `altitude`. */
  function IsothermalExponent(s: Segment, altitude: real): real
    requires s.baseTemperature != 0.0
  {
    (-1.0 * G / (R * s.baseTemperature)) * ((altitude - s.baseHeight) * 1000.0)
  }

  /** The pressure, Pa, in segment `s` at `altitude`: exponential decay in
      an isothermal segment, the power law in the temperature ratio in a
      gradient segment, where the ratio includes the offset. */
  function SegmentPressure(m: Math, s: Segment, altitude: real, offset: real): Result<real>
    requires s.baseTemperature != 0.0
  {
    if s.lapseRate == 0.0 then
      Success(m.exp(m.log(s.basePressure) + IsothermalExponent(s, altitude)))
    else
      var power :- Power(m, SegmentTemperature(s, altitude, offset) / s.baseTemperature, GradientExponent(s.lapseRate));
      Success(s.basePressure * power)
  }

  /** The pressure, Pa, of the standard at `altitude`; it fails only
      outside 0..47 km. */
  function StandardPressure(m: Math, altitude: real, offset: real): Result<real> {
    var s :- SegmentAt(altitude);
    SegmentPressure(m, s, altitude, offset)
  }

  // ---------------------------------------------------------------------
  // Layer selection (`_is_altitude`, `_choose_atmosphere`)
  // ---------------------------------------------------------------------

  /** `_is_altitude(altitude, limit)`: `limit[0] <= altitude <= limit[1]`. */
  predicate IsAltitude(altitude: real, lo: real, hi: real) {
    altitude <= hi && altitude >= lo
  }

  /** The three layer classes `_choose_atmosphere` returns. */
  datatype LayerKind = Troposphere | Tropopause | Stratosphere

  /** `_choose_atmosphere(altitude)`: the first of the closed intervals
      [0, 11], [11, 20], [20, 47] that holds the altitude, so that each
      boundary goes to the lower layer; any other altitude raises a bare
      Exception. */
  function ChooseAtmosphere(altitude: real): (r: Result<LayerKind>)
    ensures r == Success(Troposphere) <==> 0.0 <= altitude <= 11.0
    ensures r == Success(Tropopause) <==> 11.0 < altitude <= 20.0
    ensures r == Success(Stratosphere) <==> 20.0 < altitude <= 47.0
    ensures r == Failure(Exception) <==> altitude < 0.0 || 47.0 < altitude
  {
    if IsAltitude(altitude, 0.0, 11.0) then Success(Troposphere)
    else if IsAltitude(altitude, 11.0, 20.0) then Success(Tropopause)
    else if IsAltitude(altitude, 20.0, 47.0) then Success(Stratosphere)
    else Failure(Exception)
  }

  // ---------------------------------------------------------------------
  // The layer objects
  // ---------------------------------------------------------------------

  /** The layer object an `ISA` holds in `atmosphere`: none (the class
      attribute `atmosphere = None`) until `__init__` has chosen one. */
  datatype Layer =
    | NoLayer
    | Tropo(tropo: ISATroposphere)
    | Pause(pause: ISATropopause)
    | Strat(strat: ISAStratosphere)
  {
    function Objects(): set<object> {
      match this
      case NoLayer => {}
      case Tropo(t) => {t}
      case Pause(p) => {p}
      case Strat(s) => {s}
    }
  }

  /** `ISATroposphere`: the temperature falls linearly from the sea-level
      value, which `__init__` copies into the instance. */
  class ISATroposphere {
    static const LAPSE_RATE: real := -0.0065

    const parent: ISA
    const baseTemperature: real

    constructor (parent: ISA)
      ensures this.parent == parent && baseTemperature == MSL_TEMPERATURE
    {
      this.parent := parent;
      baseTemperature := MSL_TEMPERATURE;
    }

    /** The temperature in SI, offset included, before `to_user_unit`. */
    function SiTemperature(): (t: real)
      reads parent
      ensures baseTemperature == MSL_TEMPERATURE ==>
                t == SegmentTemperature(TROPOSPHERE_SEGMENT, parent.altitude, parent.offset)
    {
      baseTemperature + LAPSE_RATE * parent.altitude * 1000.0 + parent.offset
    }

    /** `temperature`. */
    function Temperature(u: Context): (t: Measure)
      reads parent
      ensures t.unit == TEMPERATURE.In(u.standard)
      ensures u.standard == SI ==> t.value == SiTemperature()
    {
      InUserUnit(u, SiTemperature(), TEMPERATURE)
    }

    /** `pressure`: the sea-level pressure times the power of the ratio of
        the temperature, read back in SI, to the base temperature. */
    function Pressure(u: Context, m: Math): (p: Measure)
      reads parent
      requires baseTemperature == MSL_TEMPERATURE
      ensures p.unit == PRESSURE.In(u.standard)
      ensures u.standard == SI ==>
                SegmentPressure(m, TROPOSPHERE_SEGMENT, parent.altitude, parent.offset) == Success(p.value)
    {
      var ratio := InSI(u, Temperature(u).value, TEMPERATURE).value / baseTemperature;
      var exp := -1.0 * G / (R * LAPSE_RATE);
      // The exponent is positive, so `**` does not raise here.
      assert exp > 0.0;
      InUserUnit(u, MSL_PRESSURE * m.pow(ratio, exp), PRESSURE)
    }
  }

  /** `ISATropopause`: isothermal at its base temperature. */
  class ISATropopause {
    static const BASE_TEMPERATURE: real := 216.65
    static const BASE_PRESSURE: real := 22632.06
    static const BASE_HEIGHT: real := 11.0

    const parent: ISA

    constructor (parent: ISA)
      ensures this.parent == parent
    {
      this.parent := parent;
    }

    /** The temperature in SI, offset included, before `to_user_unit`. */
    function SiTemperature(): (t: real)
      reads parent
      ensures t == SegmentTemperature(TROPOPAUSE_SEGMENT, parent.altitude, parent.offset)
    {
      BASE_TEMPERATURE + parent.offset
    }

    function Temperature(u: Context): (t: Measure)
      reads parent
      ensures t.unit == TEMPERATURE.In(u.standard)
      ensures u.standard == SI ==> t.value == SiTemperature()
    {
      InUserUnit(u, SiTemperature(), TEMPERATURE)
    }

    /** `__exp_num`: the exponent's increment over the base height. It is
        0 at the 11 km base, so the pressure there is the base pressure,
        and negative above it, so the pressure decays with height. */
    function ExpNum(): (e: real)
      reads parent
      ensures e == IsothermalExponent(TROPOPAUSE_SEGMENT, parent.altitude)
      ensures parent.altitude == BASE_HEIGHT ==> e == 0.0
      ensures parent.altitude > BASE_HEIGHT ==> e < 0.0
      ensures parent.altitude < BASE_HEIGHT ==> e > 0.0
    {
      var heightDiff := (parent.altitude - BASE_HEIGHT) * 1000.0;
      var num := -1.0 * G / (R * BASE_TEMPERATURE);
      num * heightDiff
    }

    /** `pressure`: exponential decay from the base pressure; the offset
        does not enter. */
    function Pressure(u: Context, m: Math): (p: Measure)
      reads parent
      ensures p.unit == PRESSURE.In(u.standard)
      ensures u.standard == SI ==>
                SegmentPressure(m, TROPOPAUSE_SEGMENT, parent.altitude, parent.offset) == Success(p.value)
      ensures u.standard == SI && parent.altitude == BASE_HEIGHT ==> p.value == m.exp(m.log(BASE_PRESSURE))
    {
      var logPressure := m.log(BASE_PRESSURE) + ExpNum();
      InUserUnit(u, m.exp(logPressure), PRESSURE)
    }
  }

  /** `ISAStratosphere`: two sub-layers; `__init__` keeps the class values
      (the lower one) from 20 to 32 km and overwrites the instance's lapse
      rate, base temperature and base pressure with the upper one's
      otherwise. */
  class ISAStratosphere {
    static const LAPSE_RATE: real := 0.0010
    static const BASE_TEMP: real := 216.65
    static const BASE_PRESSURE: real := 5474.89

    const parent: ISA
    var isLowerStrat: bool
    var lapseRate: real
    var baseTemp: real
    var basePressure: real

    constructor (parent: ISA)
      ensures this.parent == parent
      ensures isLowerStrat == IsAltitude(parent.altitude, 20.0, 32.0)
      ensures isLowerStrat ==> lapseRate == 0.0010 && baseTemp == 216.65 && basePressure == 5474.89
      ensures !isLowerStrat ==> lapseRate == 0.0028 && baseTemp == 228.65 && basePressure == 868.02
    {
      isLowerStrat := true;
      this.parent := parent;
      lapseRate := LAPSE_RATE;
      baseTemp := BASE_TEMP;
      basePressure := BASE_PRESSURE;
      new;
      if IsAltitude(parent.altitude, 20.0, 32.0) {
        isLowerStrat := true;
      } else {
        isLowerStrat := false;
        lapseRate := 0.0028;
        baseTemp := 228.65;
        basePressure := 868.02;
      }
    }

    /** The sub-layer's fields as `__init__` leaves them. */
    predicate Valid()
      reads this
    {
      if isLowerStrat then lapseRate == 0.0010 && baseTemp == 216.65 && basePressure == 5474.89
      else lapseRate == 0.0028 && baseTemp == 228.65 && basePressure == 868.02
    }

    /** The segment of the standard the sub-layer flag names. */
    function SubLayer(): Segment
      reads this
    {
      if isLowerStrat then LOWER_STRATOSPHERE_SEGMENT else UPPER_STRATOSPHERE_SEGMENT
    }

    /** The temperature in SI, offset included, before `to_user_unit`. */
    function SiTemperature(): (t: real)
      reads this, parent
      ensures Valid() ==>
                t == SegmentTemperature(SubLayer(), parent.altitude, parent.offset)
    {
      var baseHeight := if !isLowerStrat then 32.0 else 20.0;
      baseTemp + lapseRate * (parent.altitude * 1000.0 - baseHeight * 1000.0) + parent.offset
    }

    function Temperature(u: Context): (t: Measure)
      reads this, parent
      ensures t.unit == TEMPERATURE.In(u.standard)
      ensures u.standard == SI ==> t.value == SiTemperature()
    {
      InUserUnit(u, SiTemperature(), TEMPERATURE)
    }

    /** The base pressure times the power of the ratio of the temperature,
        read back in SI, to the base temperature, as `pow` gives it. */
    function PowerLaw(u: Context, m: Math): (p: Measure)
      reads this, parent
      requires Valid()
      ensures p.unit == PRESSURE.In(u.standard)
      ensures u.standard == SI && SiTemperature() != 0.0 ==>
                SegmentPressure(m, SubLayer(), parent.altitude, parent.offset) == Success(p.value)
    {
      var tempRatio := InSI(u, Temperature(u).value, TEMPERATURE).value / baseTemp;
      var exp := -1.0 * G / (R * lapseRate);
      assert exp < 0.0;
      InUserUnit(u, basePressure * m.pow(tempRatio, exp), PRESSURE)
    }

    /** `pressure`: the power law, except that the exponent is negative
        (the lapse rate is positive), so `**` raises on a zero ratio. */
    function Pressure(u: Context, m: Math): (r: Result<Measure>)
      reads this, parent
      requires Valid()
      ensures r.Failure? <==> InSI(u, Temperature(u).value, TEMPERATURE).value == 0.0
      ensures r.Failure? ==> r.error == ZeroDivisionError
      ensures r.Success? ==> r.value == PowerLaw(u, m)
      ensures u.standard == SI ==>
                SegmentPressure(m, SubLayer(), parent.altitude, parent.offset) ==
                  if r.Success? then Success(r.value.value) else Failure(r.error)
    {
      var tempRatio := InSI(u, Temperature(u).value, TEMPERATURE).value / baseTemp;
      if tempRatio == 0.0 then Failure(ZeroDivisionError) else Success(PowerLaw(u, m))
    }
  }

  // ---------------------------------------------------------------------
  // Geopotential and geometric height
  // ---------------------------------------------------------------------

  /** The geopotential height, km, of the geometric height `h`, km. */
  function Geopotential(h: real): real
    requires h != -EARTH_RADIUS
  {
    EARTH_RADIUS * h / (EARTH_RADIUS + h)
  }

  /** The geometric height, km, of the geopotential height `hp`, km. */
  function Geometric(hp: real): real
    requires hp != EARTH_RADIUS
  {
    EARTH_RADIUS * hp / (EARTH_RADIUS - hp)
  }

  // ---------------------------------------------------------------------
  // ISA
  // ---------------------------------------------------------------------

  /** `ISA`: a temperature offset, an altitude in SI and the layer object
      chosen for that altitude, which holds the ISA as its parent. */
  class ISA {
    var offset: real
    var altitude: real
    var atmosphere: Layer

    /** The layer matches the altitude, points back at this object and
        holds the fields its `__init__` gave it. */
    predicate Valid()
      reads this, atmosphere.Objects()
    {
      match atmosphere
      case NoLayer => false
      case Tropo(t) =>
        ChooseAtmosphere(altitude) == Success(Troposphere) && t.parent == this && t.baseTemperature == MSL_TEMPERATURE
      case Pause(p) =>
        ChooseAtmosphere(altitude) == Success(Tropopause) && p.parent == this
      case Strat(s) =>
        ChooseAtmosphere(altitude) == Success(Stratosphere) && s.parent == this && s.Valid()
        && s.isLowerStrat == IsAltitude(altitude, 20.0, 32.0)
    }

    /** `__init__(offset=..., geopotential_height=...)`: stores the offset
        and the altitude converted to SI, then builds the layer object for
        that altitude; an altitude outside 0..47 km raises Exception. */
    static method Create(u: Context, offset: real, geopotentialHeight: real) returns (r: Result<ISA>)
      ensures r.Success? <==> ChooseAtmosphere(InSI(u, geopotentialHeight, DISTANCE).value).Success?
      ensures r.Failure? ==> r.error == Exception
      ensures r.Success? ==> fresh(r.value) && fresh(r.value.atmosphere.Objects()) && r.value.Valid()
      ensures r.Success? ==> r.value.offset == offset && r.value.altitude == InSI(u, geopotentialHeight, DISTANCE).value
    {
      var isa := new ISA;
      isa.offset := offset;
      isa.altitude := InSI(u, geopotentialHeight, DISTANCE).value;
      var kind := ChooseAtmosphere(isa.altitude);
      match kind
      case Failure(e) =>
        return Failure(e);
      case Success(Troposphere) =>
        var t := new ISATroposphere(isa);
        isa.atmosphere := Tropo(t);
        assert isa.atmosphere.Objects() == {t};
        assert isa.Valid();
        r := Success(isa);
      case Success(Tropopause) =>
        var p := new ISATropopause(isa);
        isa.atmosphere := Pause(p);
        assert isa.atmosphere.Objects() == {p};
        assert isa.Valid();
        r := Success(isa);
      case Success(Stratosphere) =>
        var s := new ISAStratosphere(isa);
        isa.atmosphere := Strat(s);
        assert isa.atmosphere.Objects() == {s};
        assert isa.Valid();
        r := Success(isa);
    }

    /** `from_geometric_height(offset, geometric_height)`. */
    static method FromGeometricHeight(u: Context, offset: real, geometricHeight: real) returns (r: Result<ISA>)
      ensures u.standard == SI ==>
                (r.Success? <==> geometricHeight != -EARTH_RADIUS && ChooseAtmosphere(Geopotential(geometricHeight)).Success?)
      ensures r.Failure? ==> r.error == ZeroDivisionError || r.error == Exception
      ensures u.standard == SI && r.Success? ==>
                fresh(r.value) && r.value.Valid() && r.value.offset == offset
                && r.value.altitude == Geopotential(geometricHeight)
                && r.value.GeometricHeight(u).value == geometricHeight
    {
      var hg := GeopotentialHeight(u, geometricHeight);
      if hg.Failure? {
        return Failure(hg.error);
      }
      r := Create(u, offset, hg.value.value);
      if u.standard == SI && r.Success? {
        HeightRoundTrip(geometricHeight);
      }
    }

    /** `geopotential_height(geometric_height)`: `r h / (r + h)` in SI,
        returned in the user's unit. */
    static function GeopotentialHeight(u: Context, geometricHeight: real): (r: Result<Measure>)
      ensures r.Failure? <==> EARTH_RADIUS + InSI(u, geometricHeight, DISTANCE).value == 0.0
      ensures r.Failure? ==> r.error == ZeroDivisionError
      ensures r.Success? ==> r.value.unit == DISTANCE.In(u.standard)
      ensures r.Success? && u.standard == SI ==> r.value.value * (EARTH_RADIUS + geometricHeight) == EARTH_RADIUS * geometricHeight
    {
      var h := InSI(u, geometricHeight, DISTANCE).value;
      if EARTH_RADIUS + h == 0.0 then Failure(ZeroDivisionError)
      else
        DivisionUndone(EARTH_RADIUS * h, EARTH_RADIUS + h);
        Success(InUserUnit(u, Geopotential(h), DISTANCE))
    }

    /** `isa + n` (`__add__`): raises the offset in place and returns
        nothing; the altitude and the layer object stay, and the layer
        sees the new offset through its parent. */
    method Add(n: real)
      requires Valid()
      modifies this
      ensures offset == old(offset) + n
      ensures altitude == old(altitude) && atmosphere == old(atmosphere)
      ensures Valid()
      ensures SiTemperature() == old(SiTemperature()) + n
    {
      offset := offset + n;
    }

    /** `isa - n` (`__sub__`): lowers the offset in place. */
    method Sub(n: real)
      requires Valid()
      modifies this
      ensures offset == old(offset) - n
      ensures altitude == old(altitude) && atmosphere == old(atmosphere)
      ensures Valid()
      ensures SiTemperature() == old(SiTemperature()) - n
    {
      offset := offset - n;
    }

    /** The layer's temperature in SI: the standard's temperature at the
        altitude, shifted by the offset. */
    function SiTemperature(): (t: real)
      reads this, atmosphere.Objects()
      requires Valid()
      ensures StandardTemperature(altitude, offset) == Success(t)
    {
      match atmosphere
      case Tropo(t) => t.SiTemperature()
      case Pause(p) => p.SiTemperature()
      case Strat(s) => s.SiTemperature()
    }

    /** `temperature`, delegated to the layer. */
    function Temperature(u: Context): (t: Measure)
      reads this, atmosphere.Objects()
      requires Valid()
      ensures t.unit == TEMPERATURE.In(u.standard)
      ensures u.standard == SI ==> t == Measure(SiTemperature(), Kelvin)
    {
      match atmosphere
      case Tropo(t) => t.Temperature(u)
      case Pause(p) => p.Temperature(u)
      case Strat(s) => s.Temperature(u)
    }

    /** The layer's pressure wherever its `pressure` does not raise: the
        stratosphere's power law read as a value. */
    function PressureValue(u: Context, m: Math): (p: Measure)
      reads this, atmosphere.Objects()
      requires Valid()
      ensures p.unit == PRESSURE.In(u.standard)
      ensures u.standard == SI && (atmosphere.Strat? ==> SiTemperature() != 0.0) ==>
                StandardPressure(m, altitude, offset) == Success(p.value)
    {
      match atmosphere
      case Tropo(t) => t.Pressure(u, m)
      case Pause(p) => p.Pressure(u, m)
      case Strat(s) => s.PowerLaw(u, m)
    }

    /** `pressure`, delegated to the layer: only the stratosphere's can
        raise, at a temperature of zero read back in SI. */
    function Pressure(u: Context, m: Math): (r: Result<Measure>)
      reads this, atmosphere.Objects()
      requires Valid()
      ensures r.Failure? <==> atmosphere.Strat? && TemperatureInSI(u) == 0.0
      ensures r.Failure? ==> r.error == ZeroDivisionError
      ensures r.Success? ==> r.value == PressureValue(u, m) && r.value.unit == PRESSURE.In(u.standard)
      ensures u.standard == SI ==>
                StandardPressure(m, altitude, offset) ==
                  if r.Success? then Success(r.value.value) else Failure(r.error)
    {
      match atmosphere
      case Tropo(t) => Success(t.Pressure(u, m))
      case Pause(p) => Success(p.Pressure(u, m))
      case Strat(s) => s.Pressure(u, m)
    }

    /** The temperature in the user's unit read back in SI, as every
        derived quantity reads it. */
    function TemperatureInSI(u: Context): (t: real)
      reads this, atmosphere.Objects()
      requires Valid()
      ensures u.standard == SI ==> t == SiTemperature()
    {
      InSI(u, Temperature(u).value, TEMPERATURE).value
    }

    /** `density`: the pressure over `R T`, both read back in SI. A zero
        temperature divides by zero; in the stratosphere it has already
        made `pressure` raise, with the same ZeroDivisionError, so the
        pressure is read here only where it has a value. */
    function Density(u: Context, m: Math): (r: Result<Measure>)
      reads this, atmosphere.Objects()
      requires Valid()
      ensures r.Failure? <==> TemperatureInSI(u) == 0.0
      ensures r.Failure? ==> r.error == ZeroDivisionError
      ensures r.Success? ==> r.value.unit == DENSITY.In(u.standard)
      ensures u.standard == SI && r.Success? ==>
                r.value.value == PressureValue(u, m).value / (R * SiTemperature())
    {
      var denum := R * TemperatureInSI(u);
      if denum == 0.0 then Failure(ZeroDivisionError)
      else
        var pressure := InSI(u, PressureValue(u, m).value, PRESSURE).value;
        Success(InUserUnit(u, pressure / denum, DENSITY))
    }

    /** `temperature_ratio`: the temperature in SI over the sea-level
        temperature. */
    function TemperatureRatio(u: Context): (ratio: real)
      reads this, atmosphere.Objects()
      requires Valid()
      ensures ratio * MSL_TEMPERATURE == TemperatureInSI(u)
      ensures u.standard == SI ==> ratio * MSL_TEMPERATURE == SiTemperature()
    {
      TemperatureInSI(u) / MSL_TEMPERATURE
    }

    /** `density_ratio`: the density over the sea-level density, both in
        the user's unit. */
    function DensityRatio(u: Context, m: Math): (r: Result<real>)
      reads this, atmosphere.Objects()
      requires Valid()
      ensures Density(u, m).Failure? ==> r == Failure(Density(u, m).error)
      ensures u.standard == SI ==>
                (r.Success? <==> Density(u, m).Success?)
                && (r.Success? ==> r.value * MSL_DENSITY == Density(u, m).value.value)
    {
      var density :- Density(u, m);
      var base := InUserUnit(u, MSL_DENSITY, DENSITY).value;
      if base == 0.0 then Failure(ZeroDivisionError) else Success(density.value / base)
    }

    /** `pressure_ratio`: the pressure over the sea-level pressure, both in
        the user's unit. */
    function PressureRatio(u: Context, m: Math): (r: Result<real>)
      reads this, atmosphere.Objects()
      requires Valid()
      ensures r.Failure? ==> r.error == ZeroDivisionError
      ensures Pressure(u, m).Failure? ==> r.Failure?
      ensures u.standard == SI ==>
                (r.Success? <==> Pressure(u, m).Success?)
                && (r.Success? ==> r.value * MSL_PRESSURE == Pressure(u, m).value.value)
    {
      var pressure :- Pressure(u, m);
      var base := InUserUnit(u, MSL_PRESSURE, PRESSURE).value;
      if base == 0.0 then Failure(ZeroDivisionError) else Success(pressure.value / base)
    }

    /** `geometric_height`: `r hp / (r - hp)` of the stored altitude, in
        the user's unit; under SI its geopotential height is the stored
        altitude again, and it is never below it. */
    function GeometricHeight(u: Context): (h: Measure)
      reads this, atmosphere.Objects()
      requires Valid()
      ensures h.unit == DISTANCE.In(u.standard)
      ensures u.standard == SI ==> h.value != -EARTH_RADIUS && Geopotential(h.value) == altitude
      ensures u.standard == SI ==> h.value >= altitude
    {
      var denum := EARTH_RADIUS - altitude;
      var res := (EARTH_RADIUS * altitude) / denum;
      GeopotentialRoundTrip(altitude);
      GeometricNotBelowGeopotential(altitude);
      InUserUnit(u, res, DISTANCE)
    }

    /** `dynamic_viscosity`: Sutherland's law from the sea-level viscosity;
        the sum with `S` uses the temperature in the user's unit, and the
        result is tagged in SI whatever the standard. */
    function DynamicViscosity(u: Context, m: Math): (r: Result<Measure>)
      reads this, atmosphere.Objects()
      requires Valid()
      ensures r.Failure? <==> Temperature(u).value + S == 0.0
      ensures r.Failure? ==> r.error == ZeroDivisionError
      ensures r.Success? ==> r.value.unit == KilogramPerMeterSecond
      ensures u.standard == SI && r.Success? ==>
                r.value.value * (SiTemperature() + S) ==
                  MSL_DYNAMIC_VISCOSITY * m.pow(SiTemperature() / MSL_TEMPERATURE, 1.5) * (MSL_TEMPERATURE + S)
    {
      var expr31 := MSL_TEMPERATURE + S;
      var expr32 := Temperature(u).value + S;
      if expr32 == 0.0 then Failure(ZeroDivisionError)
      else
        // `3 / 2` is 1.5, a positive exponent, so `**` does not raise.
        var power := m.pow(TemperatureRatio(u), 1.5);
        var res := MSL_DYNAMIC_VISCOSITY * power * (expr31 / expr32);
        PowCongruence(m, TemperatureRatio(u), TemperatureInSI(u) / MSL_TEMPERATURE, 1.5);
        DivisionUndone(MSL_DYNAMIC_VISCOSITY * power * expr31, expr32);
        Success(Measure(res, KilogramPerMeterSecond))
    }

    /** `kinematic_viscosity`: the SI dynamic viscosity over the density in
        the user's unit, tagged in SI. */
    function KinematicViscosity(u: Context, m: Math): (r: Result<Measure>)
      reads this, atmosphere.Objects()
      requires Valid()
      ensures r.Success? <==>
                DynamicViscosity(u, m).Success? && Density(u, m).Success? && Density(u, m).value.value != 0.0
      ensures r.Failure? ==> r.error == ZeroDivisionError
      ensures r.Success? ==> r.value.unit == MeterSqrPerSecond
      ensures r.Success? ==> r.value.value == DynamicViscosity(u, m).value.value / Density(u, m).value.value
    {
      var mu :- DynamicViscosity(u, m);
      var rho :- Density(u, m);
      if rho.value == 0.0 then Failure(ZeroDivisionError)
      else
        Success(Measure(mu.value / rho.value, MeterSqrPerSecond))
    }

    /** `speed_of_sound`: `(T R gamma) ** 0.5` with the temperature in SI,
        returned in the user's unit. */
    function SpeedOfSound(u: Context, m: Math): (a: Measure)
      reads this, atmosphere.Objects()
      requires Valid()
      ensures a.unit == SPEED.In(u.standard)
      ensures u.standard == SI ==> a.value == m.pow(SiTemperature() * R * Y, 0.5)
    {
      var temperature := TemperatureInSI(u);
      InUserUnit(u, m.pow(temperature * R * Y, 0.5), SPEED)
    }

    /** `mach_number(velocity)`: the velocity over the speed of sound, both
        in SI; a zero speed of sound divides by zero. */
    function MachNumber(u: Context, m: Math, velocity: real): (r: Result<real>)
      reads this, atmosphere.Objects()
      requires Valid()
      ensures r.Failure? <==> InSI(u, SpeedOfSound(u, m).value, SPEED).value == 0.0
      ensures r.Failure? ==> r.error == ZeroDivisionError
      ensures r.Success? ==> r.value * InSI(u, SpeedOfSound(u, m).value, SPEED).value == InSI(u, velocity, SPEED).value
      ensures u.standard == SI && r.Success? ==> r.value * SpeedOfSound(u, m).value == velocity
    {
      var v := InSI(u, velocity, SPEED).value;
      var a := InSI(u, SpeedOfSound(u, m).value, SPEED).value;
      if a == 0.0 then Failure(ZeroDivisionError)
      else
        DivisionUndone(v, a);
        Success(v / a)
    }

    /** `dynamic_pressure(velocity)`: `0.5 rho V ** 2` with the density and
        the velocity in SI, returned in the user's unit. */
    function DynamicPressure(u: Context, m: Math, velocity: real): (r: Result<Measure>)
      reads this, atmosphere.Objects()
      requires Valid()
      ensures r.Success? <==> Density(u, m).Success?
      ensures r.Failure? ==> r.error == ZeroDivisionError
      ensures r.Success? ==> r.value.unit == PRESSURE.In(u.standard)
      ensures u.standard == SI && r.Success? ==>
                r.value.value == 0.5 * Density(u, m).value.value * (velocity * velocity)
    {
      var v := InSI(u, velocity, SPEED).value;
      var density :- Density(u, m);
      var res := 0.5 * InSI(u, density.value, DENSITY).value * (v * v);
      Success(InUserUnit(u, res, PRESSURE))
    }
  }

  /** Multiplying a quotient by its divisor gives the dividend back. */
  lemma DivisionUndone(x: real, d: real)
    requires d != 0.0
    ensures (x / d) * d == x
  {
  }

  /** Equal arguments give equal powers. */
  lemma PowCongruence(m: Math, a: real, b: real, e: real)
    requires a == b
    ensures m.pow(a, e) == m.pow(b, e)
  {
  }

  // ---------------------------------------------------------------------
  // Properties of the temperature profile
  // ---------------------------------------------------------------------

  /** The standard has a segment exactly where `_choose_atmosphere` finds a
      layer, and the segment is the one that layer computes with. */
  lemma SegmentsFollowLayers(altitude: real)
    ensures SegmentAt(altitude).Success? <==> ChooseAtmosphere(altitude).Success?
    ensures ChooseAtmosphere(altitude) == Success(Troposphere) ==> SegmentAt(altitude) == Success(TROPOSPHERE_SEGMENT)
    ensures ChooseAtmosphere(altitude) == Success(Tropopause) ==> SegmentAt(altitude) == Success(TROPOPAUSE_SEGMENT)
    ensures ChooseAtmosphere(altitude) == Success(Stratosphere) ==>
              SegmentAt(altitude) == Success(if IsAltitude(altitude, 20.0, 32.0) then LOWER_STRATOSPHERE_SEGMENT
                                             else UPPER_STRATOSPHERE_SEGMENT)
  {
  }

  /** Adjacent segments give the same temperature at the altitude where
      they meet, whatever the offset. */
  lemma TemperatureIsContinuous(offset: real)
    ensures SegmentTemperature(TROPOSPHERE_SEGMENT, 11.0, offset) == SegmentTemperature(TROPOPAUSE_SEGMENT, 11.0, offset)
    ensures SegmentTemperature(TROPOPAUSE_SEGMENT, 20.0, offset) == SegmentTemperature(LOWER_STRATOSPHERE_SEGMENT, 20.0, offset)
    ensures SegmentTemperature(LOWER_STRATOSPHERE_SEGMENT, 32.0, offset) == SegmentTemperature(UPPER_STRATOSPHERE_SEGMENT, 32.0, offset)
  {
  }

  /** The temperatures of the ICAO table at offset zero in the troposphere. */
  lemma TroposphereTemperatures()
    ensures StandardTemperature(0.0, 0.0) == Success(288.15)
    ensures StandardTemperature(5.0, 0.0) == Success(255.65)
    ensures StandardTemperature(11.0, 0.0) == Success(216.65)
  {
  }

  /** The temperatures of the ICAO table at offset zero in the tropopause. */
  lemma TropopauseTemperatures()
    ensures StandardTemperature(16.0, 0.0) == Success(216.65)
    ensures StandardTemperature(20.0, 0.0) == Success(216.65)
  {
  }

  /** The temperatures of the ICAO table at offset zero in the stratosphere. */
  lemma StratosphereTemperatures()
    ensures StandardTemperature(25.0, 0.0) == Success(221.65)
    ensures StandardTemperature(32.0, 0.0) == Success(228.65)
    ensures StandardTemperature(40.0, 0.0) == Success(251.05)
    ensures StandardTemperature(47.0, 0.0) == Success(270.65)
  {
  }

  /** The standard's pressure exists wherever its temperature does,
      except in the stratosphere at 0 K, where `**` raises on the zero
      temperature ratio and the negative exponent. */
  lemma PressureFailsOnlyAtZeroKelvin(m: Math, altitude: real, offset: real)
    ensures StandardPressure(m, altitude, offset).Failure? <==>
              StandardTemperature(altitude, offset).Failure?
              || (20.0 < altitude <= 47.0 && StandardTemperature(altitude, offset) == Success(0.0))
    ensures StandardPressure(m, altitude, offset).Failure? ==>
              StandardPressure(m, altitude, offset).error ==
                if StandardTemperature(altitude, offset).Failure? then Exception else ZeroDivisionError
  {
    assert GradientExponent(TROPOSPHERE_SEGMENT.lapseRate) > 0.0;
    assert GradientExponent(LOWER_STRATOSPHERE_SEGMENT.lapseRate) < 0.0;
    assert GradientExponent(UPPER_STRATOSPHERE_SEGMENT.lapseRate) < 0.0;
  }

  /** At 25 km with an offset of -221.65 K the temperature is 0 K, and
      the pressure raises ZeroDivisionError. */
  lemma ZeroKelvinStratosphere(m: Math)
    ensures StandardTemperature(25.0, -221.65) == Success(0.0)
    ensures StandardPressure(m, 25.0, -221.65) == Failure(ZeroDivisionError)
  {
    PressureFailsOnlyAtZeroKelvin(m, 25.0, -221.65);
  }

  /** The offset shifts the temperature by itself and has no say in
      whether there is one. */
  lemma OffsetShiftsTemperature(altitude: real, offset: real)
    ensures StandardTemperature(altitude, offset).Success? <==> StandardTemperature(altitude, 0.0).Success?
    ensures StandardTemperature(altitude, offset).Success? ==>
              StandardTemperature(altitude, offset).value == StandardTemperature(altitude, 0.0).value + offset
  {
  }

  /** Two valid ISA objects at the same altitude hold the same kind of
      layer, and the same stratosphere sub-layer, whatever their offsets. */
  lemma LayerIgnoresOffset(a: ISA, b: ISA)
    requires a.Valid() && b.Valid() && a.altitude == b.altitude
    ensures a.atmosphere.Tropo? <==> b.atmosphere.Tropo?
    ensures a.atmosphere.Pause? <==> b.atmosphere.Pause?
    ensures a.atmosphere.Strat? <==> b.atmosphere.Strat?
    ensures a.atmosphere.Strat? ==> a.atmosphere.strat.isLowerStrat == b.atmosphere.strat.isLowerStrat
  {
  }

  /** The temperature falls through the troposphere, is constant through
      the tropopause and rises through the stratosphere. */
  lemma TemperatureProfile(lo: real, hi: real, offset: real)
    requires 0.0 <= lo < hi <= 47.0
    ensures StandardTemperature(lo, offset).Success? && StandardTemperature(hi, offset).Success?
    ensures hi <= 11.0 ==> StandardTemperature(hi, offset).value < StandardTemperature(lo, offset).value
    ensures 11.0 <= lo && hi <= 20.0 ==> StandardTemperature(hi, offset).value == StandardTemperature(lo, offset).value
    ensures 20.0 <= lo ==> StandardTemperature(hi, offset).value > StandardTemperature(lo, offset).value
  {
  }

  /** At sea level with no offset, the speed of sound an ISA object
      derives under SI is the constants' `a_o`. */
  lemma SpeedOfSoundAtSeaLevel(isa: ISA, u: Context, m: Math)
    requires isa.Valid() && u.standard == SI
    requires isa.altitude == 0.0 && isa.offset == 0.0
    ensures isa.SpeedOfSound(u, m).value == Entries(m.pow(Y * R * MSL_TEMPERATURE, 0.5))[SoundSpeed].value
  {
    assert isa.SiTemperature() == MSL_TEMPERATURE;
    PowCongruence(m, isa.SiTemperature() * R * Y, Y * R * MSL_TEMPERATURE, 0.5);
  }

  // ---------------------------------------------------------------------
  // Properties of the heights
  // ---------------------------------------------------------------------

  /** Geopotential height undone by geometric height, for every height
      above the Earth's centre. */
  lemma HeightRoundTrip(h: real)
    requires h > -EARTH_RADIUS
    ensures Geopotential(h) < EARTH_RADIUS
    ensures Geometric(Geopotential(h)) == h
  {
    var hp := Geopotential(h);
    assert hp * (EARTH_RADIUS + h) == EARTH_RADIUS * h;
    assert (EARTH_RADIUS - hp) * (EARTH_RADIUS + h) == EARTH_RADIUS * EARTH_RADIUS;
  }

  /** Geometric height undone by geopotential height, below the radius. */
  lemma GeopotentialRoundTrip(hp: real)
    requires hp < EARTH_RADIUS
    ensures Geometric(hp) > -EARTH_RADIUS
    ensures Geopotential(Geometric(hp)) == hp
  {
    var h := Geometric(hp);
    assert h * (EARTH_RADIUS - hp) == EARTH_RADIUS * hp;
    assert (EARTH_RADIUS + h) * (EARTH_RADIUS - hp) == EARTH_RADIUS * EARTH_RADIUS;
  }

  /** A geometric height of 10000 in the SI distance unit, the kilometre,
      lies far above the stratosphere, so no layer is found for it. */
  lemma TenThousandKilometresHaveNoLayer()
    ensures ChooseAtmosphere(Geopotential(10000.0)) == Failure(Exception)
  {
  }

  /** The geometric height is at least the geopotential height, and
      strictly above it for every positive height below the radius. */
  lemma GeometricNotBelowGeopotential(hp: real)
    requires 0.0 <= hp < EARTH_RADIUS
    ensures Geometric(hp) >= hp
    ensures hp > 0.0 ==> Geometric(hp) > hp
  {
    var h := Geometric(hp);
    assert h * (EARTH_RADIUS - hp) == EARTH_RADIUS * hp;
  }
}
