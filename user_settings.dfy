/**
 * The user's display-unit preferences (models/UserSettings.kt): one enumeration per
 * quantity and a record whose fields start at the defaults.
 */
module UserSettingsModel {

  datatype TemperatureUnit = Celsius | Fahrenheit | Kelvin
  datatype DistanceUnit = Miles | Kilometers
  datatype SpeedUnit = MetersPerSecond | MilesPerHour
  datatype IntensityUnit = MmPerHour | CmPerHour | InchesPerHour
  datatype PressureUnit = Millibars | MmHg
  datatype AccumulationUnit = Inches | Centimeters

  datatype UserSettings = UserSettings(
    temperatureUnit: TemperatureUnit,
    distanceUnit: DistanceUnit,
    speedUnit: SpeedUnit,
    precipitationUnit: IntensityUnit,
    pressureUnit: PressureUnit,
    accumulationUnit: AccumulationUnit)

  /** `UserSettings()`: every field at its initialiser. */
  const DefaultSettings := UserSettings(Fahrenheit, Miles, MilesPerHour, InchesPerHour, Millibars, Inches)

  /** The defaults are imperial: Fahrenheit, miles, mph, inches/hour, millibars and inches. */
  lemma DefaultsAreImperial()
    ensures DefaultSettings.temperatureUnit == Fahrenheit && DefaultSettings.distanceUnit == Miles
    ensures DefaultSettings.speedUnit == MilesPerHour && DefaultSettings.precipitationUnit == InchesPerHour
    ensures DefaultSettings.pressureUnit == Millibars && DefaultSettings.accumulationUnit == Inches
  {
  }

  const AllTemperatureUnits: set<TemperatureUnit> := {Celsius, Fahrenheit, Kelvin}
  const AllDistanceUnits: set<DistanceUnit> := {Miles, Kilometers}
  const AllSpeedUnits: set<SpeedUnit> := {MetersPerSecond, MilesPerHour}
  const AllIntensityUnits: set<IntensityUnit> := {MmPerHour, CmPerHour, InchesPerHour}
  const AllPressureUnits: set<PressureUnit> := {Millibars, MmHg}
  const AllAccumulationUnits: set<AccumulationUnit> := {Inches, Centimeters}

  /** Temperature and precipitation intensity each have exactly three units. */
  lemma ThreeUnitEnumerations()
    ensures |AllTemperatureUnits| == 3 && forall u: TemperatureUnit :: u in AllTemperatureUnits
    ensures |AllIntensityUnits| == 3 && forall u: IntensityUnit :: u in AllIntensityUnits
  {
    forall u: TemperatureUnit ensures u in AllTemperatureUnits {
      match u
      case Celsius =>
      case Fahrenheit =>
      case Kelvin =>
    }
    forall u: IntensityUnit ensures u in AllIntensityUnits {
      match u
      case MmPerHour =>
      case CmPerHour =>
      case InchesPerHour =>
    }
  }

  /** Distance, speed, pressure and accumulation each have exactly two units. */
  lemma TwoUnitEnumerations()
    ensures |AllDistanceUnits| == 2 && forall u: DistanceUnit :: u in AllDistanceUnits
    ensures |AllSpeedUnits| == 2 && forall u: SpeedUnit :: u in AllSpeedUnits
    ensures |AllPressureUnits| == 2 && forall u: PressureUnit :: u in AllPressureUnits
    ensures |AllAccumulationUnits| == 2 && forall u: AccumulationUnit :: u in AllAccumulationUnits
  {
    forall u: DistanceUnit ensures u in AllDistanceUnits {
      if u.Miles? {} else {}
    }
    forall u: SpeedUnit ensures u in AllSpeedUnits {
      if u.MetersPerSecond? {} else {}
    }
    forall u: PressureUnit ensures u in AllPressureUnits {
      if u.Millibars? {} else {}
    }
    forall u: AccumulationUnit ensures u in AllAccumulationUnits {
      if u.Inches? {} else {}
    }
  }
}
