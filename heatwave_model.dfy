/** The HeatwaveData model: alert levels and the stored heatwave reading. */
module HeatwaveModel {
  import opened Wrappers
  import opened Store

  datatype AlertLevel = Green | Yellow | Orange | Red

  function LevelName(l: AlertLevel): string {
    match l
    case Green => "green"
    case Yellow => "yellow"
    case Orange => "orange"
    case Red => "red"
  }

  function LevelRank(l: AlertLevel): nat {
    match l
    case Green => 0
    case Yellow => 1
    case Orange => 2
    case Red => 3
  }

  datatype Temperature = Temperature(current: real, feelsLike: real, min: real, max: real)

  datatype HeatForecast = HeatForecast(date: int, tempMax: real, tempMin: real, heatIndex: real, alertLevel: string)

  /** `isOpen` is a plain Boolean; an unset flag reads as false. */
  datatype CoolingCenter = CoolingCenter(name: string, address: string, coordinates: Coordinates,
                                         capacity: int, isOpen: bool, timings: string)

  datatype Hospital = Hospital(name: string, address: string, phone: string, coordinates: Coordinates,
                               hasEmergency: bool)

  datatype HeatwaveReading = HeatwaveReading(
    city: string,
    state: string,
    coordinates: Coordinates,
    temperature: Temperature,
    heatIndex: real,
    humidity: real,
    alertLevel: AlertLevel,
    forecast: seq<HeatForecast>,
    coolingCenters: seq<CoolingCenter>,
    hospitals: seq<Hospital>,
    source: string,
    recordedAt: int)
}
