/** The FloodData model: the stored flood reading and its embedded arrays. */
module FloodModel {
  import opened Wrappers
  import opened Store

  datatype RiskLevel = Low | ModerateRisk | High | SevereRisk

  datatype Rainfall = Rainfall(current: real, last24Hours: real, predicted: real)

  datatype FloodProneArea = FloodProneArea(name: string, coordinates: Coordinates, riskLevel: string,
                                           historicalFloods: int)

  /** A waterlogging report. `severity` is whatever was pushed (updates run no enum validator);
      an unset `reportedAt` is `None`. The schema keeps no description. */
  datatype WaterloggedArea = WaterloggedArea(
    id: nat,
    location: Option<string>,
    coordinates: Option<Coordinates>,
    severity: Option<string>,
    reportedAt: Option<int>,
    reportedBy: Option<nat>,
    imageUrl: Option<string>,
    isVerified: bool)

  /** A route between two named places; an unset `from`/`to` is `None`, an unset `isOpen` false. */
  datatype SafeRoute = SafeRoute(from: Option<string>, to: Option<string>, route: string, isOpen: bool)

  datatype Contact = Contact(name: string, phone: string, contactType: string)

  datatype RainForecast = RainForecast(date: int, rainfall: real, riskLevel: string)

  datatype FloodReading = FloodReading(
    city: string,
    state: string,
    coordinates: Coordinates,
    rainfall: Rainfall,
    riskLevel: RiskLevel,
    floodProneAreas: seq<FloodProneArea>,
    waterloggedAreas: seq<WaterloggedArea>,
    safeRoutes: seq<SafeRoute>,
    emergencyContacts: seq<Contact>,
    forecast: seq<RainForecast>,
    source: string,
    recordedAt: int)
}
