/**
  The records the service exchanges: the upstream (Ergast) wire shapes it
  decodes and the Race and Driver shapes it answers with. Every field the
  upstream JSON carries is kept, whether or not the transformations read it.
 */
module Models {
  import opened Wrappers

  /** A race as the service returns it; `id` and `round` are both the round number. */
  datatype Race = Race(
    id: int,
    round: int,
    name: string,
    circuit: string,
    country: string,
    countryCode: string,
    date: string)

  /** A team's colour set; `secondary` may be absent. */
  datatype DriverColors = DriverColors(main: string, accent: string, secondary: Option<string>)

  /**
    A driver as the service returns it. The source's `deltaCost` field is not
    part of this model (its value comes from a per-process randomised hash).
   */
  datatype Driver = Driver(
    driverCode: string,
    cost: real,
    driverName: string,
    teamName: string,
    driverImage: string,
    teamImage: string,
    colors: DriverColors)

  datatype ErgastLocation = ErgastLocation(lat: string, long: string, locality: string, country: string)

  datatype ErgastCircuit = ErgastCircuit(circuitId: string, url: string, circuitName: string, location: ErgastLocation)

  datatype ErgastRace = ErgastRace(
    season: string,
    round: string,
    url: string,
    raceName: string,
    circuit: ErgastCircuit,
    date: string,
    time: Option<string>)

  datatype ErgastDriver = ErgastDriver(
    driverId: string,
    permanentNumber: string,
    code: string,
    url: string,
    givenName: string,
    familyName: string,
    dateOfBirth: string,
    nationality: string)
}
