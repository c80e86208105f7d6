/**
  Turning the upstream race records into the service's Race shape.
 */
module Races {
  import opened Wrappers
  import opened Models
  import opened Ascii
  import opened Tables

  const RaceDataError: string := "Error processing race data: invalid literal for int() with base 10"

  /**
    `transform_ergast_race_to_race`: the round string is parsed once and used
    as both id and round; name, circuit name, country and date are copied;
    the country code comes from the country table. A round that `int()`
    rejects makes the transformation fail, and the request answers 500.
   */
  function TransformRace(er: ErgastRace): (r: Result<Race, Error>)
    ensures r.Success? <==> ParseInt(er.round).Some?
    ensures r.Success? ==>
      && r.value.id == r.value.round == ParseInt(er.round).value
      && r.value.name == er.raceName
      && r.value.circuit == er.circuit.circuitName
      && r.value.country == er.circuit.location.country
      && r.value.countryCode == CountryCode(er.circuit.location.country)
      && r.value.date == er.date
    ensures r.Failure? ==> StatusCode(r.error) == 500
  {
    match ParseInt(er.round)
    case None => Failure(DataProcessing(RaceDataError))
    case Some(n) =>
      var country := er.circuit.location.country;
      Success(Race(n, n, er.raceName, er.circuit.circuitName, country, CountryCode(country), er.date))
  }

  /** A race whose upstream round is the printed integer `n` gets id and round `n`. */
  lemma TransformRaceRound(er: ErgastRace, n: int)
    requires er.round == IntToString(n)
    ensures TransformRace(er).Success?
    ensures TransformRace(er).value.id == TransformRace(er).value.round == n
  {
    ParseIntRoundTrip(n);
  }

  /**
    The race list comprehension of `fetch_races_from_ergast`: every upstream
    race transformed, in order; one bad round fails the whole request.
   */
  function ListRaces(ers: seq<ErgastRace>): (r: Result<seq<Race>, Error>)
    ensures r.Success? <==> forall k :: 0 <= k < |ers| ==> ParseInt(ers[k].round).Some?
    ensures r.Success? ==> |r.value| == |ers|
    ensures r.Success? ==> forall k :: 0 <= k < |ers| ==> r.value[k] == TransformRace(ers[k]).value
    ensures r.Success? ==> forall k :: 0 <= k < |ers| ==>
      && r.value[k].id == r.value[k].round == ParseInt(ers[k].round).value
      && r.value[k].date == ers[k].date
      && r.value[k].countryCode == CountryCode(ers[k].circuit.location.country)
    ensures r.Failure? ==> StatusCode(r.error) == 500
  {
    TransformEach(ers, TransformRace)
  }
}
