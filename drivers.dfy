/**
  Turning the upstream driver records into the service's Driver shape:
  the guessed media URL of a driver's portrait, the per-driver
  transformation with its table defaults, and the listing that keeps only
  drivers of known teams.
 */
module Drivers {
  import opened Wrappers
  import opened Models
  import opened Ascii
  import opened Selection
  import opened Tables

  /** The fixed part of the portrait URL, up to the folder named by the given name's initial. */
  const MediaBase: string := "https://media.formula1.com/d_driver_fallback_image.png/content/dam/fom-website/drivers/"

  /** The fixed driver cost (a float constant in the source). */
  const BaseCost: real := 30.0

  const IndexError: string := "Error processing driver data: string index out of range"
  const TeamNameError: string := "Error processing driver data: 1 validation error for Driver (teamName)"

  /** `s[:3]`: the first three characters, or all of a shorter string. */
  function Prefix3(s: string): (p: string)
    ensures |p| == if |s| < 3 then |s| else 3
    ensures p == s[..|p|]
  {
    if |s| < 3 then s else s[..3]
  }

  /** The portrait id: upper-cased three-letter prefixes of given and family name, then "01". */
  function DriverImageId(given: string, family: string): (id: string)
  {
    Upper(Prefix3(given)) + Upper(Prefix3(family)) + "01"
  }

  /**
    The id is at most eight characters, carries no lower-case letter, ends
    in "01", and its lower-cased form is the lower-cased prefixes followed by
    "01" whatever the names' original case.
   */
  lemma DriverImageIdShape(given: string, family: string)
    ensures var id := DriverImageId(given, family);
      && |id| == |Prefix3(given)| + |Prefix3(family)| + 2 <= 8
      && id[|id| - 2..] == "01"
      && (forall i :: 0 <= i < |id| ==> !IsLowerLetter(id[i]))
      && Lower(id) == Lower(Prefix3(given)) + Lower(Prefix3(family)) + "01"
  {
    var g, f := Prefix3(given), Prefix3(family);
    LowerAppend(Upper(g) + Upper(f), "01");
    LowerAppend(Upper(g), Upper(f));
    LowerOfUpper(g);
    LowerOfUpper(f);
  }

  /**
    `get_driver_image_url`. The folder letter is the upper-cased first
    character of the given name, so an empty given name raises IndexError
    (the request then answers 500). The driver code argument is not used.
   */
  function DriverImageUrl(code: string, given: string, family: string): (r: Result<string, Error>)
    ensures r.Failure? <==> given == []
    ensures r.Failure? ==> r.error == DataProcessing(IndexError)
    ensures r.Success? ==>
      var id := DriverImageId(given, family);
      var fileName := Lower(id) + ".png";
      && |r.value| > |MediaBase| + 1 + |fileName|
      && r.value[..|MediaBase|] == MediaBase
      && r.value[|MediaBase|] == UpperChar(given[0])
      && r.value[|MediaBase| + 1] == '/'
      && r.value[|r.value| - |fileName|..] == fileName
  {
    if given == [] then Failure(DataProcessing(IndexError))
    else
      var id := DriverImageId(given, family);
      var head := MediaBase + [UpperChar(given[0])] + "/";
      var folder := id + "_" + given + "_" + family + "/";
      var fileName := Lower(id) + ".png";
      var url := head + folder + fileName;
      assert url[..|head|] == head;
      assert url[..|MediaBase|] == MediaBase;
      assert url[|url| - |fileName|..] == fileName;
      Success(url)
  }

  /**
    `transform_ergast_driver_to_driver`. The team comes from the driver
    table; colours and team image come from the team tables, with their
    defaults for a team the tables lack. It fails when the given name is
    empty (the portrait URL raises) and, otherwise, when the code has no
    team (the Driver record rejects a missing team name).
   */
  function TransformDriver(d: ErgastDriver): (r: Result<Driver, Error>)
    ensures r.Success? <==> d.givenName != [] && d.code in DriverTeams
    ensures r.Failure? ==>
      r.error == DataProcessing(if d.givenName == [] then IndexError else TeamNameError)
    ensures r.Success? ==>
      var team := DriverTeams[d.code];
      && r.value.driverCode == d.code
      && r.value.cost == BaseCost
      && r.value.driverName == d.givenName + " " + d.familyName
      && r.value.teamName == team
      && r.value.driverImage == DriverImageUrl(d.code, d.givenName, d.familyName).value
      && r.value.teamImage == (if team in TeamImages then TeamImages[team] else DefaultTeamImage)
      && r.value.colors == (if team in TeamColors then TeamColors[team] else DefaultColors)
  {
    var team := if d.code in DriverTeams then Some(DriverTeams[d.code]) else None;
    var colors := ColorsOf(team);
    var name := d.givenName + " " + d.familyName;
    match DriverImageUrl(d.code, d.givenName, d.familyName)
    case Failure(e) => Failure(e)
    case Success(image) =>
      match team
      case None => Failure(DataProcessing(TeamNameError))
      case Some(t) => Success(Driver(d.code, BaseCost, name, t, image, ImageOf(team), colors))
  }

  /** The filter of the driver list comprehension: drivers whose code has a team, in input order. */
  function KnownDrivers(ds: seq<ErgastDriver>): (r: seq<ErgastDriver>)
    ensures forall d :: d in r <==> d in ds && d.code in DriverTeams
    ensures |r| <= |ds|
  {
    if ds == [] then []
    else
      var init, last := ds[..|ds| - 1], ds[|ds| - 1];
      assert ds == init + [last];
      KnownDrivers(init) + (if last.code in DriverTeams then [last] else [])
  }

  /** The positions of the drivers whose code has a team. */
  function KnownAt(ds: seq<ErgastDriver>): nat -> bool
  {
    (i: nat) => i < |ds| && ds[i].code in DriverTeams
  }

  function KnownIndices(ds: seq<ErgastDriver>): (idx: seq<nat>)
    ensures forall k :: 0 <= k < |idx| ==> idx[k] < |ds|
  {
    IndicesWhere(|ds|, KnownAt(ds))
  }

  /**
    The filter keeps exactly the drivers at the positions whose code has a
    team, in increasing position order: nothing is reordered, duplicated or
    dropped besides the unknown codes.
   */
  lemma {:induction false} KnownDriversInOrder(ds: seq<ErgastDriver>)
    ensures KnownDrivers(ds) == Select(ds, KnownIndices(ds))
  {
    if ds != [] {
      var n := |ds|;
      var init, last := ds[..n - 1], ds[n - 1];
      assert ds == init + [last];
      KnownDriversInOrder(init);
      IndicesWhereCongruent(n - 1, KnownAt(init), KnownAt(ds));
      var pick := last.code in DriverTeams;
      assert KnownIndices(ds) == KnownIndices(init) + (if pick then [n - 1] else []);
      SelectExtend(init, KnownIndices(init), last, pick);
    }
  }

  /** A position is among the kept ones exactly when the driver there has a team. */
  lemma KnownIndicesExact(ds: seq<ErgastDriver>)
    ensures forall i :: 0 <= i < |ds| ==> (i in KnownIndices(ds) <==> ds[i].code in DriverTeams)
  {
    IndicesWhereComplete(|ds|, KnownAt(ds));
  }

  /** The kept drivers all transform exactly when none of them has an empty given name. */
  lemma KnownDriversSucceed(ds: seq<ErgastDriver>)
    ensures (forall k :: 0 <= k < |KnownDrivers(ds)| ==> TransformDriver(KnownDrivers(ds)[k]).Success?)
      <==> forall d :: d in ds && d.code in DriverTeams ==> d.givenName != []
    ensures forall k :: 0 <= k < |KnownDrivers(ds)| ==>
      TransformDriver(KnownDrivers(ds)[k]).Failure? ==> TransformDriver(KnownDrivers(ds)[k]).error == DataProcessing(IndexError)
  {
    var known := KnownDrivers(ds);
    assert forall k :: 0 <= k < |known| ==> known[k] in known && known[k].code in DriverTeams;
  }

  /**
    The driver list of `fetch_drivers_from_ergast`: the drivers of known
    teams, transformed in order. It fails (500) exactly when one of them has
    an empty given name.
   */
  function ListDrivers(ds: seq<ErgastDriver>): (r: Result<seq<Driver>, Error>)
    ensures r.Success? <==> forall d :: d in ds && d.code in DriverTeams ==> d.givenName != []
    ensures r.Success? ==> |r.value| == |KnownDrivers(ds)|
    ensures r.Success? ==> forall k :: 0 <= k < |r.value| ==>
      r.value[k] == TransformDriver(KnownDrivers(ds)[k]).value
    ensures r.Failure? ==> r.error == DataProcessing(IndexError)
  {
    var known := KnownDrivers(ds);
    KnownDriversSucceed(ds);
    TransformEach(known, TransformDriver)
  }

  /**
    The k-th listed driver is the k-th kept record, with the team its code
    maps to and that team's own colours and image, never the defaults.
   */
  lemma ListedDriver(ds: seq<ErgastDriver>, k: nat)
    requires ListDrivers(ds).Success? && k < |ListDrivers(ds).value|
    ensures var d, e := ListDrivers(ds).value[k], KnownDrivers(ds)[k];
      && d.driverCode == e.code
      && d.driverName == e.givenName + " " + e.familyName
      && d.teamName == DriverTeams[e.code]
      && d.teamName in TeamColors && d.colors == TeamColors[d.teamName]
      && d.teamName in TeamImages && d.teamImage == TeamImages[d.teamName]
  {
    var e := KnownDrivers(ds)[k];
    assert e in KnownDrivers(ds);
    EveryTeamIsStyled(e.code);
  }
}
