/**
  The four static reference tables and the lookups that fall back to a
  default on a miss. All keys are matched exactly (case and spaces count).
 */
module Tables {
  import opened Wrappers
  import opened Models

  /** Country name to two-letter country code. */
  const CountryCodes: map<string, string> := map[
    "Australia" := "au",
    "Bahrain" := "bh",
    "Saudi Arabia" := "sa",
    "Japan" := "jp",
    "China" := "cn",
    "United States" := "us",
    "Italy" := "it",
    "Monaco" := "mc",
    "Canada" := "ca",
    "Spain" := "es",
    "Austria" := "at",
    "UK" := "gb",
    "Hungary" := "hu",
    "Belgium" := "be",
    "Netherlands" := "nl",
    "Singapore" := "sg",
    "Azerbaijan" := "az",
    "Mexico" := "mx",
    "Brazil" := "br",
    "Qatar" := "qa",
    "UAE" := "ae",
    "USA" := "us"
  ]

  /** Three-letter driver code to team name; drivers outside it are never listed. */
  const DriverTeams: map<string, string> := map[
    "ALB" := "Williams Racing",
    "SAI" := "Williams Racing",
    "VER" := "Red Bull Racing",
    "TSU" := "Red Bull Racing",
    "HAM" := "Ferrari",
    "LEC" := "Ferrari",
    "NOR" := "McLaren Racing",
    "PIA" := "McLaren Racing",
    "RUS" := "Mercedes",
    "ANT" := "Mercedes",
    "ALO" := "Aston Martin",
    "STR" := "Aston Martin",
    "BEA" := "Haas F1 Team",
    "OCO" := "Haas F1 Team",
    "GAS" := "Alpine F1 Team",
    "COL" := "Alpine F1 Team",
    "HAD" := "RB F1 Team",
    "LAW" := "RB F1 Team",
    "BOR" := "Kick Sauber",
    "HUL" := "Kick Sauber"
  ]

  /** Team name to colour set. Kick Sauber's accent is the five-digit "#00000", as the table has it. */
  const TeamColors: map<string, DriverColors> := map[
    "Williams Racing" := DriverColors("#041E42", "#FFFFFF", None),
    "Red Bull Racing" := DriverColors("#001526", "#0073D0", None),
    "Ferrari" := DriverColors("#B41726", "#FFFFFF", Some("#B41726")),
    "McLaren Racing" := DriverColors("#DE6A10", "#000000", Some("#FF8700")),
    "Mercedes" := DriverColors("#00d7b7", "#000000", Some("#FFFFFF")),
    "Aston Martin" := DriverColors("#0A5A4F", "#CEDC00", None),
    "Haas F1 Team" := DriverColors("#000", "#D92A1C", Some("#FFFFFF")),
    "Alpine F1 Team" := DriverColors("#061A4D", "#FF87BC", None),
    "RB F1 Team" := DriverColors("#1433C9", "#FFFFFF", None),
    "Kick Sauber" := DriverColors("#07C00F", "#00000", None)
  ]

  /** Team name to team image path. */
  const TeamImages: map<string, string> := map[
    "Williams Racing" := "src/assets/williams.avif",
    "Red Bull Racing" := "src/assets/redbull.avif",
    "Ferrari" := "src/assets/ferrari.avif",
    "McLaren Racing" := "src/assets/mclaren.avif",
    "Mercedes" := "src/assets/mercedes.avif",
    "Aston Martin" := "src/assets/aston_martin.avif",
    "Haas F1 Team" := "src/assets/haas.avif",
    "Alpine F1 Team" := "src/assets/alpine.avif",
    "RB F1 Team" := "src/assets/vcarb.avif",
    "Kick Sauber" := "src/assets/kick_sauber.avif"
  ]

  const DefaultCountryCode: string := "F1"
  const DefaultColors: DriverColors := DriverColors("#FFFFFF", "#000000", Some("#808080"))
  const DefaultTeamImage: string := "/assets/default.avif"

  /** `get_country_code`: the mapped code for a known country name, "F1" for any other. */
  function CountryCode(country: string): (code: string)
    ensures country in CountryCodes ==> code == CountryCodes[country]
    ensures country !in CountryCodes ==> code == DefaultCountryCode
  {
    if country in CountryCodes then CountryCodes[country] else DefaultCountryCode
  }

  /** A team's colour set, or the default set for a team (or no team) the table lacks. */
  function ColorsOf(team: Option<string>): (c: DriverColors)
    ensures team.Some? && team.value in TeamColors ==> c == TeamColors[team.value]
    ensures (team.None? || team.value !in TeamColors) ==> c == DefaultColors
  {
    if team.Some? && team.value in TeamColors then TeamColors[team.value] else DefaultColors
  }

  /** A team's image path, or the default path for a team (or no team) the table lacks. */
  function ImageOf(team: Option<string>): (path: string)
    ensures team.Some? && team.value in TeamImages ==> path == TeamImages[team.value]
    ensures (team.None? || team.value !in TeamImages) ==> path == DefaultTeamImage
  {
    if team.Some? && team.value in TeamImages then TeamImages[team.value] else DefaultTeamImage
  }

  /**
    "F1" never comes out of the table, so a returned "F1" always means the
    country was unknown; every other answer is two lower-case letters.
   */
  lemma CountryCodeMissIsUnambiguous(country: string)
    ensures CountryCode(country) == DefaultCountryCode <==> country !in CountryCodes
    ensures country in CountryCodes ==>
      |CountryCode(country)| == 2
      && 'a' <= CountryCode(country)[0] <= 'z' && 'a' <= CountryCode(country)[1] <= 'z'
  {
  }

  /** Every team a driver can be assigned has its own colours and image, so listed drivers never get defaults. */
  lemma EveryTeamIsStyled(code: string)
    requires code in DriverTeams
    ensures DriverTeams[code] in TeamColors && DriverTeams[code] in TeamImages
  {
  }
}
