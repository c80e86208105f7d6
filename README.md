# Delta F1 API — decision logic

A Dafny model of the pure decision logic inside the Delta F1 backend
(`main.py`). That logic sits between the upstream Ergast race and driver
feeds and the JSON the service answers with. It covers:

- the four static reference tables and their lookups with defaults:
  - country name to country code, falling back to `"F1"`;
  - driver code to team;
  - team to colour set, falling back to `{#FFFFFF, #000000, #808080}`;
  - team to image path, falling back to `/assets/default.avif`;
- the transformation of an upstream race record into a `Race`:
  - the round string is parsed as `int(...)` and used as both `id` and `round`;
  - the date is passed through unchanged;
  - the country code is looked up from the country name;
- the driver listing:
  - only drivers whose code has a team are kept, in input order;
  - each kept driver is transformed, with the guessed portrait URL
    `…/drivers/{G}/{ID}_{given}_{family}/{id}.png`;
- `/api/races/upto`. This endpoint keeps:
  - every race dated at or before "now";
  - the first race dated after "now".

  The result is then reversed. The loop has no `break`, so a past race that
  comes after the first future race is still kept, and the model keeps that
  behaviour.
- `/api/race/{round}`: the first race whose id is the requested round, or
  "Race not found" (404).

The clock and the upstream data are parameters:

- The races and driver records are the already-decoded upstream lists.
- `now` is an integer.
- Dates are ordered through `key: string -> int`, which stands for
  `datetime.fromisoformat` applied to a race's date string.

Errors are values of `Wrappers.Error`:

- `UpstreamUnavailable` (503);
- `DataProcessing` (500);
- `NotFound` (404).

Three Python exceptions become a `Failure` of kind `DataProcessing` (500):

- the IndexError of an empty given name;
- `int()`'s ValueError on a round that is not a decimal literal;
- the validation error of a driver whose code has no team.

A missing race is `NotFound` (404). The other exceptions the source maps to
a status are listed under "## Left out".

The tables are copied exactly, including the Kick Sauber accent colour
`"#00000"` (five digits) and the `"src/assets/…"` image paths.

Three facts about `main.py` shape the model:

- The upto filter keeps the first race after "now" in LIST order, not the
  earliest by date (main.py:354-357).
- Past races listed after that race are still kept, because the loop has no
  `break`.
- `Race` has no `year` field (main.py:118-125).

Files:

- `wrappers.dfy`: Option, Result, Error, and the in-order "transform each"
  of a list comprehension.
- `ascii.dfy`: ASCII case mapping, and `int()`/`str()` on decimal literals.
- `selection.dfy`: order-preserving selection by position, and reversal.
- `models.dfy`: the record shapes.
- `tables.dfy`: the tables and lookups.
- `races.dfy`, `drivers.dfy`: the transformations.
- `endpoints.dfy`: the two imperative loops.

## Model

| member | source | states |
|---|---|---|
| `Tables.CountryCode` | main.py:211-213 | a country name in the table gets its mapped code; any other name gets "F1" |
| `Tables.CountryCodeMissIsUnambiguous` | main.py:9-32 | no table entry is "F1", so the answer is "F1" exactly when the name is unknown; every known name gets two lower-case letters |
| `Tables.ColorsOf` | main.py:231-235 | the team's colour set when the team is in the table, otherwise (including no team) the default `{#FFFFFF, #000000, #808080}` |
| `Tables.ImageOf` | main.py:248 | the team's image path when present, otherwise `/assets/default.avif` |
| `Tables.EveryTeamIsStyled` | main.py:34-115 | every team that a driver code maps to has both colours and an image, so a listed driver never gets the defaults |
| `Ascii.ParseInt` | main.py:258-259 | succeeds exactly on an optionally signed, non-empty ASCII digit string, with the value of its digits and sign (the ASCII-literal part of `int(s)`; see Left out) |
| `Ascii.ParseIntRoundTrip` | main.py:258-259 | parsing the decimal spelling of any integer gives that integer back |
| `Races.TransformRace` | main.py:252-265 | succeeds exactly when the round parses; then id == round == the parsed round, name/circuit/country/date are copied verbatim, countryCode == CountryCode(country); otherwise a 500 error |
| `Races.TransformRaceRound` | main.py:258-259 | a record whose round is the printed integer n becomes a race with id == round == n |
| `Races.ListRaces` | main.py:306-317 | all races transformed in input order: the k-th result is `TransformRace` of the k-th record, so it keeps id == round, its name, circuit, country and date; one unparsable round fails the whole list with 500 |
| `Wrappers.TransformEach` | main.py:280-284 | a list comprehension's result: succeeds iff every element's transform does, with the same length and element-wise results; otherwise the error of the first failing element |
| `Drivers.DriverImageIdShape` | main.py:218-220 | the portrait id `DriverImageId` is the upper-cased 3-character prefixes plus "01", at most 8 characters, with no ASCII lower-case letter; its lower-case form is the lower-cased prefixes plus "01" |
| `Drivers.DriverImageUrl` | main.py:215-223 | fails (IndexError, 500) exactly on an empty given name; otherwise the URL starts with the media base, its folder letter is the upper-cased first given-name character, and it ends with lower(id) + ".png" |
| `Drivers.TransformDriver` | main.py:225-250 | succeeds iff the given name is non-empty and the code has a team; driverName == given + " " + family, cost 30.0, teamName == the table's team, and colours and image come from the team tables or their defaults |
| `Drivers.KnownDrivers` | main.py:280-284 | a driver is kept iff it is in the input and its code is a key of the driver-team table |
| `Drivers.KnownDriversInOrder` | main.py:280-284 | the kept drivers are exactly the input's drivers at the kept positions, in increasing position order |
| `Drivers.KnownIndicesExact` | main.py:283 | a position is kept exactly when the driver there has a code in the driver-team table |
| `Drivers.KnownDriversSucceed` | main.py:280-284 | the kept drivers all transform exactly when none of them has an empty given name |
| `Drivers.ListDrivers` | main.py:280-291 | fails (500) iff a kept driver has an empty given name; otherwise one transformed driver per kept record, in the same order |
| `Drivers.ListedDriver` | main.py:227-248 | the k-th listed driver comes from the k-th kept record, with teamName == DRIVER_TEAM_MAP[code], the name "given family", and its team's own colours and image from the tables, never the defaults |
| `Endpoints.GetUpToNextRaces` | main.py:346-361 | the loop with its `added` flag and the final reverse return exactly the races kept by the rule "dated at or before now, or the first dated after now", in reverse input order |
| `Endpoints.UpToNextKeepsPast` | main.py:351-353 | every race dated at or before now is answered |
| `Endpoints.UpToNextOnlyFirstFuture` | main.py:354-357 | an answered race dated after now is the first such race of the list |
| `Endpoints.UpToNextAtMostOneFuture` | main.py:351-357 | at most one answered race is dated after now |
| `Endpoints.UpToNextLength` | main.py:349-359 | the answer's length is the number of past-or-present races plus one if any race is later |
| `Endpoints.UpToNextAllPast` | main.py:349-359 | when every race is past, the answer is the whole list reversed (so the empty list gives the empty answer) |
| `Endpoints.UpToNextNotStarted` | main.py:349-359 | when every race is later than now, the answer is the first race alone |
| `Endpoints.UpToNextMidSeason` | main.py:349-359 | two past races and one later race come back as all three, latest first |
| `Endpoints.UpToNextPastAfterFuture` | main.py:351-359 | with no `break`, a past race listed after two later ones is still answered, and the second later race is not |
| `Endpoints.GetRace` | main.py:366-372 | returns the first race whose id equals the round; fails with NotFound("Race not found"), status 404, iff no race has that id |

## Left out

- HTTP wiring is not modelled:
  - the FastAPI application, routes, decorators and CORS middleware;
  - the root liveness message.
- Network I/O is not modelled: the `httpx` fetching, `async`/`await` and the
  10-second timeout. The failures they map to (`UpstreamUnavailable` → 503,
  other exceptions → 500) appear only as the `Error` kinds.
- JSON decoding and pydantic validation of the upstream envelope are not
  modelled. The records are given already decoded as datatypes.
- The clock is not modelled:
  - `datetime.now()` and the default-year choice;
  - `datetime.fromisoformat`, including the ValueError it raises on a
    malformed date.

  `now` and the date ordering `key` are parameters instead.
- `deltaCost` is left out. It is computed from Python's per-process
  randomised `hash()` and float rounding, so it has no stable value to state.
  The `Driver` record has no such field.
- `cost` is the constant 30.0, written as a Dafny `real`.
- `Ascii.ParseInt` does not accept everything Python's `int()` accepts.
  It takes only an optional sign followed by ASCII digits. It rejects what
  `int()` also allows:
  - surrounding whitespace;
  - `_` digit separators;
  - non-ASCII digits.

  In the other direction it accepts digit strings of any length, while
  CPython's `int()` raises ValueError beyond 4300 digits. Such a round fails
  the source with 500 but passes `Races.TransformRace` and `Races.ListRaces`.
- `Drivers.DriverImageUrl` and `Drivers.DriverImageIdShape`: case mapping is
  ASCII only. Letters outside ASCII are left unchanged, where Python's
  `str.upper` and `str.lower` map them (e.g. "Hülkenberg", driver HUL, gives
  "NICHüL01" in the model and "NICHÜL01" in Python).
- `Drivers.TransformDriver`: the text of the 500 error bodies approximates the
  Python exception messages; only the error kind and status are exact.
- `Races.TransformRace`: the 500 error text approximates Python's message,
  which also quotes the rejected round; only the error kind and status are
  exact.
- `Races.TransformRace` and `Races.ListRaces`: the source parses the date with
  `datetime.fromisoformat` before the round, so a malformed date also fails
  the race, and the whole list, with 500. The model does not parse dates, so
  it succeeds whenever every round parses.
- The unused `today` and `index` locals of the race transformation are left
  out.
