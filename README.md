# Skyline generator: contribution calendar flattening and year validation

This project models, in Dafny, the data path of `skylineg`, a command-line tool
that fetches one user's contribution calendar for one year from a GraphQL
service and reduces it to a flat list of per-day records.

Two pieces of `src/main.rs` carry the logic:

- **Year validation** (`year_to_git_timestamp`): a year is accepted when it is
  at least 2008 and strictly before the current UTC year. It then becomes a
  pair of timestamps: `"{year}-01-01T00:00:00Z"` and `"{year}-12-31T11:59:59Z"`.
  The end time is kept exactly as written, at 11:59:59 and not 23:59:59. The
  year is a `u32` written in decimal; `Decimal.NatToString` models that
  formatting.
- **Calendar flattening** (the loop of `get_contributions`): the weeks are
  walked in the order delivered, and so are the days of each week. Each day
  is appended to a vector as `Contribution { week, day, count, color }`. Two
  `u32` counters give the week number and the day-in-week number. A missing
  user fails with `NoUserFound`. A day counter that passes 7 fails with
  `InvalidDay(8, date)`, naming the eighth day's date; that day has already
  been appended when the bail fires. A week counter that passes 53 fails with
  `InvalidWeek(54)`, after that 54th week's days have been walked and checked.

Modules:

- `Decimal` (`decimal.dfy`): decimal rendering of a natural number, its
  inverse, and the leading-digit prefix of a string.
- `Skyline` (`skyline.dfy`): the data types, `YearToGitTimestamp`, the
  specification `Flatten` of what flattening yields, the imperative walk
  `FlattenCalendar` with its two nested loops, proved equal to `Flatten`, and
  `GetContributions`, which joins the two.
- `SkylineProofs` (`skyline_proofs.dfy`): what the records and the failures
  of `Flatten` are, stated against the calendar.

Inputs the program takes from the outside world are parameters here:

- the current year, which the program reads from the clock and casts to
  `u32`, is the `u32` parameter `currentYear`;
- the service is the function parameter `fetch(user, start, end)`. It returns
  the user's calendar, or `None` when the response names no user.

The bounds are those of the code: `current_day += 1; if current_day > 7`
fails on the eighth day of a week, and `current_week += 1; if current_week >
53` fails once the 54th week has been walked (src/main.rs:113-121).

## Model

| member | source | states |
|---|---|---|
| `Decimal.NatToString` | src/main.rs:137-138 | the year is written as a non-empty string of decimal digits with no leading zero, a single digit exactly for numbers below ten |
| `Decimal.DecimalRoundTrip` | src/main.rs:137-138 | reading back the decimal digits written for a number gives that number |
| `Decimal.NatToStringInjective` | src/main.rs:137-138 | different numbers are written as different strings |
| `Decimal.LeadingDigits` | src/main.rs:137-138 | the result is the longest prefix made of digits: a prefix, all digits, followed by a non-digit or by the end |
| `Skyline.StartTimestamp` | src/main.rs:137 | the start timestamp begins with digits that read back as the year, followed by exactly `-01-01T00:00:00Z` |
| `Skyline.EndTimestamp` | src/main.rs:138 | the end timestamp begins with digits that read back as the year, followed by exactly `-12-31T11:59:59Z` (11:59:59, as written) |
| `Skyline.YearToGitTimestamp` | src/main.rs:132-141 | succeeds exactly when 2008 <= year < currentYear, and otherwise fails with InvalidYear |
| `SkylineProofs.TimestampsShareYear` | src/main.rs:136-139 | on success both timestamps begin with the same decimal year, which reads back as the requested year and is followed by `-01-01T00:00:00Z` and `-12-31T11:59:59Z` |
| `SkylineProofs.TimestampInjective` | src/main.rs:136-139 | two accepted years that give the same range are the same year |
| `SkylineProofs.Year2020` | src/main.rs:132-141 | 2020 in any later year gives ("2020-01-01T00:00:00Z", "2020-12-31T11:59:59Z") |
| `SkylineProofs.Year2007` | src/main.rs:133-134 | 2007 is refused with InvalidYear whatever the current year |
| `Skyline.FirstLongWeek` | src/main.rs:113-116 | finds the first week at or after a starting week that holds more than seven days: every week before it holds at most seven, and it holds eight or more unless none does |
| `Skyline.WeekRecords` | src/main.rs:105-112 | the pushes of one week give one record per day of that week |
| `Skyline.Records` | src/main.rs:102-118 | the pushes of all weeks give one record per day of the calendar (the number of records is the total number of days) |
| `Skyline.Flatten` | src/main.rs:98-129 | what the walk yields: NoUserFound exactly when there is no user; an InvalidDay error always names day 8 and the date of the eighth day of one of the first 54 weeks; an InvalidWeek error always names week 54 and happens only with more than 53 weeks; never InvalidYear |
| `Skyline.FlattenInvalidDay` | src/main.rs:113-116 | the first week holding an eighth day, if it is one of the first 54 weeks, fails the run with InvalidDay(8, date of its eighth day) |
| `Skyline.FlattenInvalidWeek` | src/main.rs:118-121 | more than 53 weeks, none of the first 54 holding an eighth day, fail the run with InvalidWeek(54) |
| `Skyline.FlattenValid` | src/main.rs:98-129 | at most 53 weeks of at most seven days each give Ok of every day's record |
| `Skyline.FlattenCalendar` | src/main.rs:98-129 | the nested walk, with its counters, its pushes and its three bails, returns exactly what `Flatten` specifies for the response |
| `Skyline.GetContributions` | src/main.rs:88-130 | an invalid year fails with InvalidYear whatever the service would answer; a valid year asks the service for that year's start and end timestamps and returns the flattening of its answer |
| `SkylineProofs.RecordsAt` | src/main.rs:101-118 | day k of week w becomes the record at position (days of weeks before w) + k, numbered (w, k), with the day's count and colour copied unchanged |
| `SkylineProofs.RecordsSource` | src/main.rs:101-118 | every record names an existing day by (week, day), sits at that day's position and carries that day's count and colour |
| `SkylineProofs.RecordsOrdered` | src/main.rs:101-118 | records appear in strictly increasing week-major, day-minor order |
| `SkylineProofs.FlattenSuccess` | src/main.rs:113-121 | flattening succeeds exactly when there are at most 53 weeks of at most 7 days each; it then yields one record per day, every week number at most 52 and every day number at most 6 |
| `SkylineProofs.FlattenEmpty` | src/main.rs:98-129 | a user with no weeks gives an empty list of records |
| `SkylineProofs.TwoQuietWeeks` | src/main.rs:101-118 | two weeks of seven days with no contributions give 14 records, numbered (0,0) to (1,6) in order, each with count 0 |

## Left out

- The `Contribution` vector and the records in it are values (`seq`). The
  records appended before a bail are discarded with the vector, so the
  model only returns the error.
- The HTTP client, the bearer header and the `GITHUB_API_TOKEN` lookup
  (src/main.rs:55-66) are I/O and configuration.
- The GraphQL requests are network access, and the query types come from a
  derive macro (src/main.rs:16-22, 31-37, 83, 96). The service is the
  parameter `fetch`, and its answer is plain data.
- A transport failure of the request, and a response with no `data` part,
  are not modelled. Both panic through `unwrap` (src/main.rs:96, 98). The
  modelled answer is the `user` field: present or absent.
- `get_user_id` and the base64 and UTF-8 decoding of the identifier in
  `main` (src/main.rs:67-73, 79-86) are a network call and library decoding,
  with no logic of their own.
- Parsing the two timestamps back with `DateTime::from_str` (src/main.rs:93-94)
  is date-library parsing. The model passes the strings to `fetch` as they
  are.
- `Utc::now()` (src/main.rs:133) reads the clock. The current year, after its
  cast to `u32`, is the parameter `currentYear`.
- An invalid year makes `get_contributions` panic at `unwrap`
  (src/main.rs:90). That is not a returned error. `GetContributions` reports
  it as `Err(InvalidYear)`, produced before the service is consulted.
- The error messages are formatted strings in the source. The model keeps
  their content as error variants: day number and date, and week number.
- The `println!` diagnostics (src/main.rs:69-72, 76, 104, 106) and the clap
  argument parsing (src/main.rs:39-54) are console and command-line plumbing.
