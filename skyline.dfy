/** The data path of the skyline generator: checking the requested year and
    turning it into the query's date range, and flattening the contribution
    calendar the service returns (weeks of days) into one record per day. */
module Skyline {
  import opened Decimal

  /** Rust's `u32` and `i64`. */
  type u32 = x: int | 0 <= x < 0x1_0000_0000
  type i64 = x: int | -0x8000_0000_0000_0000 <= x < 0x8000_0000_0000_0000

  datatype Option<T> = None | Some(value: T)

  /** Why a run fails. `InvalidYear` is the year check, which the caller
      unwraps (an abort before any query); the others are the bails of the
      flattening loop. */
  datatype Error =
    | InvalidYear
    | NoUserFound
    | InvalidDay(day: nat, date: string)
    | InvalidWeek(week: nat)

  datatype Result<T> = Ok(value: T) | Err(error: Error)

  /** One day of the calendar as delivered: its date, its number of
      contributions and its display colour. */
  datatype ContributionDay = ContributionDay(date: string, contributionCount: i64, color: string)

  /** The calendar as delivered: a list of weeks, each a list of days, in the
      service's order. */
  type Calendar = seq<seq<ContributionDay>>

  /** One flattened record: the position of its day in the calendar and the
      day's count and colour. */
  datatype Contribution = Contribution(week: u32, day: u32, count: i64, color: string)

  /** The earliest year accepted. */
  const FIRST_YEAR: nat := 2008
  /** A week may hold at most this many days; the next one aborts the run. */
  const MAX_DAYS_PER_WEEK: nat := 7
  /** At most this many weeks; the next one aborts the run. */
  const MAX_WEEKS: nat := 53

  // ---------------------------------------------------------------------------
  // Year validation

  /** The start of the query range: midnight UTC on January 1 of `year`.
      It reads back as `year` followed by the fixed date and time. */
  function StartTimestamp(year: u32): (s: string)
    ensures DecimalValue(LeadingDigits(s)) == year
    ensures s[|LeadingDigits(s)|..] == "-01-01T00:00:00Z"
  {
    var digits := NatToString(year);
    LeadingDigitsOfConcat(digits, "-01-01T00:00:00Z");
    DecimalRoundTrip(year);
    digits + "-01-01T00:00:00Z"
  }

  /** The end of the query range, as the program writes it: December 31 of
      `year` at 11:59:59 UTC. It reads back as `year` followed by the fixed
      date and time. */
  function EndTimestamp(year: u32): (s: string)
    ensures DecimalValue(LeadingDigits(s)) == year
    ensures s[|LeadingDigits(s)|..] == "-12-31T11:59:59Z"
  {
    var digits := NatToString(year);
    LeadingDigitsOfConcat(digits, "-12-31T11:59:59Z");
    DecimalRoundTrip(year);
    digits + "-12-31T11:59:59Z"
  }

  /** The date range for `year`, where `currentYear` is the current UTC
      calendar year: only the years from 2008 up to, but not including, the
      current one are accepted. */
  function YearToGitTimestamp(year: u32, currentYear: u32): (r: Result<(string, string)>)
    ensures r.Ok? <==> FIRST_YEAR <= year < currentYear
    ensures r.Err? ==> r.error == InvalidYear
  {
    if year < FIRST_YEAR || year >= currentYear then Err(InvalidYear)
    else Ok((StartTimestamp(year), EndTimestamp(year)))
  }

  // ---------------------------------------------------------------------------
  // Flattening, as a specification

  /** The first week at or after `from` that holds more days than a week may;
      `|weeks|` when there is none. */
  function FirstLongWeek(weeks: Calendar, from: nat): (w: nat)
    requires from <= |weeks|
    ensures from <= w <= |weeks|
    ensures forall v :: from <= v < w ==> |weeks[v]| <= MAX_DAYS_PER_WEEK
    ensures w < |weeks| ==> |weeks[w]| > MAX_DAYS_PER_WEEK
    decreases |weeks| - from
  {
    if from == |weeks| || |weeks[from]| > MAX_DAYS_PER_WEEK then from
    else FirstLongWeek(weeks, from + 1)
  }

  /** Every week index and every day index of `weeks` fits a `u32`. */
  predicate Indexable(weeks: Calendar) {
    |weeks| <= 0x1_0000_0000 &&
    forall w :: 0 <= w < |weeks| ==> |weeks[w]| <= 0x1_0000_0000
  }

  /** The records of the days of week number `w`: day k becomes
      `Contribution(w, k, …)` with its count and colour copied. */
  function WeekRecords(w: u32, days: seq<ContributionDay>): (r: seq<Contribution>)
    requires |days| <= 0x1_0000_0000
    ensures |r| == |days|
  {
    seq(|days|, k requires 0 <= k < |days| => Contribution(w, k, days[k].contributionCount, days[k].color))
  }

  /** The number of days in `weeks`. */
  function TotalDays(weeks: Calendar): nat {
    if weeks == [] then 0 else TotalDays(weeks[..|weeks| - 1]) + |weeks[|weeks| - 1]|
  }

  /** The records of all of `weeks`, week after week: one per day. */
  function Records(weeks: Calendar): (r: seq<Contribution>)
    requires Indexable(weeks)
    ensures |r| == TotalDays(weeks)
  {
    if weeks == [] then []
    else Records(weeks[..|weeks| - 1]) + WeekRecords(|weeks| - 1, weeks[|weeks| - 1])
  }

  /** What flattening a response yields. With no user the run fails. Otherwise
      the first failure of the walk decides: the first week with an eighth day,
      if it is one of the first 54 weeks (the 54th week's days are still
      walked), fails on that day; else a 54th week fails once it is walked;
      else every day becomes a record. */
  function Flatten(response: Option<Calendar>): (r: Result<seq<Contribution>>)
    ensures r == Err(NoUserFound) <==> response.None?
    ensures r.Err? ==> !r.error.InvalidYear?
    ensures r.Err? && r.error.InvalidDay? ==>
      r.error.day == MAX_DAYS_PER_WEEK + 1 &&
      exists w :: 0 <= w <= MAX_WEEKS && w < |response.value| &&
        MAX_DAYS_PER_WEEK < |response.value[w]| &&
        r.error.date == response.value[w][MAX_DAYS_PER_WEEK].date
    ensures r.Err? && r.error.InvalidWeek? ==>
      r.error.week == MAX_WEEKS + 1 && |response.value| > MAX_WEEKS
  {
    match response
    case None => Err(NoUserFound)
    case Some(weeks) =>
      var w := FirstLongWeek(weeks, 0);
      if w < |weeks| && w <= MAX_WEEKS then
        Err(InvalidDay(MAX_DAYS_PER_WEEK + 1, weeks[w][MAX_DAYS_PER_WEEK].date))
      else if |weeks| > MAX_WEEKS then
        Err(InvalidWeek(MAX_WEEKS + 1))
      else
        Ok(Records(weeks))
  }

  /** Pushing the record of day `j` extends the records of the days before it. */
  lemma WeekRecordsStep(w: u32, days: seq<ContributionDay>, j: nat)
    requires j < |days| && j < 0x1_0000_0000
    ensures WeekRecords(w, days[..j + 1])
         == WeekRecords(w, days[..j]) + [Contribution(w, j, days[j].contributionCount, days[j].color)]
  {
    assert days[..j + 1][..j] == days[..j];
  }

  /** Finishing week `i` extends the records of the weeks before it. */
  lemma RecordsStep(weeks: Calendar, i: nat)
    requires i < |weeks| && Indexable(weeks[..i + 1])
    ensures Indexable(weeks[..i])
    ensures Records(weeks[..i + 1]) == Records(weeks[..i]) + WeekRecords(i, weeks[i])
  {
    assert weeks[..i + 1][..i] == weeks[..i];
  }

  /** The first week to hold an eighth day, if it is among the first 54,
      fails the run with day number 8 and the date of that eighth day. */
  lemma FlattenInvalidDay(weeks: Calendar, w: nat)
    requires w < |weeks| && w <= MAX_WEEKS
    requires |weeks[w]| > MAX_DAYS_PER_WEEK
    requires forall v :: 0 <= v < w ==> |weeks[v]| <= MAX_DAYS_PER_WEEK
    ensures Flatten(Some(weeks)) == Err(InvalidDay(8, weeks[w][7].date))
  {
  }

  /** A 54th week, when none of the first 54 holds an eighth day, fails the
      run with week number 54. */
  lemma FlattenInvalidWeek(weeks: Calendar)
    requires |weeks| > MAX_WEEKS
    requires forall v :: 0 <= v <= MAX_WEEKS ==> |weeks[v]| <= MAX_DAYS_PER_WEEK
    ensures Flatten(Some(weeks)) == Err(InvalidWeek(54))
  {
  }

  /** At most 53 weeks of at most seven days each give every day's record. */
  lemma FlattenValid(weeks: Calendar)
    requires |weeks| <= MAX_WEEKS
    requires forall v :: 0 <= v < |weeks| ==> |weeks[v]| <= MAX_DAYS_PER_WEEK
    ensures Indexable(weeks) && Flatten(Some(weeks)) == Ok(Records(weeks))
  {
  }

  // ---------------------------------------------------------------------------
  // Flattening, as the program does it

  /** The walk over the calendar: two counters and a growing vector of
      records, with a bail as soon as a counter passes its bound. */
  method FlattenCalendar(response: Option<Calendar>) returns (r: Result<seq<Contribution>>)
    ensures r == Flatten(response)
  {
    var contributions: seq<Contribution> := [];
    if response.None? {
      return Err(NoUserFound);
    }
    var weeks := response.value;
    var currentWeek: u32 := 0;
    for i := 0 to |weeks|
      invariant currentWeek == i <= MAX_WEEKS
      invariant forall v :: 0 <= v < i ==> |weeks[v]| <= MAX_DAYS_PER_WEEK
      invariant contributions == Records(weeks[..i])
    {
      var week := weeks[i];
      var currentDay: u32 := 0;
      ghost var done := contributions;
      for j := 0 to |week|
        invariant currentDay == j <= MAX_DAYS_PER_WEEK
        invariant contributions == done + WeekRecords(currentWeek, week[..j])
      {
        var day := week[j];
        contributions := contributions + [Contribution(currentWeek, currentDay, day.contributionCount, day.color)];
        currentDay := currentDay + 1;
        if currentDay > MAX_DAYS_PER_WEEK {
          FlattenInvalidDay(weeks, i);
          return Err(InvalidDay(currentDay, day.date));
        }
        WeekRecordsStep(currentWeek, week, j);
      }
      assert week[..|week|] == week;
      RecordsStep(weeks, i);
      currentWeek := currentWeek + 1;
      if currentWeek > MAX_WEEKS {
        FlattenInvalidWeek(weeks);
        return Err(InvalidWeek(currentWeek));
      }
    }
    assert weeks[..|weeks|] == weeks;
    FlattenValid(weeks);
    return Ok(contributions);
  }

  /** `get_contributions` without its network call: `fetch` stands for the
      service, answering a user name and a date range with the user's
      calendar, or with no user. An invalid year stops the run before the
      service is asked. */
  method GetContributions(
    user: string, year: u32, currentYear: u32,
    fetch: (string, string, string) -> Option<Calendar>
  ) returns (r: Result<seq<Contribution>>)
    ensures !(FIRST_YEAR <= year < currentYear) ==> r == Err(InvalidYear)
    ensures FIRST_YEAR <= year < currentYear ==>
              r == Flatten(fetch(user, StartTimestamp(year), EndTimestamp(year)))
  {
    var range := YearToGitTimestamp(year, currentYear);
    if range.Err? {
      return Err(range.error);
    }
    var (start, end) := range.value;
    var response := fetch(user, start, end);
    r := FlattenCalendar(response);
  }
}
