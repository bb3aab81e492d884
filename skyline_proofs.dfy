/** Properties of the date range and of the flattened calendar. */
module SkylineProofs {
  import opened Decimal
  import opened Skyline

  // ---------------------------------------------------------------------------
  // Date range

  /** The year a timestamp starts with, read back from its leading digits. */
  function YearOf(timestamp: string): nat {
    DecimalValue(LeadingDigits(timestamp))
  }

  /** Both ends of an accepted range begin with the same decimal year, that
      year reads back as the one asked for, and what follows it is the fixed
      date and time of each end. */
  lemma TimestampsShareYear(year: u32, currentYear: u32)
    requires FIRST_YEAR <= year < currentYear
    ensures YearToGitTimestamp(year, currentYear).Ok?
    ensures var (start, end) := YearToGitTimestamp(year, currentYear).value;
      LeadingDigits(start) == LeadingDigits(end) == NatToString(year) &&
      YearOf(start) == year && YearOf(end) == year &&
      start == LeadingDigits(start) + "-01-01T00:00:00Z" &&
      end == LeadingDigits(end) + "-12-31T11:59:59Z"
  {
  }

  /** Accepted years give different ranges: the range determines the year. */
  lemma TimestampInjective(y1: u32, y2: u32, currentYear: u32)
    requires YearToGitTimestamp(y1, currentYear).Ok?
    requires YearToGitTimestamp(y1, currentYear) == YearToGitTimestamp(y2, currentYear)
    ensures y1 == y2
  {
  }

  /** 2020 is written "2020". */
  lemma Digits2020()
    ensures NatToString(2020) == "2020"
  {
  }

  /** The range of 2020 starts at "2020-01-01T00:00:00Z". */
  lemma Start2020()
    ensures StartTimestamp(2020) == "2020-01-01T00:00:00Z"
  {
    Digits2020();
  }

  /** The range of 2020 ends at "2020-12-31T11:59:59Z". */
  lemma End2020()
    ensures EndTimestamp(2020) == "2020-12-31T11:59:59Z"
  {
    Digits2020();
  }

  /** The year 2020, asked for in a later year. */
  lemma Year2020(currentYear: u32)
    requires currentYear > 2020
    ensures YearToGitTimestamp(2020, currentYear) == Ok(("2020-01-01T00:00:00Z", "2020-12-31T11:59:59Z"))
  {
    Start2020();
    End2020();
  }

  /** A year before 2008 is refused whatever the current year. */
  lemma Year2007(currentYear: u32)
    ensures YearToGitTimestamp(2007, currentYear) == Err(InvalidYear)
  {
  }

  // ---------------------------------------------------------------------------
  // Records

  /** Record `c` comes before record `d` in week-major, day-minor order. */
  predicate Before(c: Contribution, d: Contribution) {
    c.week < d.week || (c.week == d.week && c.day < d.day)
  }

  /** Day `k` of week `w` becomes the record at position
      `TotalDays(weeks[..w]) + k` (the days of the earlier weeks come first),
      numbered `(w, k)` and carrying the day's count and colour unchanged. */
  lemma {:induction false} RecordsAt(weeks: Calendar, w: nat, k: nat)
    requires Indexable(weeks)
    requires w < |weeks| && k < |weeks[w]|
    ensures TotalDays(weeks[..w]) + k < |Records(weeks)|
    ensures Records(weeks)[TotalDays(weeks[..w]) + k]
         == Contribution(w, k, weeks[w][k].contributionCount, weeks[w][k].color)
  {
    var n := |weeks|;
    var init := weeks[..n - 1];
    if w < n - 1 {
      RecordsAt(init, w, k);
      assert init[..w] == weeks[..w];
    } else {
      assert weeks[..w] == init;
    }
  }

  /** Conversely, every record comes from one day: its `(week, day)` names a
      day of the calendar, it sits at that day's position and it carries that
      day's count and colour. */
  lemma {:induction false} RecordsSource(weeks: Calendar, i: nat)
    requires Indexable(weeks)
    requires i < |Records(weeks)|
    ensures var c := Records(weeks)[i];
      c.week < |weeks| && c.day < |weeks[c.week]| &&
      i == TotalDays(weeks[..c.week]) + c.day &&
      c.count == weeks[c.week][c.day].contributionCount &&
      c.color == weeks[c.week][c.day].color
  {
    var n := |weeks|;
    var init := weeks[..n - 1];
    var c := Records(weeks)[i];
    if i < |Records(init)| {
      RecordsSource(init, i);
      assert init[..c.week] == weeks[..c.week];
    } else {
      assert weeks[..n - 1] == init;
    }
  }

  /** Records appear in strictly increasing week-major, day-minor order. */
  lemma {:induction false} RecordsOrdered(weeks: Calendar, i: nat, j: nat)
    requires Indexable(weeks)
    requires i < j < |Records(weeks)|
    ensures Before(Records(weeks)[i], Records(weeks)[j])
  {
    var n := |weeks|;
    var init := weeks[..n - 1];
    var m := |Records(init)|;
    if j < m {
      RecordsOrdered(init, i, j);
    } else if i < m {
      RecordsSource(init, i);
    }
  }

  // ---------------------------------------------------------------------------
  // Flattening

  /** Flattening succeeds exactly when there are at most 53 weeks of at most
      seven days each; it then yields one record per day, every week number
      at most 52 and every day number at most 6. Automatic induction is
      switched off so that the calls in the body are the proof. */
  lemma {:induction false} FlattenSuccess(weeks: Calendar)
    ensures Flatten(Some(weeks)).Ok? <==>
      |weeks| <= MAX_WEEKS && forall w :: 0 <= w < |weeks| ==> |weeks[w]| <= MAX_DAYS_PER_WEEK
    ensures Flatten(Some(weeks)).Ok? ==>
      var r := Flatten(Some(weeks)).value;
      Indexable(weeks) && r == Records(weeks) && |r| == TotalDays(weeks) &&
      forall i :: 0 <= i < |r| ==> r[i].week < MAX_WEEKS && r[i].day < MAX_DAYS_PER_WEEK
  {
    if Flatten(Some(weeks)).Ok? {
      var r := Flatten(Some(weeks)).value;
      forall i | 0 <= i < |r|
        ensures r[i].week < MAX_WEEKS && r[i].day < MAX_DAYS_PER_WEEK
      {
        RecordsSource(weeks, i);
      }
    }
  }

  /** A user whose calendar has no weeks gives no records. */
  lemma FlattenEmpty()
    ensures Flatten(Some([])) == Ok([])
  {
  }

  /** Two full weeks of days without contributions give 14 records numbered
      (0,0) to (0,6) and then (1,0) to (1,6), each with count 0. */
  lemma TwoQuietWeeks(first: seq<ContributionDay>, second: seq<ContributionDay>)
    requires |first| == 7 && |second| == 7
    requires forall k :: 0 <= k < 7 ==> first[k].contributionCount == 0 && second[k].contributionCount == 0
    ensures Flatten(Some([first, second])).Ok?
    ensures var r := Flatten(Some([first, second])).value;
      |r| == 14 &&
      forall i :: 0 <= i < 14 ==> r[i].week == i / 7 && r[i].day == i % 7 && r[i].count == 0
  {
    var weeks := [first, second];
    FlattenSuccess(weeks);
    var r := Flatten(Some(weeks)).value;
    assert weeks[..0] == [];
    assert weeks[..1] == [first];
    assert TotalDays([first]) == 7 by {
      assert [first][..0] == [];
    }
    forall i | 0 <= i < 14
      ensures r[i].week == i / 7 && r[i].day == i % 7 && r[i].count == 0
    {
      RecordsAt(weeks, i / 7, i % 7);
    }
  }
}
