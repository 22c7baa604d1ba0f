/** The statistics screen (StatsViewController): best period, ideal days,
    completions today and the average per day, computed over the record
    log, and the screen's own weekday convention. */
module Stats {
  import opened Base
  import opened Structs
  import opened Entities
  import Presenter

  // ---------------------------------------------------------------------
  // Best period
  // ---------------------------------------------------------------------

  /** The day a record is grouped under: a record without a date is
      grouped under today (`record.date ?? Date()`). */
  function EffectiveDay(r: StoredRecord, today: Day): Day {
    r.date.GetOr(today)
  }

  /** Size of the group of `day`. */
  function CountOnDay(records: seq<StoredRecord>, day: Day, today: Day): (n: nat)
    ensures n <= |records|
    ensures n > 0 <==> exists r :: r in records && EffectiveDay(r, today) == day
  {
    if records == [] then 0
    else (if EffectiveDay(records[0], today) == day then 1 else 0) + CountOnDay(records[1..], day, today)
  }

  /** The largest group among the days of `days`. */
  function MaxGroup(records: seq<StoredRecord>, days: seq<StoredRecord>, today: Day): (m: nat)
    ensures forall r :: r in days ==> CountOnDay(records, EffectiveDay(r, today), today) <= m
    ensures days == [] ==> m == 0
    ensures days != [] ==> exists r :: r in days && CountOnDay(records, EffectiveDay(r, today), today) == m
  {
    if days == [] then 0
    else
      var rest := MaxGroup(records, days[1..], today);
      var here := CountOnDay(records, EffectiveDay(days[0], today), today);
      if here >= rest then here else rest
  }

  /** `calculateBestPeriod`: the size of the biggest per-day group. */
  function BestPeriod(records: seq<StoredRecord>, today: Day): (best: nat)
    ensures records == [] ==> best == 0
    ensures best <= |records|
    ensures forall day :: CountOnDay(records, day, today) <= best
    ensures records != [] ==> exists day :: CountOnDay(records, day, today) == best
  {
    var best := MaxGroup(records, records, today);
    if records != [] then
      var r :| r in records && CountOnDay(records, EffectiveDay(r, today), today) == best;
      assert CountOnDay(records, EffectiveDay(r, today), today) <= |records|;
      best
    else
      best
  }

  // ---------------------------------------------------------------------
  // The statistics screen's weekday convention
  // ---------------------------------------------------------------------

  /** `isTrackerValid(_:for:)`: the Monday-first index
      `(systemWeekday + 5) % 7`. */
  function IsTrackerValid(t: StoredTracker, day: Day): (due: bool)
    requires Presenter.HasWeekFlags(t)
    ensures t.isIrregular ==> due
    ensures !t.isIrregular && t.schedule.None? ==> !due
    ensures !t.isIrregular && t.schedule.Some? ==>
            (due <==> t.schedule.value[(SystemWeekday(day) + 5) % 7])
  {
    if t.isIrregular then true
    else match t.schedule
      case None => false
      case Some(days) => days[(SystemWeekday(day) + 5) % 7]
  }

  /** Monday (system weekday 2) reads flag 0, Sunday (1) reads flag 6. */
  lemma StatsIndexMondayFirst(day: Day)
    ensures SystemWeekday(day) == 2 ==> (SystemWeekday(day) + 5) % 7 == 0
    ensures SystemWeekday(day) == 1 ==> (SystemWeekday(day) + 5) % 7 == 6
  {
  }

  /** The two screens disagree by exactly one day: the list shows on day
      `day` what the statistics count as due on the following day. */
  lemma PresenterLagsStatsByOneDay(t: StoredTracker, day: Day)
    requires Presenter.HasWeekFlags(t)
    ensures Presenter.IsTrackerValidForToday(t, SystemWeekday(day)) == IsTrackerValid(t, day + 1)
  {
    SystemWeekdayNext(day);
  }

  /** A Monday-only tracker on a Monday: the statistics count it as due,
      the list does not show it. */
  lemma PresenterAndStatsDisagree()
    ensures var t := StoredTracker(Some(1), Some("Run"), None, None,
                                   Some([true, false, false, false, false, false, false]), false, None);
            && SystemWeekday(4) == 2
            && IsTrackerValid(t, 4)
            && !Presenter.IsTrackerValidForToday(t, SystemWeekday(4))
  {
  }

  // ---------------------------------------------------------------------
  // Ideal days
  // ---------------------------------------------------------------------

  /** The earliest and latest record dates; None when no record has one. */
  function Span(records: seq<StoredRecord>): (span: Option<(Day, Day)>)
    ensures span.None? <==> forall r :: r in records ==> r.date.None?
    ensures span.Some? ==> span.value.0 <= span.value.1
    ensures span.Some? ==> forall r :: r in records && r.date.Some? ==>
                             span.value.0 <= r.date.value <= span.value.1
    ensures span.Some? ==> exists r :: r in records && r.date == Some(span.value.0)
    ensures span.Some? ==> exists r :: r in records && r.date == Some(span.value.1)
  {
    if records == [] then None
    else
      var rest := Span(records[1..]);
      assert records == [records[0]] + records[1..];
      match records[0].date
      case None => rest
      case Some(d) =>
        if rest.None? then Some((d, d))
        else Some((if d < rest.value.0 then d else rest.value.0,
                   if d > rest.value.1 then d else rest.value.1))
  }

  /** How many trackers are due on `day`, by the statistics' convention. */
  function DueCount(trackers: seq<StoredTracker>, day: Day): (n: nat)
    requires forall t :: t in trackers ==> Presenter.HasWeekFlags(t)
    ensures n <= |trackers|
  {
    if trackers == [] then 0
    else (if IsTrackerValid(trackers[0], day) then 1 else 0) + DueCount(trackers[1..], day)
  }

  /** How many records carry `day` as their date. */
  function CompletionsOn(records: seq<StoredRecord>, day: Day): (n: nat)
    ensures n <= |records|
    ensures n > 0 <==> exists r :: r in records && r.date == Some(day)
  {
    if records == [] then 0
    else (if records[0].date == Some(day) then 1 else 0) + CompletionsOn(records[1..], day)
  }

  /** A day is ideal when something is due and the day has as many records
      as due trackers. */
  predicate IsIdealDay(records: seq<StoredRecord>, trackers: seq<StoredTracker>, day: Day)
    requires forall t :: t in trackers ==> Presenter.HasWeekFlags(t)
  {
    DueCount(trackers, day) > 0 && CompletionsOn(records, day) == DueCount(trackers, day)
  }

  /** The ideal days in [lo, hi). */
  function CountIdeal(records: seq<StoredRecord>, trackers: seq<StoredTracker>, lo: Day, hi: Day): nat
    requires forall t :: t in trackers ==> Presenter.HasWeekFlags(t)
    decreases hi - lo
  {
    if hi <= lo then 0
    else CountIdeal(records, trackers, lo, hi - 1) + (if IsIdealDay(records, trackers, hi - 1) then 1 else 0)
  }

  /** What `calculateIdealDays` returns. */
  function IdealDays(records: seq<StoredRecord>, trackers: seq<StoredTracker>): nat
    requires forall t :: t in trackers ==> Presenter.HasWeekFlags(t)
  {
    if records == [] then 0
    else match Span(records)
      case None => 0
      case Some((lo, hi)) => CountIdeal(records, trackers, lo, hi + 1)
  }

  lemma {:induction false} CountIdealAtMostSpan(records: seq<StoredRecord>, trackers: seq<StoredTracker>, lo: Day, hi: Day)
    requires forall t :: t in trackers ==> Presenter.HasWeekFlags(t)
    requires lo <= hi
    ensures CountIdeal(records, trackers, lo, hi) <= hi - lo
    decreases hi - lo
  {
    if lo < hi {
      CountIdealAtMostSpan(records, trackers, lo, hi - 1);
    }
  }

  /** Records dated in [lo, hi). */
  function DatedIn(records: seq<StoredRecord>, lo: Day, hi: Day): (n: nat)
    ensures n <= |records|
  {
    if records == [] then 0
    else (if records[0].date.Some? && lo <= records[0].date.value < hi then 1 else 0)
         + DatedIn(records[1..], lo, hi)
  }

  lemma {:induction false} DatedInExtend(records: seq<StoredRecord>, lo: Day, hi: Day)
    requires lo <= hi
    ensures DatedIn(records, lo, hi + 1) == DatedIn(records, lo, hi) + CompletionsOn(records, hi)
  {
    if records != [] {
      DatedInExtend(records[1..], lo, hi);
    }
  }

  /** Every ideal day has at least one record of its own. */
  lemma {:induction false} CountIdealAtMostDated(records: seq<StoredRecord>, trackers: seq<StoredTracker>, lo: Day, hi: Day)
    requires forall t :: t in trackers ==> Presenter.HasWeekFlags(t)
    requires lo <= hi
    ensures CountIdeal(records, trackers, lo, hi) <= DatedIn(records, lo, hi)
    decreases hi - lo
  {
    if lo < hi {
      CountIdealAtMostDated(records, trackers, lo, hi - 1);
      DatedInExtend(records, lo, hi - 1);
    }
  }

  /** Ideal days are 0 without dated records, and otherwise at most the
      number of days in the span and at most the number of records. */
  lemma IdealDaysBounds(records: seq<StoredRecord>, trackers: seq<StoredTracker>)
    requires forall t :: t in trackers ==> Presenter.HasWeekFlags(t)
    ensures Span(records).None? ==> IdealDays(records, trackers) == 0
    ensures Span(records).Some? ==>
            IdealDays(records, trackers) <= Span(records).value.1 - Span(records).value.0 + 1
    ensures IdealDays(records, trackers) <= |records|
  {
    if records != [] && Span(records).Some? {
      var (lo, hi) := Span(records).value;
      CountIdealAtMostSpan(records, trackers, lo, hi + 1);
      CountIdealAtMostDated(records, trackers, lo, hi + 1);
    }
  }

  /** `calculateIdealDays`: walks the span one day at a time. `visited`
      records the days the loop looked at. */
  method CalculateIdealDays(records: seq<StoredRecord>, trackers: seq<StoredTracker>)
    returns (idealCount: nat, ghost visited: seq<Day>)
    requires forall t :: t in trackers ==> Presenter.HasWeekFlags(t)
    ensures idealCount == IdealDays(records, trackers)
    ensures Span(records).None? ==> visited == []
    ensures Span(records).Some? ==>
            visited == seq(Span(records).value.1 - Span(records).value.0 + 1, i => Span(records).value.0 + i)
  {
    visited := [];
    if records == [] {
      return 0, visited;
    }
    var span := Span(records);
    if span.None? {
      return 0, visited;
    }
    var startDay, endDay := span.value.0, span.value.1;
    idealCount := 0;
    var day := startDay;
    while day <= endDay
      invariant startDay <= day <= endDay + 1
      invariant idealCount == CountIdeal(records, trackers, startDay, day)
      invariant visited == seq(day - startDay, i => startDay + i)
      decreases endDay - day
    {
      var validTrackers := DueCount(trackers, day);
      var completionsThisDay := CompletionsOn(records, day);
      if validTrackers > 0 && completionsThisDay == validTrackers {
        idealCount := idealCount + 1;
      }
      visited := visited + [day];
      day := day + 1;
    }
  }

  // ---------------------------------------------------------------------
  // Completed today and the average
  // ---------------------------------------------------------------------

  /** `calculateCompletedToday`: records dated today; undated ones do not count. */
  function CompletedToday(records: seq<StoredRecord>, today: Day): (n: nat)
    ensures n <= |records|
    ensures n > 0 <==> exists r :: r in records && r.date == Some(today)
  {
    CompletionsOn(records, today)
  }

  /** Today's completions never exceed the best period. */
  lemma {:induction false} CompletedTodayAtMostBest(records: seq<StoredRecord>, today: Day)
    ensures CompletedToday(records, today) <= BestPeriod(records, today)
  {
    CompletionsAtMostGroup(records, today);
  }

  lemma {:induction false} CompletionsAtMostGroup(records: seq<StoredRecord>, today: Day)
    ensures CompletionsOn(records, today) <= CountOnDay(records, today, today)
  {
    if records != [] {
      CompletionsAtMostGroup(records[1..], today);
    }
  }

  /** Integer round-half-up of `total / days`: the quotient q with
      `q - 1/2 <= total / days < q + 1/2`. */
  lemma RoundHalfUp(total: nat, days: int)
    requires days >= 1
    ensures 2 * days * ((2 * total + days) / (2 * days)) <= 2 * total + days
    ensures 2 * total + days < 2 * days * ((2 * total + days) / (2 * days) + 1)
  {
    var d := 2 * days;
    var x := 2 * total + days;
    var q := x / d;
    var r := x % d;
    assert x == d * q + r && 0 <= r < d;
    assert d * (q + 1) == d * q + d;
  }

  /** `calculateAverageValue`: all records (undated ones included) over
      the days of the span, rounded to the nearest integer, halves up. */
  function AverageValue(records: seq<StoredRecord>): (avg: nat)
    ensures Span(records).None? ==> avg == 0
    ensures Span(records).Some? ==>
            var days := Span(records).value.1 - Span(records).value.0 + 1;
            2 * days * avg <= 2 * |records| + days < 2 * days * (avg + 1)
  {
    if records == [] then 0
    else match Span(records)
      case None => 0
      case Some((lo, hi)) =>
        var days := hi - lo + 1;
        RoundHalfUp(|records|, days);
        (2 * |records| + days) / (2 * days)
  }

  lemma RoundAtMost(total: nat, days: int)
    requires days >= 1
    ensures (2 * total + days) / (2 * days) <= total
  {
    var d := 2 * days;
    var x := 2 * total + days;
    var q := x / d;
    assert d * q <= x;
    if q > total {
      MulMonotone(total + 1, q, d);
      MulMonotone(1, days, total);
    }
  }

  /** The average never exceeds the number of records. */
  lemma AverageAtMostRecords(records: seq<StoredRecord>)
    ensures AverageValue(records) <= |records|
  {
    if records != [] && Span(records).Some? {
      var (lo, hi) := Span(records).value;
      RoundAtMost(|records|, hi - lo + 1);
    }
  }

  lemma MulMonotone(a: int, b: int, c: nat)
    requires a <= b
    ensures a * c <= b * c
  {
    assert b * c - a * c == (b - a) * c;
  }

  // ---------------------------------------------------------------------
  // The screen
  // ---------------------------------------------------------------------

  datatype StatsScreen =
    | Placeholder
    | Figures(bestPeriod: nat, idealDays: nat, completedToday: nat, averageValue: nat)

  /** `updateStatsUI`: the placeholder when there are no trackers, the four
      figures otherwise. */
  method UpdateStatsUI(trackers: seq<StoredTracker>, records: seq<StoredRecord>, today: Day)
    returns (screen: StatsScreen)
    requires forall t :: t in trackers ==> Presenter.HasWeekFlags(t)
    ensures screen.Placeholder? <==> trackers == []
    ensures screen.Figures? ==>
            screen == Figures(BestPeriod(records, today), IdealDays(records, trackers),
                              CompletedToday(records, today), AverageValue(records))
  {
    if trackers == [] {
      return Placeholder;
    }
    var bestPeriod := BestPeriod(records, today);
    var idealDays, _ := CalculateIdealDays(records, trackers);
    var completedToday := CompletedToday(records, today);
    var averageValue := AverageValue(records);
    screen := Figures(bestPeriod, idealDays, completedToday, averageValue);
  }
}
