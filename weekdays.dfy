/** The weekday selection shared by the creation, editing and schedule
    screens: a set of short Russian day names, converted to and from the
    seven Monday-first flags a `Schedule` stores, and the summary line the
    settings table shows under "Расписание". */
module Weekdays {
  import opened Base

  /** `["Пн","Вт","Ср","Чт","Пт","Сб","Вс"]`, Monday first. */
  const WeekdayShorts: seq<string> := ["Пн", "Вт", "Ср", "Чт", "Пт", "Сб", "Вс"]

  /** Position of a short day name in the Monday-first week. */
  function DayIndex(d: string): (i: nat)
    requires d in WeekdayShorts
    ensures i < 7 && WeekdayShorts[i] == d
  {
    if d == "Пн" then 0 else if d == "Вт" then 1 else if d == "Ср" then 2
    else if d == "Чт" then 3 else if d == "Пт" then 4 else if d == "Сб" then 5
    else 6
  }

  /** `weekdays.map { selectedWeekdays.contains($0) }`: the schedule saved for
      a selection. */
  function ScheduleFlags(selected: set<string>): (flags: seq<bool>)
    ensures |flags| == 7
    ensures forall i :: 0 <= i < 7 ==> (flags[i] <==> WeekdayShorts[i] in selected)
  {
    [ "Пн" in selected, "Вт" in selected, "Ср" in selected, "Чт" in selected,
      "Пт" in selected, "Сб" in selected, "Вс" in selected ]
  }

  /** The short names of the set flags among the first seven: the selection
      the edit screen loads from a stored schedule. */
  function SelectedNames(flags: seq<bool>): (names: set<string>)
  {
    set i | 0 <= i < |flags| && i < 7 && flags[i] :: WeekdayShorts[i]
  }

  lemma SelectedNamesMember(flags: seq<bool>, i: nat)
    requires i < |flags| && i < 7
    ensures WeekdayShorts[i] in SelectedNames(flags) <==> flags[i]
  {
    if WeekdayShorts[i] in SelectedNames(flags) {
      var j :| 0 <= j < |flags| && j < 7 && flags[j] && WeekdayShorts[j] == WeekdayShorts[i];
      assert j == i;
    }
  }

  /** Loading a seven-flag schedule into a selection and saving the
      selection gives back the same flags. */
  lemma FlagsRoundTrip(flags: seq<bool>)
    requires |flags| == 7
    ensures ScheduleFlags(SelectedNames(flags)) == flags
  {
    forall i | 0 <= i < 7 ensures ScheduleFlags(SelectedNames(flags))[i] == flags[i] {
      SelectedNamesMember(flags, i);
    }
  }

  /** Saving a selection and loading it back keeps exactly its weekday
      names; anything else in the set is lost. */
  lemma NamesRoundTrip(selected: set<string>)
    ensures SelectedNames(ScheduleFlags(selected)) == selected * set d | d in WeekdayShorts
  {
    var flags := ScheduleFlags(selected);
    forall d | d in selected && d in WeekdayShorts
      ensures d in SelectedNames(flags)
    {
      var i := DayIndex(d);
      SelectedNamesMember(flags, i);
    }
  }

  // ---------------------------------------------------------------------
  // The schedule summary: `weekdays.filter { selected.contains($0) }
  //                        .joined(separator: ", ")`
  // ---------------------------------------------------------------------

  /** The selected days among WeekdayShorts[k..], in week order. */
  function SelectedFrom(selected: set<string>, k: nat): (r: seq<string>)
    requires k <= 7
    ensures forall d :: d in r ==> d in WeekdayShorts && d in selected && DayIndex(d) >= k
    ensures forall j :: k <= j < 7 && WeekdayShorts[j] in selected ==> WeekdayShorts[j] in r
    ensures forall a, b :: 0 <= a < b < |r| ==> DayIndex(r[a]) < DayIndex(r[b])
    decreases 7 - k
  {
    if k == 7 then []
    else
      var rest := SelectedFrom(selected, k + 1);
      assert DayIndex(WeekdayShorts[k]) == k;
      if WeekdayShorts[k] in selected then [WeekdayShorts[k]] + rest else rest
  }

  /** The days the summary lists: exactly the selected weekdays, Monday
      first. */
  function SummaryDays(selected: set<string>): (r: seq<string>)
    ensures forall d :: d in r <==> d in WeekdayShorts && d in selected
    ensures forall a, b :: 0 <= a < b < |r| ==> DayIndex(r[a]) < DayIndex(r[b])
  {
    var r := SelectedFrom(selected, 0);
    assert forall d :: d in WeekdayShorts ==> WeekdayShorts[DayIndex(d)] == d;
    r
  }

  function Join(parts: seq<string>, sep: string): (r: string)
    ensures parts == [] ==> r == ""
    ensures parts != [] && parts[0] != "" ==> r != ""
  {
    if parts == [] then ""
    else if |parts| == 1 then parts[0]
    else parts[0] + sep + Join(parts[1..], sep)
  }

  /** The text shown under "Расписание". */
  function ScheduleSummary(selected: set<string>): (r: string)
    ensures r == "" <==> forall d :: d in WeekdayShorts ==> d !in selected
  {
    var days := SummaryDays(selected);
    assert days != [] ==> days[0] in WeekdayShorts && days[0] in selected;
    Join(days, ", ")
  }
}
