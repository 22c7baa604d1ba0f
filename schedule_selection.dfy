/** The weekday picker (ScheduleSelectionViewController): seven rows with a
    switch each, full Russian day names shown, short names collected in
    `selectedDays` and handed back to the presenting screen on Done. */
module ScheduleSelection {
  import opened Weekdays

  /** The rows, Monday first. */
  const Days: seq<string> := ["Понедельник", "Вторник", "Среда", "Четверг",
                              "Пятница", "Суббота", "Воскресенье"]

  /** `dayNameShort`: the short name of a full day name; any other string
      is returned unchanged. Row i's short name is the i-th Monday-first
      weekday, the one `Schedule.daysOfWeek[i]` stands for. */
  function DayNameShort(fullName: string): (r: string)
    ensures forall i :: 0 <= i < |Days| && fullName == Days[i] ==> r == WeekdayShorts[i]
    ensures fullName !in Days ==> r == fullName
  {
    if fullName == "Понедельник" then "Пн"
    else if fullName == "Вторник" then "Вт"
    else if fullName == "Среда" then "Ср"
    else if fullName == "Четверг" then "Чт"
    else if fullName == "Пятница" then "Пт"
    else if fullName == "Суббота" then "Сб"
    else if fullName == "Воскресенье" then "Вс"
    else fullName
  }

  /** Two different rows never share a short name, so a switch acts on its
      own day only. */
  lemma DayNameShortInjective(i: nat, j: nat)
    requires i < |Days| && j < |Days|
    requires DayNameShort(Days[i]) == DayNameShort(Days[j])
    ensures i == j
  {
    assert DayNameShort(Days[i]) == WeekdayShorts[i];
    assert DayNameShort(Days[j]) == WeekdayShorts[j];
  }

  /** The selection after row `tag`'s switch is set to `isOn`. */
  function Switched(selected: set<string>, tag: nat, isOn: bool): set<string>
    requires tag < |Days|
  {
    if isOn then selected + {DayNameShort(Days[tag])}
    else selected - {DayNameShort(Days[tag])}
  }

  /** In schedule terms a switch sets exactly its own flag: the saved
      schedule differs from the previous one at index `tag` only. */
  lemma SwitchedFlags(selected: set<string>, tag: nat, isOn: bool)
    requires tag < |Days|
    ensures ScheduleFlags(Switched(selected, tag, isOn)) == ScheduleFlags(selected)[tag := isOn]
  {
    var after := ScheduleFlags(Switched(selected, tag, isOn));
    var expected := ScheduleFlags(selected)[tag := isOn];
    forall j | 0 <= j < 7 ensures after[j] == expected[j] {
      if j != tag {
        assert WeekdayShorts[j] != WeekdayShorts[tag];
      }
    }
  }

  /** Switching a day on and then off again gives back the selection it
      started from, provided the day was off. */
  lemma SwitchOnThenOff(selected: set<string>, tag: nat)
    requires tag < |Days|
    requires WeekdayShorts[tag] !in selected
    ensures Switched(Switched(selected, tag, true), tag, false) == selected
  {
    assert DayNameShort(Days[tag]) == WeekdayShorts[tag];
  }

  class ScheduleSelectionViewController {
    var selectedDays: set<string>
    var dismissed: bool

    /** Presented with the caller's current selection. */
    constructor(selected: set<string>)
      ensures selectedDays == selected && !dismissed
    {
      selectedDays := selected;
      dismissed := false;
    }

    /** `numberOfRowsInSection`: one row per weekday. */
    method NumberOfRows() returns (n: nat)
      ensures n == 7
    {
      n := |Days|;
    }

    /** The switch shown on row `row` is on exactly when that weekday is
        selected. */
    method SwitchIsOn(row: nat) returns (isOn: bool)
      requires row < |Days|
      ensures isOn <==> WeekdayShorts[row] in selectedDays
    {
      isOn := DayNameShort(Days[row]) in selectedDays;
    }

    /** `switchChanged`: switching row `tag` on adds its day, off removes
        it; every other day keeps its state. */
    method SwitchChanged(tag: nat, isOn: bool)
      requires tag < |Days|
      modifies this`selectedDays
      ensures selectedDays == Switched(old(selectedDays), tag, isOn)
      ensures WeekdayShorts[tag] in selectedDays <==> isOn
      ensures forall j :: 0 <= j < |Days| && j != tag ==>
                (WeekdayShorts[j] in selectedDays <==> WeekdayShorts[j] in old(selectedDays))
    {
      var shortName := DayNameShort(Days[tag]);
      if isOn {
        selectedDays := selectedDays + {shortName};
      } else {
        selectedDays := selectedDays - {shortName};
      }
      forall j | 0 <= j < |Days| && j != tag
        ensures WeekdayShorts[j] != shortName
      {
        assert WeekdayShorts[j] != WeekdayShorts[tag];
      }
    }

    /** `doneButtonTapped`: the delegate receives the selection unchanged and
        the screen is dismissed. */
    method DoneButtonTapped() returns (delivered: set<string>)
      modifies this`dismissed
      ensures delivered == selectedDays && dismissed
    {
      delivered := selectedDays;
      dismissed := true;
    }
  }
}
