/** The combined creation screen (TrackerCreation/CreateEventViewController),
    opened either for a habit (`isScheduled`) or for an irregular event. */
module CreateEvent {
  import opened Base
  import opened Structs
  import opened Entities
  import opened Weekdays
  import opened TrackerForm
  import ScheduleSelection
  import Presenter
  import Stats

  /** The settings table: a category row, and a schedule row for habits. */
  function SettingsOptions(isScheduled: bool): (r: seq<string>)
    ensures |r| == if isScheduled then 2 else 1
    ensures r[0] == "Выбрать категорию"
    ensures "Расписание" in r <==> isScheduled
  {
    if isScheduled then ["Выбрать категорию", "Расписание"] else ["Выбрать категорию"]
  }

  /** `updateCreateButtonState`: a name with something besides spaces and
      tabs, a category, an emoji, a colour and, for a habit, at least one
      day. */
  predicate CreateEnabled(nameText: Option<string>, category: Option<CategoryRef>,
                          emoji: Option<string>, color: Option<string>,
                          isScheduled: bool, weekdays: set<string>) {
    HasName(nameText) && category.Some? && emoji.Some? && color.Some?
    && (isScheduled ==> weekdays != {})
  }

  /** The schedule a new tracker gets: the seven flags of the selection for
      a habit, none for an irregular event. */
  function NewSchedule(isScheduled: bool, weekdays: set<string>): (s: Option<Schedule>)
    ensures s.None? <==> !isScheduled
    ensures s.Some? ==> |s.value.daysOfWeek| == 7
    ensures s.Some? ==> forall i :: 0 <= i < 7 ==> (s.value.daysOfWeek[i] <==> WeekdayShorts[i] in weekdays)
  {
    if isScheduled then Some(Schedule(ScheduleFlags(weekdays))) else None
  }

  class CreateEventViewController {
    const isScheduled: bool
    /** `nameTextField.text`. */
    var nameText: Option<string>
    var selectedCategory: Option<CategoryRef>
    var selectedWeekdays: set<string>
    var selectedEmoji: Option<string>
    var selectedColor: Option<string>
    /** `createButton.isEnabled`. */
    var createEnabled: bool

    /** `init(isScheduled:)` followed by `viewDidLoad`, which computes the
        button state of the empty form. */
    constructor (isScheduled: bool)
      ensures this.isScheduled == isScheduled
      ensures nameText == None && selectedCategory == None && selectedWeekdays == {}
      ensures selectedEmoji == None && selectedColor == None
      ensures !createEnabled
    {
      this.isScheduled := isScheduled;
      nameText := None;
      selectedCategory := None;
      selectedWeekdays := {};
      selectedEmoji := None;
      selectedColor := None;
      createEnabled := false;
    }

    method UpdateCreateButtonState()
      modifies this`createEnabled
      ensures createEnabled == CreateEnabled(nameText, selectedCategory, selectedEmoji, selectedColor,
                                             isScheduled, selectedWeekdays)
    {
      var hasName := HasName(nameText);
      var hasCategory := selectedCategory.Some?;
      var hasEmoji := selectedEmoji.Some?;
      var hasColor := selectedColor.Some?;
      if isScheduled {
        var hasScheduleDays := selectedWeekdays != {};
        createEnabled := hasName && hasCategory && hasEmoji && hasColor && hasScheduleDays;
      } else {
        createEnabled := hasName && hasCategory && hasEmoji && hasColor;
      }
    }

    /** `textFieldDidChange`. */
    method TextFieldDidChange(text: Option<string>)
      modifies this`nameText, this`createEnabled
      ensures nameText == text
      ensures createEnabled == CreateEnabled(text, selectedCategory, selectedEmoji, selectedColor,
                                             isScheduled, selectedWeekdays)
    {
      nameText := text;
      UpdateCreateButtonState();
    }

    /** `createButtonTapped`: the tracker is created exactly when the
        button's condition holds; it keeps the name as typed, gets the fresh
        id `freshId`, and a schedule exactly when it is a habit. Otherwise
        the matching alert is shown. */
    method CreateButtonTapped(freshId: Uuid) returns (outcome: CreateOutcome<Tracker, CategoryRef>)
      ensures outcome.Created? <==>
              CreateEnabled(nameText, selectedCategory, selectedEmoji, selectedColor, isScheduled, selectedWeekdays)
      ensures outcome.Created? ==>
              && outcome.category == selectedCategory.value
              && outcome.tracker.id == freshId
              && outcome.tracker.name == nameText.value
              && outcome.tracker.emoji == selectedEmoji.value
              && outcome.tracker.color == selectedColor.value
              && outcome.tracker.schedule == NewSchedule(isScheduled, selectedWeekdays)
              && (outcome.tracker.isIrregular <==> !isScheduled)
      ensures outcome.Alert? && !(HasName(nameText) && selectedCategory.Some? && selectedEmoji.Some? && selectedColor.Some?)
              ==> outcome.message == "Заполните все поля"
      ensures outcome.Alert? && HasName(nameText) && selectedCategory.Some? && selectedEmoji.Some? && selectedColor.Some?
              ==> outcome.message == "Заполните все поля (нет расписания)"
    {
      if !(HasName(nameText) && selectedCategory.Some? && selectedEmoji.Some? && selectedColor.Some?) {
        return Alert("Заполните все поля");
      }
      if isScheduled && selectedWeekdays == {} {
        return Alert("Заполните все поля (нет расписания)");
      }
      var schedule := if isScheduled then Some(Schedule(ScheduleFlags(selectedWeekdays))) else None;
      var newTracker := NewTracker(freshId, nameText.value, selectedColor.value, selectedEmoji.value, schedule);
      outcome := Created(newTracker, selectedCategory.value);
    }

    /** The name field's edit filter. */
    method ShouldChangeCharacters(isNameField: bool, location: nat, length: nat, replacement: string)
      returns (accepted: bool)
      ensures accepted == NameEditAccepted(isNameField, nameText, location, length, replacement)
      ensures isNameField && accepted ==> |nameText.GetOr("")| - length + |replacement| <= NameMaxLength
    {
      if !isNameField {
        return true;
      }
      var currentText := nameText.GetOr("");
      var updated := ReplaceRange(currentText, location, length, replacement);
      if updated.None? {
        return false;
      }
      accepted := |updated.value| <= NameMaxLength;
    }

    /** `selectSchedule`: the picker opens with the current selection. */
    method SelectSchedule() returns (picker: ScheduleSelection.ScheduleSelectionViewController)
      ensures fresh(picker)
      ensures picker.selectedDays == selectedWeekdays && !picker.dismissed
    {
      picker := new ScheduleSelection.ScheduleSelectionViewController(selectedWeekdays);
    }

    /** The text of the schedule row. */
    method ScheduleRow() returns (text: string)
      ensures selectedWeekdays == {} ==> text == "Расписание"
      ensures selectedWeekdays != {} ==> text == "Расписание:\n" + Join(SummaryDays(selectedWeekdays), ", ")
    {
      text := ScheduleRowText(selectedWeekdays);
      if selectedWeekdays != {} {
        assert text == text[..12] + text[12..];
      }
    }

    /** `collectionView(_:didSelectItemAt:)`: item `item` of the emoji or of
        the colour palette. */
    method DidSelectItemAt(inEmojiCollection: bool, item: nat)
      requires inEmojiCollection ==> item < |Emojis()|
      requires !inEmojiCollection ==> item < |Colors()|
      modifies this`selectedEmoji, this`selectedColor, this`createEnabled
      ensures inEmojiCollection ==> selectedEmoji == Some(Emojis()[item]) && selectedColor == old(selectedColor)
      ensures !inEmojiCollection ==> selectedColor == Some(Colors()[item]) && selectedEmoji == old(selectedEmoji)
      ensures createEnabled == CreateEnabled(nameText, selectedCategory, selectedEmoji, selectedColor,
                                             isScheduled, selectedWeekdays)
    {
      if inEmojiCollection {
        selectedEmoji := Some(Emojis()[item]);
      } else {
        selectedColor := Some(Colors()[item]);
      }
      UpdateCreateButtonState();
    }

    /** `categorySelected(_:)`. */
    method CategorySelected(category: CategoryRef)
      modifies this`selectedCategory, this`createEnabled
      ensures selectedCategory == Some(category)
      ensures createEnabled == CreateEnabled(nameText, selectedCategory, selectedEmoji, selectedColor,
                                             isScheduled, selectedWeekdays)
    {
      selectedCategory := Some(category);
      UpdateCreateButtonState();
    }

    /** `scheduleSelected(_:)`: the picker's selection replaces the old one. */
    method ScheduleSelected(selectedDays: set<string>)
      modifies this`selectedWeekdays, this`createEnabled
      ensures selectedWeekdays == selectedDays
      ensures createEnabled == CreateEnabled(nameText, selectedCategory, selectedEmoji, selectedColor,
                                             isScheduled, selectedDays)
    {
      selectedWeekdays := selectedDays;
      UpdateCreateButtonState();
    }
  }

  /** What the creation screen saves the edit screen loads back: the stored
      flags of a new habit give exactly the selected weekday names. */
  lemma CreatedScheduleLoadsBack(t: Tracker, category: CategoryRef, weekdays: set<string>)
    requires t.schedule == NewSchedule(true, weekdays)
    ensures StoreTracker(t, category).schedule.Some?
    ensures SelectedNames(StoreTracker(t, category).schedule.value) == weekdays * set d | d in WeekdayShorts
  {
    NamesRoundTrip(weekdays);
  }

  /** When a new habit is due. The list reads its flags Sunday first, so a
      habit created for "Пн" alone shows on Sundays; the statistics read
      them Monday first. */
  lemma CreatedHabitDue(t: Tracker, category: CategoryRef, weekdays: set<string>, day: Day)
    requires t.schedule == NewSchedule(true, weekdays) && !t.isIrregular
    ensures Presenter.HasWeekFlags(StoreTracker(t, category))
    ensures Presenter.IsTrackerValidForToday(StoreTracker(t, category), SystemWeekday(day))
            <==> WeekdayShorts[SystemWeekday(day) - 1] in weekdays
    ensures Stats.IsTrackerValid(StoreTracker(t, category), day)
            <==> WeekdayShorts[(SystemWeekday(day) + 5) % 7] in weekdays
  {
    var row := StoreTracker(t, category);
    assert row.schedule == Some(ScheduleFlags(weekdays));
  }
}
