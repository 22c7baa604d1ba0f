/** The edit screen (EditTrackerViewController): loads a stored tracker
    into the form, keeps the Save button's state, and writes the form back
    into the tracker row. */
module EditTracker {
  import opened Base
  import opened Structs
  import opened Entities
  import opened Weekdays
  import Presenter

  /** `updateSaveButtonState`: a name with something besides spaces and
      tabs, an emoji and a colour. */
  predicate SaveEnabled(nameText: Option<string>, emoji: Option<string>, color: Option<string>) {
    nameText.Some? && Trim(nameText.value, Whitespaces) != [] && emoji.Some? && color.Some?
  }

  /** The guard of `saveButtonTapped`: the name must keep something once
      spaces, tabs and line breaks are trimmed. */
  predicate SaveAccepted(nameText: Option<string>, emoji: Option<string>, color: Option<string>) {
    nameText.Some? && Trim(nameText.value, WhitespacesAndNewlines) != [] && emoji.Some? && color.Some?
  }

  /** Whenever a tap saves, the button was enabled. */
  lemma SaveAcceptedImpliesEnabled(nameText: Option<string>, emoji: Option<string>, color: Option<string>)
    ensures SaveAccepted(nameText, emoji, color) ==> SaveEnabled(nameText, emoji, color)
  {
    if nameText.Some? && Trim(nameText.value, Whitespaces) == [] {
      TrimNewlinesEmptyIfWhitespaceEmpty(nameText.value);
    }
  }

  /** The converse fails: a name that is a single line break enables the
      button, yet tapping it saves nothing. */
  lemma EnabledButNotSaved()
    ensures SaveEnabled(Some("\n"), Some("🙂"), Some("Color selection 1"))
    ensures !SaveAccepted(Some("\n"), Some("🙂"), Some("Color selection 1"))
  {
    assert Trim("\n", WhitespacesAndNewlines) == [] by {
      assert AllIn(WhitespacesAndNewlines, "\n");
    }
    assert Trim("\n", Whitespaces) != [] by {
      assert !InClass(Whitespaces, "\n"[0]);
    }
  }

  /** The tracker row after a save: the trimmed name, the chosen emoji and
      colour, irregular exactly when not scheduled, the seven flags of the
      selection when scheduled and no schedule otherwise, and the selected
      category if there is one (the old one otherwise). */
  function SavedRow(row: StoredTracker, nameText: string, emoji: string, color: string,
                    isScheduled: bool, selected: set<string>, category: Option<CategoryRef>): (r: StoredTracker)
    ensures r.id == row.id
    ensures r.name == Some(Trim(nameText, WhitespacesAndNewlines))
    ensures r.emoji == Some(emoji) && r.color == Some(color)
    ensures r.isIrregular <==> !isScheduled
    ensures r.isIrregular <==> r.schedule.None?
    ensures isScheduled ==> r.schedule == Some(ScheduleFlags(selected))
    ensures category.Some? ==> r.category == category
    ensures category.None? ==> r.category == row.category
  {
    StoredTracker(row.id, Some(Trim(nameText, WhitespacesAndNewlines)), Some(color), Some(emoji),
                  if isScheduled then Some(ScheduleFlags(selected)) else None,
                  !isScheduled, if category.Some? then category else row.category)
  }

  /** A decoded schedule the load loop can read: a set flag past the
      seventh would index past the end of the weekday names. */
  predicate Loadable(t: StoredTracker) {
    t.schedule.Some? ==> forall i :: 7 <= i < |t.schedule.value| ==> !t.schedule.value[i]
  }

  class EditTrackerViewController {
    /** The tracker row being edited; saving overwrites its attributes. */
    var tracker: StoredTracker
    /** `completedDaysCount`, computed once from the record store. */
    var completedDaysCount: nat
    var isScheduled: bool
    var selectedCategory: Option<CategoryRef>
    var selectedWeekdays: set<string>
    var selectedEmoji: Option<string>
    var selectedColor: Option<string>
    /** `nameTextField.text`. */
    var nameText: Option<string>
    /** `saveButton.isEnabled`. */
    var saveEnabled: bool
    /** Whether the screen has been dismissed. */
    var dismissed: bool

    /** `init(tracker:)`, which loads the tracker into the form. */
    constructor (tracker: StoredTracker, records: seq<StoredRecord>)
      requires Loadable(tracker)
      ensures this.tracker == tracker
      ensures completedDaysCount == Presenter.TotalDaysCompleted(records, tracker)
      ensures isScheduled <==> tracker.schedule.Some?
      ensures selectedWeekdays == if tracker.schedule.Some? then SelectedNames(tracker.schedule.value) else {}
      ensures selectedCategory == tracker.category
      ensures selectedEmoji == tracker.emoji && selectedColor == tracker.color
      ensures nameText == None && !saveEnabled && !dismissed
    {
      this.tracker := tracker;
      completedDaysCount := Presenter.TotalDaysCompleted(records, tracker);
      isScheduled := false;
      selectedCategory := None;
      selectedWeekdays := {};
      selectedEmoji := None;
      selectedColor := None;
      nameText := None;
      saveEnabled := false;
      dismissed := false;
      new;
      LoadTrackerDataIntoFields();
    }

    /** `loadTrackerDataIntoFields`: adds the names of the set flags to the
        selection and copies category, emoji and colour. */
    method LoadTrackerDataIntoFields()
      requires Loadable(tracker)
      modifies this`isScheduled, this`selectedWeekdays, this`selectedCategory,
               this`selectedEmoji, this`selectedColor
      ensures isScheduled <==> tracker.schedule.Some?
      ensures selectedWeekdays == old(selectedWeekdays) +
              if tracker.schedule.Some? then SelectedNames(tracker.schedule.value) else {}
      ensures selectedCategory == tracker.category
      ensures selectedEmoji == tracker.emoji && selectedColor == tracker.color
    {
      if tracker.schedule.Some? {
        var days := tracker.schedule.value;
        isScheduled := true;
        var i := 0;
        while i < |days|
          invariant 0 <= i <= |days|
          invariant isScheduled
          invariant selectedWeekdays == old(selectedWeekdays) + SelectedNames(days[..i])
        {
          if days[i] {
            selectedWeekdays := selectedWeekdays + {WeekdayShorts[i]};
          }
          SelectedNamesExtend(days, i);
          i := i + 1;
        }
        assert days[..|days|] == days;
      } else {
        isScheduled := false;
      }
      selectedCategory := tracker.category;
      selectedEmoji := tracker.emoji;
      selectedColor := tracker.color;
    }

    /** `viewDidLoad`: the text field shows the stored name, then the
        button state is computed. */
    method ViewDidLoad()
      modifies this`nameText, this`saveEnabled
      ensures nameText == tracker.name
      ensures saveEnabled == SaveEnabled(nameText, selectedEmoji, selectedColor)
    {
      nameText := tracker.name;
      UpdateSaveButtonState();
    }

    method UpdateSaveButtonState()
      modifies this`saveEnabled
      ensures saveEnabled == SaveEnabled(nameText, selectedEmoji, selectedColor)
    {
      saveEnabled := SaveEnabled(nameText, selectedEmoji, selectedColor);
    }

    /** `textFieldDidChange`. */
    method TextFieldDidChange(text: Option<string>)
      modifies this`nameText, this`saveEnabled
      ensures nameText == text
      ensures saveEnabled == SaveEnabled(text, selectedEmoji, selectedColor)
    {
      nameText := text;
      UpdateSaveButtonState();
    }

    /** `saveButtonTapped`: when the guard holds, overwrites the tracker row
        with the form and dismisses; otherwise changes nothing. */
    method SaveButtonTapped()
      modifies this`tracker, this`dismissed
      ensures !SaveAccepted(nameText, selectedEmoji, selectedColor) ==>
              tracker == old(tracker) && dismissed == old(dismissed)
      ensures SaveAccepted(nameText, selectedEmoji, selectedColor) ==>
              && tracker == SavedRow(old(tracker), nameText.value, selectedEmoji.value, selectedColor.value,
                                     isScheduled, selectedWeekdays, selectedCategory)
              && dismissed
    {
      if !SaveAccepted(nameText, selectedEmoji, selectedColor) {
        return;
      }
      ghost var expected := SavedRow(tracker, nameText.value, selectedEmoji.value, selectedColor.value,
                                     isScheduled, selectedWeekdays, selectedCategory);
      var name := Trim(nameText.value, WhitespacesAndNewlines);
      var scheduleData: Option<seq<bool>> := None;
      if isScheduled {
        var boolArray := [false, false, false, false, false, false, false];
        var i := 0;
        while i < 7
          invariant 0 <= i <= 7 && |boolArray| == 7
          invariant forall j :: 0 <= j < i ==> (boolArray[j] <==> WeekdayShorts[j] in selectedWeekdays)
          invariant forall j :: i <= j < 7 ==> !boolArray[j]
        {
          if WeekdayShorts[i] in selectedWeekdays {
            boolArray := boolArray[i := true];
          }
          i := i + 1;
        }
        assert boolArray == ScheduleFlags(selectedWeekdays);
        scheduleData := Some(boolArray);
      }
      assert scheduleData == expected.schedule;
      var category := if selectedCategory.Some? then selectedCategory else tracker.category;
      tracker := StoredTracker(tracker.id, Some(name), selectedColor, selectedEmoji,
                               scheduleData, !isScheduled, category);
      assert tracker == expected;
      dismissed := true;
      assert nameText == old(nameText) && selectedEmoji == old(selectedEmoji) && selectedColor == old(selectedColor);
      assert isScheduled == old(isScheduled) && selectedWeekdays == old(selectedWeekdays);
      assert selectedCategory == old(selectedCategory);
    }

    /** `collectionView(_:didSelectItemAt:)`: item `item` of the emoji or
        of the colour palette. */
    method DidSelectItemAt(inEmojiCollection: bool, item: nat)
      requires inEmojiCollection ==> item < |Emojis()|
      requires !inEmojiCollection ==> item < |Colors()|
      modifies this`selectedEmoji, this`selectedColor, this`saveEnabled
      ensures inEmojiCollection ==> selectedEmoji == Some(Emojis()[item]) && selectedColor == old(selectedColor)
      ensures !inEmojiCollection ==> selectedColor == Some(Colors()[item]) && selectedEmoji == old(selectedEmoji)
      ensures saveEnabled == SaveEnabled(nameText, selectedEmoji, selectedColor)
    {
      if inEmojiCollection {
        selectedEmoji := Some(Emojis()[item]);
      } else {
        selectedColor := Some(Colors()[item]);
      }
      UpdateSaveButtonState();
    }

    /** `categorySelected(_:)`. */
    method CategorySelected(category: CategoryRef)
      modifies this`selectedCategory, this`saveEnabled
      ensures selectedCategory == Some(category)
      ensures saveEnabled == SaveEnabled(nameText, selectedEmoji, selectedColor)
    {
      selectedCategory := Some(category);
      UpdateSaveButtonState();
    }

    /** `scheduleSelected(_:)`: replaces the selection; the tracker is
        scheduled exactly when some day is chosen. */
    method ScheduleSelected(selectedDays: set<string>)
      modifies this`selectedWeekdays, this`isScheduled, this`saveEnabled
      ensures selectedWeekdays == selectedDays
      ensures isScheduled <==> selectedDays != {}
      ensures saveEnabled == SaveEnabled(nameText, selectedEmoji, selectedColor)
    {
      selectedWeekdays := selectedDays;
      isScheduled := selectedWeekdays != {};
      UpdateSaveButtonState();
    }
  }

  lemma SelectedNamesExtend(days: seq<bool>, i: nat)
    requires i < |days|
    ensures SelectedNames(days[..i + 1]) ==
            SelectedNames(days[..i]) + (if days[i] && i < 7 then {WeekdayShorts[i]} else {})
  {
    var a, b := days[..i + 1], days[..i];
    forall d | d in SelectedNames(a) ensures d in SelectedNames(b) + (if days[i] && i < 7 then {WeekdayShorts[i]} else {}) {
      var j :| 0 <= j < |a| && j < 7 && a[j] && WeekdayShorts[j] == d;
      if j < i {
        assert b[j] == a[j];
      }
    }
    forall d | d in SelectedNames(b) ensures d in SelectedNames(a) {
      var j :| 0 <= j < |b| && j < 7 && b[j] && WeekdayShorts[j] == d;
      assert a[j] == b[j];
    }
  }

  /** Opening the editor on a tracker with a seven-flag schedule loads
      `SelectedNames` of its flags and marks it scheduled (constructor);
      saving without touching the days then writes back the very same
      schedule. */
  lemma SaveAfterLoadKeepsSchedule(t: StoredTracker, nameText: string, emoji: string, color: string)
    requires t.schedule.Some? && |t.schedule.value| == 7
    ensures var saved := SavedRow(t, nameText, emoji, color, true, SelectedNames(t.schedule.value), t.category);
            saved.schedule == t.schedule && !saved.isIrregular && saved.category == t.category
  {
    FlagsRoundTrip(t.schedule.value);
  }
}
