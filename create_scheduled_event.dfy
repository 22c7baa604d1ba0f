/** The habit creation screen (TrackerCreation/CreateScheduledEventViewController).
    Its button check and its tap guard differ: the button looks at the
    trimmed name and ignores the days, the tap looks at the untrimmed name
    and requires a day. */
module CreateScheduledEvent {
  import opened Base
  import opened Structs
  import opened Weekdays
  import opened TrackerForm

  /** `settingsOptions`. */
  const SettingsOptions: seq<string> := ["Выбрать категорию", "Расписание"]

  /** `updateCreateButtonState`: a name with something besides spaces and
      tabs, a category, an emoji and a colour; the days are not looked at. */
  predicate CreateEnabled(nameText: Option<string>, category: Option<TrackerCategory>,
                          emoji: Option<string>, color: Option<string>) {
    HasName(nameText) && category.Some? && emoji.Some? && color.Some?
  }

  /** The guard of `createButtonTapped`: a non-empty name (spaces count), a
      category, an emoji, a colour and at least one day. */
  predicate CreateAccepted(nameText: Option<string>, category: Option<TrackerCategory>,
                           emoji: Option<string>, color: Option<string>, weekdays: set<string>) {
    nameText.Some? && nameText.value != "" && category.Some? && emoji.Some? && color.Some?
    && weekdays != {}
  }

  /** An enabled button whose tap is refused: no day chosen. */
  lemma EnabledButRefused(nameText: Option<string>, category: Option<TrackerCategory>,
                          emoji: Option<string>, color: Option<string>)
    requires CreateEnabled(nameText, category, emoji, color)
    ensures !CreateAccepted(nameText, category, emoji, color, {})
    ensures forall weekdays :: weekdays != {} ==> CreateAccepted(nameText, category, emoji, color, weekdays)
  {
  }

  /** The other way round: a name of spaces passes the tap guard, yet the
      button stays disabled. */
  lemma AcceptedButDisabled()
    ensures CreateAccepted(Some(" "), Some(TrackerCategory("Важное", [])), Some("🙂"), Some("Color selection 1"), {"Пн"})
    ensures !CreateEnabled(Some(" "), Some(TrackerCategory("Важное", [])), Some("🙂"), Some("Color selection 1"))
  {
    assert AllIn(Whitespaces, " ");
  }

  class CreateScheduledEventViewController {
    var nameText: Option<string>
    var selectedCategory: Option<TrackerCategory>
    var selectedWeekdays: set<string>
    var selectedEmoji: Option<string>
    var selectedColor: Option<string>
    var createEnabled: bool

    /** The empty form after `viewDidLoad`. */
    constructor ()
      ensures nameText == None && selectedCategory == None && selectedWeekdays == {}
      ensures selectedEmoji == None && selectedColor == None
      ensures !createEnabled
    {
      nameText := None;
      selectedCategory := None;
      selectedWeekdays := {};
      selectedEmoji := None;
      selectedColor := None;
      createEnabled := false;
    }

    method UpdateCreateButtonState()
      modifies this`createEnabled
      ensures createEnabled == CreateEnabled(nameText, selectedCategory, selectedEmoji, selectedColor)
    {
      createEnabled := HasName(nameText) && selectedCategory.Some? && selectedEmoji.Some? && selectedColor.Some?;
    }

    /** `textFieldDidChange`. */
    method TextFieldDidChange(text: Option<string>)
      modifies this`nameText, this`createEnabled
      ensures nameText == text
      ensures createEnabled == CreateEnabled(text, selectedCategory, selectedEmoji, selectedColor)
    {
      nameText := text;
      UpdateCreateButtonState();
    }

    /** `createButtonTapped`: refuses with an alert unless the tap guard
        holds; otherwise the new habit keeps the name as typed and gets the
        seven flags of the selection. */
    method CreateButtonTapped(freshId: Uuid) returns (outcome: CreateOutcome<Tracker, TrackerCategory>)
      ensures outcome.Created? <==>
              CreateAccepted(nameText, selectedCategory, selectedEmoji, selectedColor, selectedWeekdays)
      ensures outcome.Alert? ==> outcome.message == "Заполните все поля"
      ensures outcome.Created? ==>
              && outcome.category == selectedCategory.value
              && outcome.tracker.id == freshId
              && outcome.tracker.name == nameText.value
              && outcome.tracker.emoji == selectedEmoji.value
              && outcome.tracker.color == selectedColor.value
              && !outcome.tracker.isIrregular
              && outcome.tracker.schedule.Some?
              && |outcome.tracker.schedule.value.daysOfWeek| == 7
      ensures outcome.Created? ==>
              forall i :: 0 <= i < 7 ==>
                (outcome.tracker.schedule.value.daysOfWeek[i] <==> WeekdayShorts[i] in selectedWeekdays)
    {
      if !CreateAccepted(nameText, selectedCategory, selectedEmoji, selectedColor, selectedWeekdays) {
        return Alert("Заполните все поля");
      }
      var daysOfWeek := ScheduleFlags(selectedWeekdays);
      var newTracker := NewTracker(freshId, nameText.value, selectedColor.value, selectedEmoji.value,
                                   Some(Schedule(daysOfWeek)));
      outcome := Created(newTracker, selectedCategory.value);
    }

    /** The name field's edit filter, the same code as the general creation
        screen's. This screen never makes itself the field's delegate, so
        the app never calls it and a longer name gets through. */
    method ShouldChangeCharacters(isNameField: bool, location: nat, length: nat, replacement: string)
      returns (accepted: bool)
      ensures accepted == NameEditAccepted(isNameField, nameText, location, length, replacement)
      ensures isNameField && accepted ==> |nameText.GetOr("")| - length + |replacement| <= NameMaxLength
    {
      if !isNameField {
        return true;
      }
      var currentText := nameText.GetOr("");
      var updated := ReplaceRange(currentText, location, length, replacement);
      if updated.None? {
        return false;
      }
      accepted := |updated.value| <= NameMaxLength;
    }

    /** The text of the schedule row, built as on the general creation
        screen. */
    method ScheduleRow() returns (text: string)
      ensures selectedWeekdays == {} ==> text == "Расписание"
      ensures selectedWeekdays != {} ==> text == "Расписание:\n" + Join(SummaryDays(selectedWeekdays), ", ")
    {
      text := ScheduleRowText(selectedWeekdays);
      if selectedWeekdays != {} {
        assert text == text[..12] + text[12..];
      }
    }

    /** `collectionView(_:didSelectItemAt:)`. */
    method DidSelectItemAt(inEmojiCollection: bool, item: nat)
      requires inEmojiCollection ==> item < |Emojis()|
      requires !inEmojiCollection ==> item < |Colors()|
      modifies this`selectedEmoji, this`selectedColor, this`createEnabled
      ensures inEmojiCollection ==> selectedEmoji == Some(Emojis()[item]) && selectedColor == old(selectedColor)
      ensures !inEmojiCollection ==> selectedColor == Some(Colors()[item]) && selectedEmoji == old(selectedEmoji)
      ensures createEnabled == CreateEnabled(nameText, selectedCategory, selectedEmoji, selectedColor)
    {
      if inEmojiCollection {
        selectedEmoji := Some(Emojis()[item]);
      } else {
        selectedColor := Some(Colors()[item]);
      }
      UpdateCreateButtonState();
    }

    /** `categorySelected(_:)`. */
    method CategorySelected(category: TrackerCategory)
      modifies this`selectedCategory, this`createEnabled
      ensures selectedCategory == Some(category)
      ensures createEnabled == CreateEnabled(nameText, selectedCategory, selectedEmoji, selectedColor)
    {
      selectedCategory := Some(category);
      UpdateCreateButtonState();
    }

    /** `scheduleSelected(_:)`: the picker's selection replaces the old one
        wholesale; the button state does not depend on it. */
    method ScheduleSelected(selectedDays: set<string>)
      modifies this`selectedWeekdays, this`createEnabled
      ensures selectedWeekdays == selectedDays
      ensures createEnabled == CreateEnabled(nameText, selectedCategory, selectedEmoji, selectedColor)
    {
      selectedWeekdays := selectedDays;
      UpdateCreateButtonState();
    }
  }
}
