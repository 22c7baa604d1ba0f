/** The irregular event creation screen
    (TrackerCreation/CreateIrregularEventViewController): no schedule, and
    again a button check on the trimmed name but a tap guard on the
    untrimmed one. */
module CreateIrregularEvent {
  import opened Base
  import opened Structs
  import opened Entities
  import opened TrackerForm

  /** `updateCreateButtonState`. */
  predicate CreateEnabled(nameText: Option<string>, category: Option<CategoryRef>,
                          emoji: Option<string>, color: Option<string>) {
    HasName(nameText) && category.Some? && emoji.Some? && color.Some?
  }

  /** The guard of `createButtonTapped`: any non-empty name passes. */
  predicate CreateAccepted(nameText: Option<string>, category: Option<CategoryRef>,
                           emoji: Option<string>, color: Option<string>) {
    nameText.Some? && nameText.value != "" && category.Some? && emoji.Some? && color.Some?
  }

  /** A tap on an enabled button always creates; the guard only lets more
      through (a name of spaces), which the disabled button never
      delivers. */
  lemma EnabledImpliesAccepted(nameText: Option<string>, category: Option<CategoryRef>,
                               emoji: Option<string>, color: Option<string>)
    requires CreateEnabled(nameText, category, emoji, color)
    ensures CreateAccepted(nameText, category, emoji, color)
  {
  }

  lemma AcceptedButDisabled()
    ensures CreateAccepted(Some("\t"), Some(CategoryRef(0, Some("Важное"))), Some("🙂"), Some("Color selection 1"))
    ensures !CreateEnabled(Some("\t"), Some(CategoryRef(0, Some("Важное"))), Some("🙂"), Some("Color selection 1"))
  {
    assert AllIn(Whitespaces, "\t");
  }

  class CreateIrregularEventViewController {
    var nameText: Option<string>
    var selectedCategory: Option<CategoryRef>
    var selectedEmoji: Option<string>
    var selectedColor: Option<string>
    var createEnabled: bool

    /** The empty form after `viewDidLoad`. */
    constructor ()
      ensures nameText == None && selectedCategory == None
      ensures selectedEmoji == None && selectedColor == None
      ensures !createEnabled
    {
      nameText := None;
      selectedCategory := None;
      selectedEmoji := None;
      selectedColor := None;
      createEnabled := false;
    }

    method UpdateCreateButtonState()
      modifies this`createEnabled
      ensures createEnabled == CreateEnabled(nameText, selectedCategory, selectedEmoji, selectedColor)
    {
      createEnabled := HasName(nameText) && selectedCategory.Some? && selectedEmoji.Some? && selectedColor.Some?;
    }

    /** `textFieldDidChange`. */
    method TextFieldDidChange(text: Option<string>)
      modifies this`nameText, this`createEnabled
      ensures nameText == text
      ensures createEnabled == CreateEnabled(text, selectedCategory, selectedEmoji, selectedColor)
    {
      nameText := text;
      UpdateCreateButtonState();
    }

    /** `createButtonTapped`: an alert unless the guard holds; otherwise a
        tracker without schedule, hence irregular, with the name as typed. */
    method CreateButtonTapped(freshId: Uuid) returns (outcome: CreateOutcome<Tracker, CategoryRef>)
      ensures outcome.Created? <==> CreateAccepted(nameText, selectedCategory, selectedEmoji, selectedColor)
      ensures outcome.Alert? ==> outcome.message == "Заполните все поля"
      ensures outcome.Created? ==>
              && outcome.category == selectedCategory.value
              && outcome.tracker.id == freshId
              && outcome.tracker.name == nameText.value
              && outcome.tracker.emoji == selectedEmoji.value
              && outcome.tracker.color == selectedColor.value
              && outcome.tracker.schedule.None?
              && outcome.tracker.isIrregular
    {
      if !CreateAccepted(nameText, selectedCategory, selectedEmoji, selectedColor) {
        return Alert("Заполните все поля");
      }
      var newTracker := NewTracker(freshId, nameText.value, selectedColor.value, selectedEmoji.value, None);
      outcome := Created(newTracker, selectedCategory.value);
    }

    /** `collectionView(_:didSelectItemAt:)`: item `item` of the emoji or of
        the colour palette; the other choice stays. */
    method DidSelectItemAt(inEmojiCollection: bool, item: nat)
      requires inEmojiCollection ==> item < |Emojis()|
      requires !inEmojiCollection ==> item < |Colors()|
      modifies this`selectedEmoji, this`selectedColor, this`createEnabled
      ensures inEmojiCollection ==> selectedEmoji == Some(Emojis()[item]) && selectedColor == old(selectedColor)
      ensures !inEmojiCollection ==> selectedColor == Some(Colors()[item]) && selectedEmoji == old(selectedEmoji)
      ensures createEnabled == CreateEnabled(nameText, selectedCategory, selectedEmoji, selectedColor)
    {
      if inEmojiCollection {
        selectedEmoji := Some(Emojis()[item]);
      } else {
        selectedColor := Some(Colors()[item]);
      }
      UpdateCreateButtonState();
    }

    /** `categorySelected(_:)`: stores exactly the given category. */
    method CategorySelected(category: CategoryRef)
      modifies this`selectedCategory, this`createEnabled
      ensures selectedCategory == Some(category)
      ensures createEnabled == CreateEnabled(nameText, selectedCategory, selectedEmoji, selectedColor)
    {
      selectedCategory := Some(category);
      UpdateCreateButtonState();
    }
  }
}
