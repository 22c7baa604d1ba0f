/** The new category screen (TrackerCreation/Categories/CategoryCreationVC):
    a title field limited to 38 characters and a Done button. */
module CategoryCreation {
  import opened Base
  import opened Structs
  import TrackerForm

  /** `textField(_:shouldChangeCharactersIn:replacementString:)`: with a
      text, the edit goes through when the resulting count
      `text.count + string.count - range.length` is at most 38; the range
      itself is not checked. Without a text every edit goes through. */
  function ShouldChangeCharacters(text: Option<string>, rangeLength: nat, replacement: string): (accepted: bool)
    ensures text.None? ==> accepted
    ensures text.Some? && rangeLength <= |text.value| ==>
              (accepted <==> |text.value| - rangeLength + |replacement| <= TrackerForm.NameMaxLength)
    ensures text.Some? && rangeLength > |text.value| && |replacement| <= TrackerForm.NameMaxLength ==> accepted
  {
    match text
    case None => true
    case Some(t) => |t| + |replacement| - rangeLength <= TrackerForm.NameMaxLength
  }

  /** For a range inside the text the category title obeys the same rule
      as a tracker name. */
  lemma SameRuleAsTrackerName(text: string, location: nat, length: nat, replacement: string)
    requires location + length <= |text|
    ensures ShouldChangeCharacters(Some(text), length, replacement)
            == TrackerForm.NameEditAccepted(true, Some(text), location, length, replacement)
  {
  }

  /** For a range reaching past the end of the text the two rules part:
      the tracker name refuses the edit, the category title accepts it. */
  lemma UncheckedRange()
    ensures ShouldChangeCharacters(Some("a"), 5, "b")
    ensures !TrackerForm.NameEditAccepted(true, Some("a"), 0, 5, "b")
  {
  }

  /** `textFieldDidChange`: Done is enabled exactly when the field holds a
      non-empty text; spaces count, so every name the tracker screens would
      take enables it, and more besides. */
  function DoneEnabled(text: Option<string>): (enabled: bool)
    ensures text.None? ==> !enabled
    ensures text.Some? ==> (enabled <==> |text.value| > 0)
    ensures TrackerForm.HasName(text) ==> enabled
  {
    if text.Some? && text.value == "" then
      assert AllIn(Whitespaces, text.value);
      false
    else
      text.Some?
  }

  /** `addCategoryTapped`: the category handed to the delegate, titled with
      the text exactly as typed and holding no trackers; none for a missing
      or empty text. */
  function AddCategoryTapped(text: Option<string>): (created: Option<TrackerCategory>)
    ensures created.Some? <==> DoneEnabled(text)
    ensures created.Some? ==> created.value.title == text.value && created.value.trackers == []
  {
    match text
    case None => None
    case Some(name) => if name == "" then None else Some(TrackerCategory(name, []))
  }
}
