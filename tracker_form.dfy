/** What the tracker creation screens share: the 38-character limit on the
    name field, the "Расписание" row of the settings table, and the outcome
    of tapping "Создать". */
module TrackerForm {
  import opened Base
  import opened Weekdays

  /** `nameTextFieldMaxLength`. */
  const NameMaxLength: nat := 38

  /** `Range(range, in: text)` then `replacingCharacters(in:with:)`: None
      when the range does not lie inside the text. */
  function ReplaceRange(text: string, location: nat, length: nat, replacement: string): (r: Option<string>)
    ensures r.None? <==> location + length > |text|
    ensures r.Some? ==> |r.value| == |text| - length + |replacement|
    ensures r.Some? ==> r.value[..location] == text[..location]
    ensures r.Some? ==> r.value[location..location + |replacement|] == replacement
    ensures r.Some? ==> r.value[location + |replacement|..] == text[location + length..]
  {
    if location + length > |text| then None
    else
      var r := text[..location] + replacement + text[location + length..];
      assert r[..location] == text[..location];
      assert r[location..location + |replacement|] == replacement;
      assert r[location + |replacement|..] == text[location + length..];
      Some(r)
  }

  /** `textField(_:shouldChangeCharactersIn:replacementString:)`: an edit
      of another field always goes through; an edit of the name field goes
      through when its range is valid and the edited name has at most 38
      characters (a missing text counts as empty). */
  function NameEditAccepted(isNameField: bool, text: Option<string>, location: nat, length: nat,
                            replacement: string): (accepted: bool)
    ensures !isNameField ==> accepted
    ensures isNameField ==>
              (accepted <==> location + length <= |text.GetOr("")|
                             && |text.GetOr("")| - length + |replacement| <= NameMaxLength)
  {
    if !isNameField then true
    else
      match ReplaceRange(text.GetOr(""), location, length, replacement)
      case None => false
      case Some(updated) => |updated| <= NameMaxLength
  }

  /** `name.trimmingCharacters(in: .whitespaces).isEmpty` negated, with a
      missing text counting as empty: the name check of every "create"
      button. */
  predicate HasName(nameText: Option<string>) {
    nameText.Some? && Trim(nameText.value, Whitespaces) != []
  }

  /** The second row of the settings table: just "Расписание" while no day
      is chosen, otherwise "Расписание:" and, on the next line, the chosen
      days Monday first, separated by ", ". */
  function ScheduleRowText(selected: set<string>): (r: string)
    ensures selected == {} ==> r == "Расписание"
    ensures selected != {} ==> |r| >= 12 && r[..12] == "Расписание:\n"
    ensures selected != {} ==> r[12..] == Join(SummaryDays(selected), ", ")
    ensures selected != {} ==> (|r| == 12 <==> forall d :: d in WeekdayShorts ==> d !in selected)
  {
    if selected == {} then "Расписание"
    else "Расписание:" + "\n" + ScheduleSummary(selected)
  }

  /** The result of tapping "Создать": an error alert, or the new tracker
      posted with its category. */
  datatype CreateOutcome<T, C> = Alert(message: string) | Created(tracker: T, category: C)
}
