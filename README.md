# HabitTracker — a Dafny model of the tracker logic

HabitTracker is an iOS habit tracker. A user creates *trackers*: habits with a weekly schedule, or irregular events without one. Each tracker belongs to a category. On the main screen the user picks a day and ticks the trackers done that day. A statistics screen summarises the completion log.

This project models the logic under the UIKit surface:

- **The tracker presenter.** It decides which trackers are due on the selected day. It groups them into category sections sorted by title, sorted by name inside each section. It toggles the completion record of a tracker on that day, and it counts a tracker's completions.
- **The statistics screen.** It computes:
  - the best period, meaning the busiest day's record count;
  - ideal days, found by a day-by-day loop over the span of recorded dates;
  - completions today;
  - the rounded average number of completions per day.
- **The schedule encoding.** Short Russian weekday names (Пн … Вс) convert to a seven-flag, Monday-first array and back. The creation screens, the edit screen and the weekday picker all use it.
- **Form validators.** These are the create and save enablement checks and the guards behind the buttons. A 38-character filter guards the name field of the general creation screen and the category title field; the other screens define no filter or never install theirs.
- **Small index operations.**
  - Category list: select, add and delete, each guarded by bounds.
  - Onboarding pager: cyclic back and forward navigation and its page indicator.

## How the model represents the app

- **Dates** are integer day numbers. Day 0 is 1970-01-01, a Thursday. A day number is already a start of day.
- **Weekdays.** The system weekday is `SystemWeekday(d) = (d + 4) % 7 + 1`: 1 is Sunday and 7 is Saturday.
  - The presenter reads the schedule flag at `weekday - 1`, which is Sunday-first.
  - The statistics screen reads `(weekday + 5) % 7`, which is Monday-first.
  - Both are modelled exactly as written. `Stats.PresenterLagsStatsByOneDay` proves the consequence: the presenter's answer for day `d` is the statistics' answer for day `d + 1`.
- **Core Data rows** are values: `StoredTracker`, `StoredRecord`, and `CategoryRef` (an object id plus an optional title).
  - Optional attributes stay optional.
  - A schedule that is absent or cannot be decoded is `None`.
  - The record store is kept in its date-descending fetch order, and the category store's fetch is a stable sort by title.
  - The tracker store is kept in insertion order, not its (category title, name) fetch order. The presenter re-sorts by title and name, so this shows only in the order of same-named trackers within one category.
- **Screens** are classes. Their selection fields are Dafny fields, and their callbacks are methods that state the whole new state.

## Model

| member | source | states |
|---|---|---|
| Base.Trim | HabitTracker/EditTrackerViewController.swift:310 | trimming leaves no class character at either end, and gives "" exactly when every character is in the class |
| Base.TrimNewlinesEmptyIfWhitespaceEmpty | HabitTracker/EditTrackerViewController.swift:355 | a name that trims to empty under `.whitespaces` also trims to empty under `.whitespacesAndNewlines` |
| Sorting.SortBy | HabitTracker/TrackerPresenter.swift:26-30 | `sorted(by:)` on a string key returns a permutation of its input in ascending key order |
| Structs.NewTracker | HabitTracker/Structs.swift:13-20 | `Tracker.init` stores id, name, colour, emoji and schedule unchanged; `isIrregular` holds exactly when the schedule is nil |
| Structs.AllCategories | HabitTracker/Structs.swift:28-32 | three categories, Домашний уют, Здоровье and Важное, none holding trackers |
| Structs.Emojis | HabitTracker/Structs.swift:43-48 | 18 pairwise different emojis |
| Structs.NatToString | HabitTracker/Structs.swift:51 | string interpolation of a number gives decimal digits with no leading zero |
| Structs.ColorsListed | HabitTracker/Structs.swift:50-52 | the colour list is "Color selection 1" … "Color selection 18", in order |
| Structs.ColorsDistinct | HabitTracker/Structs.swift:51 | the 18 colour names are pairwise different |
| Entities.StoreTracker | HabitTracker/CoreData/TrackerStore.swift:41-60 | the stored row carries the tracker's id, name, colour, emoji, flags, irregularity and the given category |
| Entities.SystemWeekday | HabitTracker/TrackerPresenter.swift:99 | the weekday component lies in 1..7 |
| Entities.SystemWeekdayNext | HabitTracker/StatsView/StatsViewController.swift:185 | the next day has the next weekday, Saturday wrapping to Sunday |
| Weekdays.ScheduleFlags | HabitTracker/EditTrackerViewController.swift:320-327 | exactly seven flags; flag i holds iff the i-th of Пн … Вс is selected |
| Weekdays.SelectedNamesMember | HabitTracker/EditTrackerViewController.swift:186-191 | after loading, the i-th short name is selected iff flag i is set |
| Weekdays.FlagsRoundTrip | HabitTracker/EditTrackerViewController.swift:186-191 | loading seven flags into names and saving them back reproduces the flags |
| Weekdays.NamesRoundTrip | HabitTracker/EditTrackerViewController.swift:320-327 | saving a selection as flags and loading it back gives the selection restricted to the seven short names |
| Weekdays.SummaryDays | HabitTracker/TrackerCreation/CreateEventViewController.swift:393 | the summary lists exactly the selected short names, in Monday-to-Sunday order |
| Weekdays.Join | HabitTracker/TrackerCreation/CreateEventViewController.swift:394 | joining nothing gives ""; joining parts whose first part is non-empty gives a non-empty text |
| Weekdays.ScheduleSummary | HabitTracker/TrackerCreation/CreateEventViewController.swift:393-394 | the joined summary is empty iff no weekday is selected |
| Presenter.IsTrackerValidForToday | HabitTracker/TrackerPresenter.swift:89-102 | irregular trackers are due; a missing or undecodable schedule is never due; otherwise due iff the flag at `weekday - 1` is set |
| Presenter.Due | HabitTracker/TrackerPresenter.swift:19 | the filter keeps every due tracker as often as it is stored and nothing else |
| Presenter.Group | HabitTracker/TrackerPresenter.swift:21 | a category's group holds exactly the trackers of that category |
| Presenter.CategoryKeys | HabitTracker/TrackerPresenter.swift:21-24 | the grouping keys are distinct, cover every category present, and are all categories of some tracker |
| Presenter.DailySectionsExactlyOnce | HabitTracker/TrackerPresenter.swift:18-24 | the sections hold exactly the due trackers that have a category, each as often as it is stored |
| Presenter.DailySectionsWellFormed | HabitTracker/TrackerPresenter.swift:21-24 | every section is non-empty and holds only stored, due trackers of its own category |
| Presenter.DailySectionsDistinct | HabitTracker/TrackerPresenter.swift:21-24 | no category heads two sections |
| Presenter.DailySectionsSorted | HabitTracker/TrackerPresenter.swift:26-30 | sections are in ascending title order and trackers in ascending name order, with nil read as "" |
| Presenter.PlaceholderHidden | HabitTracker/TrackerPresenter.swift:57-60 | the placeholder is hidden iff some tracker with a category is due |
| Presenter.RecordFor | HabitTracker/TrackerPresenter.swift:104-109 | the first record of the tracker's id on the day, or none when no record matches |
| Presenter.TotalDaysCompleted | HabitTracker/TrackerPresenter.swift:111-113 | the count of records with the tracker's id, whatever their date; at most the log length, and zero iff no record has that id |
| Presenter.TotalAppend | HabitTracker/TrackerPresenter.swift:112 | the count over two logs is the sum of the counts |
| Presenter.InsertPos | HabitTracker/CoreData/TrackerRecordStore.swift:13 | the position where a new record keeps the date-descending fetch order |
| Presenter.InsertRecordContents | HabitTracker/TrackerPresenter.swift:67-69 | adding a record adds exactly that record |
| Presenter.InsertRecordSorted | HabitTracker/CoreData/TrackerRecordStore.swift:13 | adding a record keeps the log date-descending |
| Presenter.RemoveRecordSorted | HabitTracker/CoreData/TrackerRecordStore.swift:13 | deleting a record keeps the log date-descending |
| Presenter.ToggleWhenCompleted | HabitTracker/TrackerPresenter.swift:64-66 | when a record matches, exactly the first match is removed and the order is kept |
| Presenter.ToggleWhenNotCompleted | HabitTracker/TrackerPresenter.swift:67-69 | when none matches, exactly one record (id, day) is added; for a tracker with an id it then matches |
| Presenter.ToggleFlipsCompletion | HabitTracker/TrackerPresenter.swift:62-70 | for a tracker with an id and at most one record on the day, a toggle flips whether the tracker is completed on the day |
| Presenter.OnePerDayAtMostOneMatch | HabitTracker/TrackerPresenter.swift:104-109 | in a log with one dated record per tracker id and day, every tracker has at most one record on each day |
| Presenter.ToggleKeepsOnePerDay | HabitTracker/TrackerPresenter.swift:62-70 | a tap keeps at most one dated record per tracker id and day, given a fresh UUID for a tracker without an id |
| Presenter.ToggleTwiceFromIncomplete | HabitTracker/TrackerPresenter.swift:62-70 | toggling an uncompleted tracker twice restores the log exactly |
| Presenter.ToggleTwiceFromCompleted | HabitTracker/TrackerPresenter.swift:62-70 | toggling a completed tracker twice restores the log's contents when at most one record matches |
| Presenter.ToggleTwice | HabitTracker/TrackerPresenter.swift:62-70 | two toggles restore the log's contents when at most one record matches |
| Presenter.ToggleChangesTotalByOne | HabitTracker/TrackerPresenter.swift:62-70 | a toggle moves the tracker's completion count up or down by exactly one |
| Presenter.CreatedTrackerListed | HabitTracker/TrackerPresenter.swift:75-87 | a tracker just added to the store appears in the day's sections once more than before whenever it is due, and the placeholder is hidden |
| Presenter.TrackerPresenter.constructor | HabitTracker/TrackerPresenter.swift:35-41 | the presenter starts on today over the stores' rows |
| Presenter.TrackerPresenter.DatePickerValueChanged | HabitTracker/TrackerPresenter.swift:51-55 | the selected day becomes the picked day |
| Presenter.TrackerPresenter.DidCreateTracker | HabitTracker/TrackerPresenter.swift:75-87 | a notification with a tracker and a stored category appends the tracker's row; otherwise the store is unchanged |
| Presenter.TrackerPresenter.UpdatePlaceholderVisibility | HabitTracker/TrackerPresenter.swift:57-60 | the value passed on is whether some categorised tracker is due on the selected day |
| Presenter.TrackerPresenter.ToggleTrackerCompletion | HabitTracker/TrackerPresenter.swift:62-73 | the log becomes the toggled log for the selected day, stays date-descending with one record per tracker and day, and for a tracker with an id its completion on the selected day flips |
| Presenter.TrackerPresenter.CellFor | HabitTracker/TrackerPresenter.swift:144-149 | the cell shows a stored, due tracker; it is completed iff a record matches on the selected day; it shows the tracker's total; it is future iff the selected day is after today |
| Stats.CountOnDay | HabitTracker/StatsView/StatsViewController.swift:149-152 | a day's count is positive iff some record falls on it, nil dates counting as today |
| Stats.BestPeriod | HabitTracker/StatsView/StatsViewController.swift:148-155 | the largest per-day count: 0 for an empty log, at most the log length, reached on some day |
| Stats.IsTrackerValid | HabitTracker/StatsView/StatsViewController.swift:220-235 | irregular trackers are due; undecodable schedules are not; otherwise the flag at the Monday-first index `(weekday + 5) % 7` |
| Stats.StatsIndexMondayFirst | HabitTracker/StatsView/StatsViewController.swift:231-232 | Monday reads flag 0 and Sunday reads flag 6 |
| Stats.PresenterLagsStatsByOneDay | HabitTracker/StatsView/StatsViewController.swift:231-234 | the presenter's due-ness on day d equals the statistics' due-ness on day d + 1 |
| Stats.PresenterAndStatsDisagree | HabitTracker/StatsView/StatsViewController.swift:231-234 | a Monday-only habit on a Monday is due for the statistics and not for the presenter |
| Stats.Span | HabitTracker/StatsView/StatsViewController.swift:160-167 | none iff no record is dated; otherwise the earliest and latest record dates |
| Stats.DueCount | HabitTracker/StatsView/StatsViewController.swift:172 | the number of trackers due on a day is at most the number of trackers |
| Stats.CompletionsOn | HabitTracker/StatsView/StatsViewController.swift:174-177 | a day's dated completions are positive iff some record is dated that day |
| Stats.IdealDaysBounds | HabitTracker/StatsView/StatsViewController.swift:160-188 | ideal days are 0 without a dated record and at most the span's length and the log's length |
| Stats.CalculateIdealDays | HabitTracker/StatsView/StatsViewController.swift:157-189 | the loop visits each day of the span once, in order, and counts the ideal days |
| Stats.CompletedToday | HabitTracker/StatsView/StatsViewController.swift:191-198 | positive iff some record is dated today; at most the log length |
| Stats.CompletedTodayAtMostBest | HabitTracker/StatsView/StatsViewController.swift:191-198 | completions today never exceed the best period |
| Stats.RoundHalfUp | HabitTracker/StatsView/StatsViewController.swift:216-217 | `(2·total + days) / (2·days)` is the nearest integer to total/days, halves rounding up |
| Stats.AverageValue | HabitTracker/StatsView/StatsViewController.swift:200-218 | 0 without a dated record; otherwise the records, nil-dated ones included, divided by the span's length, rounded half up |
| Stats.AverageAtMostRecords | HabitTracker/StatsView/StatsViewController.swift:214-217 | the average is at most the number of records |
| Stats.UpdateStatsUI | HabitTracker/StatsView/StatsViewController.swift:122-144 | the placeholder is shown iff there are no trackers; otherwise the four figures are computed |
| EditTracker.SaveAcceptedImpliesEnabled | HabitTracker/EditTrackerViewController.swift:309-316 | whatever the save guard accepts, the button check enables |
| EditTracker.EnabledButNotSaved | HabitTracker/EditTrackerViewController.swift:355 | a name of one newline enables the button, yet the save does nothing |
| EditTracker.SavedRow | HabitTracker/EditTrackerViewController.swift:331-339 | the saved row has the trimmed name; it is irregular iff not scheduled; it has no schedule when irregular and the selection's seven flags otherwise; its category is overwritten only when one is selected |
| EditTracker.EditTrackerViewController.constructor | HabitTracker/EditTrackerViewController.swift:146-151 | the screen keeps the tracker; its completed-days count is the tracker's total; its selection fields hold the loaded values |
| EditTracker.EditTrackerViewController.LoadTrackerDataIntoFields | HabitTracker/EditTrackerViewController.swift:182-199 | `isScheduled` iff the schedule decodes; each set flag adds its short name; category, emoji and colour are copied |
| EditTracker.EditTrackerViewController.ViewDidLoad | HabitTracker/EditTrackerViewController.swift:157-165 | the name field shows the stored name and the save button state is computed |
| EditTracker.EditTrackerViewController.UpdateSaveButtonState | HabitTracker/EditTrackerViewController.swift:354-366 | enabled iff the whitespace-trimmed name is non-empty and emoji and colour are chosen; the category is not required |
| EditTracker.EditTrackerViewController.TextFieldDidChange | HabitTracker/EditTrackerViewController.swift:350-352 | the name is the typed text and the button state follows it |
| EditTracker.EditTrackerViewController.SaveButtonTapped | HabitTracker/EditTrackerViewController.swift:308-348 | nothing changes unless the save guard holds; otherwise the stored row becomes the saved row and the screen is dismissed |
| EditTracker.EditTrackerViewController.DidSelectItemAt | HabitTracker/EditTrackerViewController.swift:461-471 | tapping item i picks the i-th emoji or colour and leaves the other choice |
| EditTracker.EditTrackerViewController.CategorySelected | HabitTracker/EditTrackerViewController.swift:476-480 | the category becomes the chosen one |
| EditTracker.EditTrackerViewController.ScheduleSelected | HabitTracker/EditTrackerViewController.swift:485-490 | the selection is replaced, and `isScheduled` holds iff it is non-empty |
| EditTracker.SelectedNamesExtend | HabitTracker/EditTrackerViewController.swift:187-191 | one more step of the load loop adds the next short name exactly when its flag is set |
| EditTracker.SaveAfterLoadKeepsSchedule | HabitTracker/EditTrackerViewController.swift:183-194 | loading a seven-flag schedule and saving it unchanged writes back the same flags and keeps the tracker regular |
| ScheduleSelection.DayNameShort | HabitTracker/ScheduleSelectionViewController.swift:98-109 | the seven full day names map to Пн … Вс; any other text is returned unchanged |
| ScheduleSelection.DayNameShortInjective | HabitTracker/ScheduleSelectionViewController.swift:99-107 | different day names get different short names |
| ScheduleSelection.SwitchedFlags | HabitTracker/ScheduleSelectionViewController.swift:111-120 | a switch changes exactly its own day's flag, to the switch's state |
| ScheduleSelection.SwitchOnThenOff | HabitTracker/ScheduleSelectionViewController.swift:111-120 | switching an unselected day on and off again restores the selection |
| ScheduleSelection.ScheduleSelectionViewController.constructor | HabitTracker/ScheduleSelectionViewController.swift:31 | the picker starts with the selection handed to it |
| ScheduleSelection.ScheduleSelectionViewController.NumberOfRows | HabitTracker/ScheduleSelectionViewController.swift:76-78 | seven rows |
| ScheduleSelection.ScheduleSelectionViewController.SwitchIsOn | HabitTracker/ScheduleSelectionViewController.swift:89 | a row's switch is on iff its short name is selected |
| ScheduleSelection.ScheduleSelectionViewController.SwitchChanged | HabitTracker/ScheduleSelectionViewController.swift:111-120 | the row's short name is inserted or removed per the switch, and no other day changes |
| ScheduleSelection.ScheduleSelectionViewController.DoneButtonTapped | HabitTracker/ScheduleSelectionViewController.swift:70-73 | the selection is delivered unchanged and the picker is dismissed |
| TrackerForm.ReplaceRange | HabitTracker/TrackerCreation/CreateEventViewController.swift:510-514 | an edit range past the end gives none; otherwise the text with the range replaced |
| TrackerForm.NameEditAccepted | HabitTracker/TrackerCreation/CreateEventViewController.swift:504-522 | other fields always accept; a name edit is accepted iff its range is valid and the result has at most 38 characters |
| TrackerForm.ScheduleRowText | HabitTracker/TrackerCreation/CreateEventViewController.swift:386-407 | "Расписание" for no selection; otherwise "Расписание:" and a new line, then the summary |
| CreateEvent.SettingsOptions | HabitTracker/TrackerCreation/CreateEventViewController.swift:18-24 | two options for a habit and one for an irregular event, the category option first |
| CreateEvent.NewSchedule | HabitTracker/TrackerCreation/CreateEventViewController.swift:288-293 | no schedule iff not scheduled; otherwise seven flags following the selection |
| CreateEvent.CreateEventViewController.constructor | HabitTracker/TrackerCreation/CreateEventViewController.swift:148-151 | an empty form of the given kind with the button disabled |
| CreateEvent.CreateEventViewController.UpdateCreateButtonState | HabitTracker/TrackerCreation/CreateEventViewController.swift:327-341 | enabled iff the trimmed name is non-empty, category, emoji and colour are chosen and, for a habit, some day is selected |
| CreateEvent.CreateEventViewController.TextFieldDidChange | HabitTracker/TrackerCreation/CreateEventViewController.swift:263-265 | the name is the typed text and the button state follows it |
| CreateEvent.CreateEventViewController.CreateButtonTapped | HabitTracker/TrackerCreation/CreateEventViewController.swift:271-317 | creates exactly when the form is enabled, with the typed fields and the selection's schedule; otherwise one of the two alerts |
| CreateEvent.CreateEventViewController.ShouldChangeCharacters | HabitTracker/TrackerCreation/CreateEventViewController.swift:504-522 | the name edit filter with the 38-character limit |
| CreateEvent.CreateEventViewController.SelectSchedule | HabitTracker/TrackerCreation/CreateEventViewController.swift:439-445 | a new picker opened on the current selection |
| CreateEvent.CreateEventViewController.ScheduleRow | HabitTracker/TrackerCreation/CreateEventViewController.swift:386-407 | the schedule row's text for the current selection |
| CreateEvent.CreateEventViewController.DidSelectItemAt | HabitTracker/TrackerCreation/CreateEventViewController.swift:471-481 | tapping item i picks the i-th emoji or colour and leaves the other choice |
| CreateEvent.CreateEventViewController.CategorySelected | HabitTracker/TrackerCreation/CreateEventViewController.swift:486-490 | the category becomes the chosen one |
| CreateEvent.CreateEventViewController.ScheduleSelected | HabitTracker/TrackerCreation/CreateEventViewController.swift:495-499 | the selection is replaced and the button state recomputed |
| CreateEvent.CreatedScheduleLoadsBack | HabitTracker/TrackerCreation/CreateEventViewController.swift:288-293 | a created habit, once stored, loads back as its selected short names |
| CreateEvent.CreatedHabitDue | HabitTracker/TrackerCreation/CreateEventViewController.swift:288-293 | a created habit is due for the presenter and for the statistics according to the selected weekday names, each in its own convention |
| CreateScheduledEvent.EnabledButRefused | HabitTracker/TrackerCreation/CreateScheduledEventViewController.swift:262-298 | an enabled button with no day selected is refused; with any day selected it is accepted |
| CreateScheduledEvent.AcceptedButDisabled | HabitTracker/TrackerCreation/CreateScheduledEventViewController.swift:262-298 | a name of one space passes the tap guard while the button stays disabled |
| CreateScheduledEvent.CreateScheduledEventViewController.constructor | HabitTracker/TrackerCreation/CreateScheduledEventViewController.swift:138-164 | an empty form with the button disabled |
| CreateScheduledEvent.CreateScheduledEventViewController.UpdateCreateButtonState | HabitTracker/TrackerCreation/CreateScheduledEventViewController.swift:262-276 | enabled iff the trimmed name is non-empty and category, emoji and colour are chosen; days are not looked at |
| CreateScheduledEvent.CreateScheduledEventViewController.TextFieldDidChange | HabitTracker/TrackerCreation/CreateScheduledEventViewController.swift:280-282 | the name is the typed text and the button state follows it |
| CreateScheduledEvent.CreateScheduledEventViewController.CreateButtonTapped | HabitTracker/TrackerCreation/CreateScheduledEventViewController.swift:288-314 | creates iff the untrimmed name is non-empty, all choices are made and some day is selected; the habit gets the selection's seven flags |
| CreateScheduledEvent.CreateScheduledEventViewController.ShouldChangeCharacters | HabitTracker/TrackerCreation/CreateScheduledEventViewController.swift:343-362 | the name edit filter with the 38-character limit, the same as the general screen's; defined but never installed on this screen |
| CreateScheduledEvent.CreateScheduledEventViewController.ScheduleRow | HabitTracker/TrackerCreation/CreateScheduledEventViewController.swift:433-452 | the schedule row lists the selected days Monday first, joined by ", " |
| CreateScheduledEvent.CreateScheduledEventViewController.DidSelectItemAt | HabitTracker/TrackerCreation/CreateScheduledEventViewController.swift:515-524 | tapping item i picks the i-th emoji or colour and leaves the other choice |
| CreateScheduledEvent.CreateScheduledEventViewController.CategorySelected | HabitTracker/TrackerCreation/CreateScheduledEventViewController.swift:323-327 | the category becomes the chosen one |
| CreateScheduledEvent.CreateScheduledEventViewController.ScheduleSelected | HabitTracker/TrackerCreation/CreateScheduledEventViewController.swift:329-333 | the selection is replaced wholesale and the button state does not depend on it |
| CreateIrregularEvent.EnabledImpliesAccepted | HabitTracker/TrackerCreation/CreateIrregularEventViewController.swift:147-187 | an enabled button's tap always creates |
| CreateIrregularEvent.AcceptedButDisabled | HabitTracker/TrackerCreation/CreateIrregularEventViewController.swift:147-187 | a name of one tab passes the tap guard while the button stays disabled |
| CreateIrregularEvent.CreateIrregularEventViewController.constructor | HabitTracker/TrackerCreation/CreateIrregularEventViewController.swift:89-94 | an empty form with the button disabled |
| CreateIrregularEvent.CreateIrregularEventViewController.UpdateCreateButtonState | HabitTracker/TrackerCreation/CreateIrregularEventViewController.swift:174-187 | enabled iff the trimmed name is non-empty and category, emoji and colour are chosen |
| CreateIrregularEvent.CreateIrregularEventViewController.TextFieldDidChange | HabitTracker/TrackerCreation/CreateIrregularEventViewController.swift:139-141 | the name is the typed text and the button state follows it |
| CreateIrregularEvent.CreateIrregularEventViewController.CreateButtonTapped | HabitTracker/TrackerCreation/CreateIrregularEventViewController.swift:147-162 | creates iff the untrimmed name is non-empty and all choices are made; the tracker has no schedule and is irregular |
| CreateIrregularEvent.CreateIrregularEventViewController.DidSelectItemAt | HabitTracker/TrackerCreation/CreateIrregularEventViewController.swift:317-326 | tapping item i picks the i-th emoji or colour and leaves the other choice |
| CreateIrregularEvent.CreateIrregularEventViewController.CategorySelected | HabitTracker/TrackerCreation/CreateIrregularEventViewController.swift:131-135 | the category becomes exactly the given one |
| CategoryCreation.ShouldChangeCharacters | HabitTracker/TrackerCreation/Categories/CategoryCreationVC.swift:96-100 | any edit passes without a text; for a range inside the text it passes iff the resulting count is at most 38; a range reaching past the end is not checked, so any replacement of at most 38 characters passes |
| CategoryCreation.DoneEnabled | HabitTracker/TrackerCreation/Categories/CategoryCreationVC.swift:88-91 | Done is enabled iff there is a non-empty text, spaces counting, so every name with a visible character enables it |
| CategoryCreation.SameRuleAsTrackerName | HabitTracker/TrackerCreation/Categories/CategoryCreationVC.swift:98-99 | for a range inside the text the title filter agrees with the tracker-name filter |
| CategoryCreation.UncheckedRange | HabitTracker/TrackerCreation/Categories/CategoryCreationVC.swift:98-99 | a range past the end is accepted for a title and refused for a tracker name |
| CategoryCreation.AddCategoryTapped | HabitTracker/TrackerCreation/Categories/CategoryCreationVC.swift:76-86 | a category exactly when the text is non-empty (spaces count), titled as typed and holding no trackers |
| CategorySelection.Fetched | HabitTracker/CoreData/TrackerCategoryStore.swift:30-32 | the fetched list is the store's rows, ordered by title |
| CategorySelection.Without | HabitTracker/CoreData/TrackerCategoryStore.swift:40-43 | deleting an object keeps exactly the other rows |
| CategorySelection.WithoutPresent | HabitTracker/CoreData/TrackerCategoryStore.swift:40-43 | deleting a present object removes exactly that row |
| CategorySelection.WithoutDistinct | HabitTracker/CoreData/TrackerCategoryStore.swift:40-43 | deleting keeps the rows distinct objects |
| CategorySelection.CategorySelectionViewModel.constructor | HabitTracker/TrackerCreation/Categories/CategorySelectionViewModel.swift:22-31 | the list is the store's fetched rows and nothing is selected |
| CategorySelection.CategorySelectionViewModel.SelectCategory | HabitTracker/TrackerCreation/Categories/CategorySelectionViewModel.swift:33-37 | an index past the end does nothing; otherwise the category at the index is handed on and the list is unchanged |
| CategorySelection.CategorySelectionViewModel.AddCategory | HabitTracker/TrackerCreation/Categories/CategorySelectionViewModel.swift:39-47 | the store gains one row with the title; the list is refetched and the new list is announced |
| CategorySelection.CategorySelectionViewModel.DeleteCategory | HabitTracker/TrackerCreation/Categories/CategorySelectionViewModel.swift:49-59 | an index past the end does nothing; otherwise that category leaves the store, and the list is refetched and announced |
| CategorySelection.DeleteRemovesExactlyOne | HabitTracker/TrackerCreation/Categories/CategorySelectionViewModel.swift:49-59 | an in-range delete shortens the list by one and removes exactly the chosen category |
| CategorySelection.AddListsNewCategory | HabitTracker/TrackerCreation/Categories/CategorySelectionViewModel.swift:39-47 | after adding, the new category is listed and the list is one longer |
| Onboarding.FirstIndex | HabitTracker/OnboardingViewController.swift:66 | the first index of a page, or none iff the page is not in the list |
| Onboarding.Before | HabitTracker/OnboardingViewController.swift:65-77 | none for an unknown page; otherwise a page of the list |
| Onboarding.After | HabitTracker/OnboardingViewController.swift:79-91 | none for an unknown page; otherwise a page of the list |
| Onboarding.FirstIndexOfDistinct | HabitTracker/OnboardingViewController.swift:66 | in a list of distinct pages, the index of the page at i is i |
| Onboarding.BeforeIndex | HabitTracker/OnboardingViewController.swift:70-77 | before page i comes page i − 1, and the last page before the first |
| Onboarding.AfterIndex | HabitTracker/OnboardingViewController.swift:84-91 | after page i comes page i + 1, and the first page after the last |
| Onboarding.BeforeAfterInverse | HabitTracker/OnboardingViewController.swift:65-91 | back then forward, or forward then back, returns to the starting page |
| Onboarding.OnboardingViewController.constructor | HabitTracker/OnboardingViewController.swift:12-32 | two distinct pages, with the indicator on the first |
| Onboarding.OnboardingViewController.DidFinishAnimating | HabitTracker/OnboardingViewController.swift:95-101 | the indicator shows the displayed page's index; an unknown page leaves it |
| Onboarding.IndicatorAfterSwipe | HabitTracker/OnboardingViewController.swift:95-101 | after a swipe from page i the indicator shows the next or previous index, cyclically |

## Left out

- UIKit layout, cell styling, alert presentation, navigation and dismissal animations are not modelled. An alert is a result value carrying its message, and dismissal is a flag.
- The NotificationCenter broadcast that carries a new tracker is not modelled, and neither is AppMetrica reporting. `DidCreateTracker` receives the notification's contents as parameters; a failed cast is `None`.
- JSON encoding and decoding of `Schedule` is not modelled. A stored schedule is `Option<seq<bool>>`, and `None` stands for absent or undecodable data.
- Calendar and `Date` are platform calls. Days are integer day numbers, the weekday is `SystemWeekday`, and "today" is a parameter. Time zones and daylight saving are not modelled.
- Stats.AverageValue: floating-point division and `rounded()` are replaced by integer round-half-up, which agrees on the non-negative values that occur.
- String lengths count characters, not grapheme clusters or UTF-16 units. For trimming, `.whitespaces` is the Unicode space separators plus tab, and `.whitespacesAndNewlines` adds the line and paragraph breaks. Foundation's own sets are not consulted.
- Errors thrown by Core Data saves are swallowed by the app (`try?` and `catch` followed by a log line). The model treats every save as successful.
- Core Data objects are modelled by value, with an object id for categories. Aliasing of managed objects between screens is not modelled.
- Sorting: Swift's `sorted(by:)` and the stores' sort descriptors are modelled as a stable sort; the relative order of rows with equal keys is not otherwise pinned down. The tracker store is kept in insertion order rather than fetch order. Strings compare character by character (`Base.StrLess`, by code point), which agrees with Swift's `<` on text in canonical composed form but not on text mixing composed and decomposed characters.
- Delegates and callbacks are modelled as if set. When the view model is built, `onCategoriesChange` is still nil, so the first list reaches no one; `notified` records it anyway.
- The statistics screen's cards and the tracker cell's rendering are not modelled.
- Hex colour parsing is not modelled.
- Search and status filters are not modelled: the presenter has no code for them.
- Presenter.TrackerPresenter.DidCreateTracker requires a created habit to carry at least seven flags, as every creation screen produces. A shorter schedule would make the app trap later, when the presenter reads a flag past the end.
- CreateScheduledEvent: the category it hands on is a plain `TrackerCategory` value. The presenter only stores a tracker whose category is a stored category object, so a habit from this screen is dropped (see `DidCreateTracker`). Its category picker is the older category screen, which is not part of this model.
- CreateScheduledEvent.CreateScheduledEventViewController.ShouldChangeCharacters: the filter is defined but never installed, since only the uncalled `setupTextFieldDelegate` makes the screen the field's delegate, so the app never runs it and this screen's name length is unchecked.
- Presenter.TrackerPresenter.constructor requires a log with at most one dated record per tracker id and day (`OnePerDay`), the state that taps leave behind. A store holding duplicates written by other means is not covered.
- Presenter.TrackerPresenter.ToggleTrackerCompletion requires that the UUID drawn for a tracker without an id is on no record yet. `UUID()` makes this true in practice, but the model cannot show it.
- CreateIrregularEvent: the screen declares a 38-character name limit but installs no edit filter, so its name length is unchecked.
- The older duplicate screens and model files are not part of this model: the top-level TrackerViewController, CreateScheduledEventViewController and CreateIrregularEventViewController, and the Models folder.
