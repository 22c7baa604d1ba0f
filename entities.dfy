/** The persisted rows the presenter and the statistics screen read
    (TrackerCoreData, TrackerRecordCoreData, TrackerCategoryCoreData), with
    their optional attributes kept optional, and the calendar facts the app
    asks of `Calendar.current`. */
module Entities {
  import opened Base
  import opened Structs

  /** A category row. `oid` stands for the object's identity: two rows with
      the same title are still different categories. */
  datatype CategoryRef = CategoryRef(oid: nat, title: Option<string>)

  /** A tracker row. `schedule` is the decoded schedule: None when the
      attribute is absent or its JSON does not decode. */
  datatype StoredTracker = StoredTracker(
    id: Option<Uuid>,
    name: Option<string>,
    color: Option<string>,
    emoji: Option<string>,
    schedule: Option<seq<bool>>,
    isIrregular: bool,
    category: Option<CategoryRef>)

  /** A completion row; `date` is already a start-of-day. */
  datatype StoredRecord = StoredRecord(trackerId: Option<Uuid>, date: Option<Day>)

  /** `TrackerStore.addTracker`: the row written for a newly created tracker. */
  function StoreTracker(t: Tracker, category: CategoryRef): (row: StoredTracker)
    ensures row.id == Some(t.id) && row.name == Some(t.name)
    ensures row.color == Some(t.color) && row.emoji == Some(t.emoji)
    ensures row.schedule == (if t.schedule.Some? then Some(t.schedule.value.daysOfWeek) else None)
    ensures row.isIrregular == t.isIrregular && row.category == Some(category)
  {
    StoredTracker(Some(t.id), Some(t.name), Some(t.color), Some(t.emoji),
                  if t.schedule.Some? then Some(t.schedule.value.daysOfWeek) else None,
                  t.isIrregular, Some(category))
  }

  /** `Calendar.current.component(.weekday, from:)`: 1 = Sunday … 7 = Saturday.
      Day 0 (1970-01-01) was a Thursday. */
  function SystemWeekday(day: Day): (w: int)
    ensures 1 <= w <= 7
  {
    (day + 4) % 7 + 1
  }

  /** The weekday advances by one each day and wraps from Saturday to Sunday. */
  lemma SystemWeekdayNext(day: Day)
    ensures SystemWeekday(day + 1) == SystemWeekday(day) % 7 + 1
  {
    var w := (day + 4) % 7;
    assert day + 4 == 7 * ((day + 4) / 7) + w;
    if w < 6 {
      assert (day + 5) % 7 == w + 1;
    } else {
      assert day + 5 == 7 * ((day + 4) / 7 + 1);
      assert (day + 5) % 7 == 0;
    }
  }
}
