/** TrackerPresenter: which trackers are due on the selected day, how they
    are grouped into category sections, and how tapping a tracker toggles
    its completion record for that day. */
module Presenter {
  import opened Base
  import opened Structs
  import opened Entities
  import opened Sorting

  // ---------------------------------------------------------------------
  // Visibility
  // ---------------------------------------------------------------------

  /** A scheduled tracker whose schedule decodes has a flag at every index
      `weekday - 1` can take; reading past the end of the flags traps. */
  predicate HasWeekFlags(t: StoredTracker) {
    !t.isIrregular && t.schedule.Some? ==> |t.schedule.value| >= 7
  }

  /** `isTrackerValidForToday`: irregular trackers are always due; a
      schedule that is missing or does not decode is never due; otherwise
      the flag at the Sunday-first index `weekday - 1`. */
  function IsTrackerValidForToday(t: StoredTracker, weekday: int): (due: bool)
    requires 1 <= weekday <= 7
    requires HasWeekFlags(t)
    ensures t.isIrregular ==> due
    ensures !t.isIrregular && t.schedule.None? ==> !due
    ensures !t.isIrregular && t.schedule.Some? ==> (due <==> t.schedule.value[weekday - 1])
  {
    if t.isIrregular then true
    else match t.schedule
      case None => false
      case Some(days) => days[weekday - 1]
  }

  /** `all.filter { isTrackerValidForToday($0) }`. */
  function Due(all: seq<StoredTracker>, weekday: int): (r: seq<StoredTracker>)
    requires 1 <= weekday <= 7
    requires forall t :: t in all ==> HasWeekFlags(t)
    ensures forall t :: (multiset(r)[t] ==
                         if t in all && IsTrackerValidForToday(t, weekday) then multiset(all)[t] else 0)
  {
    if all == [] then []
    else
      assert all == [all[0]] + all[1..];
      var rest := Due(all[1..], weekday);
      if IsTrackerValidForToday(all[0], weekday) then [all[0]] + rest else rest
  }

  // ---------------------------------------------------------------------
  // Grouping: Dictionary(grouping: by category), nil category dropped
  // ---------------------------------------------------------------------

  /** The trackers of one category, in their original order. */
  function Group(s: seq<StoredTracker>, c: CategoryRef): (r: seq<StoredTracker>)
    ensures forall t :: multiset(r)[t] == if t.category == Some(c) then multiset(s)[t] else 0
  {
    if s == [] then []
    else
      assert s == [s[0]] + s[1..];
      var rest := Group(s[1..], c);
      if s[0].category == Some(c) then [s[0]] + rest else rest
  }

  /** The trackers whose category is one of `ks`. */
  function InKeys(s: seq<StoredTracker>, ks: seq<CategoryRef>): (r: seq<StoredTracker>)
    ensures forall t :: (multiset(r)[t] ==
                         if t.category.Some? && t.category.value in ks then multiset(s)[t] else 0)
  {
    if s == [] then []
    else
      assert s == [s[0]] + s[1..];
      var rest := InKeys(s[1..], ks);
      if s[0].category.Some? && s[0].category.value in ks then [s[0]] + rest else rest
  }

  /** The dictionary's non-nil keys, in order of first appearance. */
  function CategoryKeys(s: seq<StoredTracker>): (ks: seq<CategoryRef>)
    ensures Distinct(ks)
    ensures forall t :: t in s && t.category.Some? ==> t.category.value in ks
    ensures forall c :: c in ks ==> Some(c) in CategoriesOf(s)
  {
    if s == [] then []
    else
      var init := s[..|s| - 1];
      var last := s[|s| - 1];
      assert s == init + [last];
      var ks := CategoryKeys(init);
      assert CategoriesOf(s) == CategoriesOf(init) + {last.category};
      if last.category.Some? && last.category.value !in ks then ks + [last.category.value] else ks
  }

  function CategoriesOf(s: seq<StoredTracker>): set<Option<CategoryRef>> {
    set t | t in s :: t.category
  }

  // ---------------------------------------------------------------------
  // Sections
  // ---------------------------------------------------------------------

  datatype Section = Section(category: CategoryRef, trackers: seq<StoredTracker>)

  /** `$0.name ?? ""` */
  function NameKey(t: StoredTracker): string { t.name.GetOr("") }

  /** `$0.title ?? ""` */
  function TitleKey(sec: Section): string { sec.category.title.GetOr("") }

  function SectionCategory(sec: Section): CategoryRef { sec.category }

  /** One section per key, its trackers sorted by name. */
  function BuildSections(due: seq<StoredTracker>, ks: seq<CategoryRef>): (r: seq<Section>)
    ensures |r| == |ks|
    ensures forall i :: 0 <= i < |ks| ==> r[i] == Section(ks[i], SortBy(Group(due, ks[i]), NameKey))
  {
    if ks == [] then []
    else [Section(ks[0], SortBy(Group(due, ks[0]), NameKey))] + BuildSections(due, ks[1..])
  }

  function Flatten(secs: seq<Section>): seq<StoredTracker> {
    if secs == [] then [] else secs[0].trackers + Flatten(secs[1..])
  }

  /** `dailySections` for the weekday of the selected date. */
  function DailySections(all: seq<StoredTracker>, weekday: int): seq<Section>
    requires 1 <= weekday <= 7
    requires forall t :: t in all ==> HasWeekFlags(t)
  {
    var due := Due(all, weekday);
    SortBy(BuildSections(due, CategoryKeys(due)), TitleKey)
  }

  // ---------------------------------------------------------------------
  // What the sections contain
  // ---------------------------------------------------------------------

  lemma {:induction false} FlattenAppend(a: seq<Section>, b: seq<Section>)
    ensures Flatten(a + b) == Flatten(a) + Flatten(b)
  {
    if a == [] {
      assert a + b == b;
    } else {
      assert (a + b)[1..] == a[1..] + b;
      FlattenAppend(a[1..], b);
    }
  }

  lemma {:induction false} FlattenInsert(x: Section, s: seq<Section>, key: Section -> string)
    ensures multiset(Flatten(InsertBy(x, s, key))) == multiset(Flatten(s)) + multiset(x.trackers)
  {
    if s != [] && !StrLess(key(x), key(s[0])) {
      FlattenInsert(x, s[1..], key);
    }
  }

  lemma {:induction false} FlattenSort(s: seq<Section>, key: Section -> string)
    ensures multiset(Flatten(SortBy(s, key))) == multiset(Flatten(s))
  {
    if s != [] {
      var prefix := s[..|s| - 1];
      assert s == prefix + [s[|s| - 1]];
      FlattenSort(prefix, key);
      FlattenInsert(s[|s| - 1], SortBy(prefix, key), key);
      FlattenAppend(prefix, [s[|s| - 1]]);
    }
  }

  lemma {:induction false} FlattenBuild(due: seq<StoredTracker>, ks: seq<CategoryRef>)
    requires Distinct(ks)
    ensures multiset(Flatten(BuildSections(due, ks))) == multiset(InKeys(due, ks))
  {
    if ks != [] {
      FlattenBuild(due, ks[1..]);
      var head := SortBy(Group(due, ks[0]), NameKey);
      assert Flatten(BuildSections(due, ks)) == head + Flatten(BuildSections(due, ks[1..]));
      assert ks[0] !in ks[1..];
      forall t ensures multiset(Flatten(BuildSections(due, ks)))[t] == multiset(InKeys(due, ks))[t] {
        assert t.category.Some? && t.category.value in ks <==>
          t.category == Some(ks[0]) || (t.category.Some? && t.category.value in ks[1..]);
      }
    }
  }

  /** Every due tracker that has a category appears in the sections exactly
      as often as in the store, and nothing else appears. */
  lemma DailySectionsExactlyOnce(all: seq<StoredTracker>, weekday: int)
    requires 1 <= weekday <= 7
    requires forall t :: t in all ==> HasWeekFlags(t)
    ensures forall t :: (multiset(Flatten(DailySections(all, weekday)))[t] ==
                         if t in all && t.category.Some? && IsTrackerValidForToday(t, weekday)
                         then multiset(all)[t] else 0)
  {
    var due := Due(all, weekday);
    var ks := CategoryKeys(due);
    FlattenSort(BuildSections(due, ks), TitleKey);
    FlattenBuild(due, ks);
    forall t ensures multiset(InKeys(due, ks))[t] ==
                     if t in all && t.category.Some? && IsTrackerValidForToday(t, weekday)
                     then multiset(all)[t] else 0
    {
      if t.category.Some? && multiset(due)[t] > 0 {
        assert t in due;
      }
    }
  }

  /** A section as the screen shows it: non-empty, and every tracker in it
      is a stored tracker of the section's category that is due. */
  predicate SectionWellFormed(sec: Section, all: seq<StoredTracker>, weekday: int)
    requires 1 <= weekday <= 7
    requires forall t :: t in all ==> HasWeekFlags(t)
  {
    && sec.trackers != []
    && forall t :: t in sec.trackers ==>
         t in all && t.category == Some(sec.category) && IsTrackerValidForToday(t, weekday)
  }

  lemma BuiltSectionWellFormed(all: seq<StoredTracker>, weekday: int, k: nat)
    requires 1 <= weekday <= 7
    requires forall t :: t in all ==> HasWeekFlags(t)
    requires k < |CategoryKeys(Due(all, weekday))|
    ensures SectionWellFormed(BuildSections(Due(all, weekday), CategoryKeys(Due(all, weekday)))[k], all, weekday)
  {
    var due := Due(all, weekday);
    var ks := CategoryKeys(due);
    var sec := BuildSections(due, ks)[k];
    var g := Group(due, ks[k]);
    assert Some(ks[k]) in CategoriesOf(due);
    var t0 :| t0 in due && t0.category == Some(ks[k]);
    assert multiset(g)[t0] > 0;
    assert t0 in multiset(sec.trackers);
    forall t | t in sec.trackers
      ensures t in all && t.category == Some(sec.category) && IsTrackerValidForToday(t, weekday)
    {
      assert t in multiset(g);
      assert multiset(due)[t] > 0;
    }
  }

  /** Every section is well formed. */
  lemma DailySectionsWellFormed(all: seq<StoredTracker>, weekday: int)
    requires 1 <= weekday <= 7
    requires forall t :: t in all ==> HasWeekFlags(t)
    ensures forall sec :: sec in DailySections(all, weekday) ==> SectionWellFormed(sec, all, weekday)
  {
    var due := Due(all, weekday);
    var ks := CategoryKeys(due);
    var built := BuildSections(due, ks);
    var secs := SortBy(built, TitleKey);
    assert secs == DailySections(all, weekday);
    forall sec | sec in secs ensures SectionWellFormed(sec, all, weekday) {
      assert sec in multiset(built);
      var k :| 0 <= k < |built| && built[k] == sec;
      BuiltSectionWellFormed(all, weekday, k);
    }
  }

  /** No category has two sections. */
  lemma DailySectionsDistinct(all: seq<StoredTracker>, weekday: int)
    requires 1 <= weekday <= 7
    requires forall t :: t in all ==> HasWeekFlags(t)
    ensures DistinctBy(DailySections(all, weekday), SectionCategory)
  {
    var due := Due(all, weekday);
    var ks := CategoryKeys(due);
    var built := BuildSections(due, ks);
    assert DistinctBy(built, SectionCategory);
    SortByDistinct(built, TitleKey, SectionCategory);
  }

  /** Sections are in ascending title order and the trackers of each
      section in ascending name order, nil counting as "". */
  lemma DailySectionsSorted(all: seq<StoredTracker>, weekday: int)
    requires 1 <= weekday <= 7
    requires forall t :: t in all ==> HasWeekFlags(t)
    ensures SortedBy(DailySections(all, weekday), TitleKey)
    ensures forall sec :: sec in DailySections(all, weekday) ==> SortedBy(sec.trackers, NameKey)
  {
    var due := Due(all, weekday);
    var built := BuildSections(due, CategoryKeys(due));
    forall sec | sec in DailySections(all, weekday) ensures SortedBy(sec.trackers, NameKey) {
      assert sec in multiset(built);
    }
  }

  /** Some tracker with a category is due on `weekday`. */
  predicate AnyCategorizedDue(all: seq<StoredTracker>, weekday: int)
    requires 1 <= weekday <= 7
    requires forall t :: t in all ==> HasWeekFlags(t)
  {
    exists t :: t in all && t.category.Some? && IsTrackerValidForToday(t, weekday)
  }

  /** `updatePlaceholderVisibility`: the placeholder is hidden exactly when
      some tracker with a category is due. */
  function PlaceholderHidden(all: seq<StoredTracker>, weekday: int): (hidden: bool)
    requires 1 <= weekday <= 7
    requires forall t :: t in all ==> HasWeekFlags(t)
    ensures hidden <==> AnyCategorizedDue(all, weekday)
  {
    var secs := DailySections(all, weekday);
    DailySectionsExactlyOnce(all, weekday);
    DailySectionsWellFormed(all, weekday);
    if secs != [] then
      assert secs[0] in secs && secs[0].trackers[0] in secs[0].trackers;
      true
    else
      assert Flatten(secs) == [];
      false
  }

  // ---------------------------------------------------------------------
  // Completion records
  // ---------------------------------------------------------------------

  /** A record of tracker `t` on `day` (Swift optional equality: a nil
      tracker id matches a nil record id). */
  predicate Matches(r: StoredRecord, t: StoredTracker, day: Day) {
    r.trackerId == t.id && r.date == Some(day)
  }

  /** `recordFor(_:on:)`: the index of the first record of `t` on `day`. */
  function RecordFor(records: seq<StoredRecord>, t: StoredTracker, day: Day): (found: Option<nat>)
    ensures found.Some? ==> found.value < |records| && Matches(records[found.value], t, day)
    ensures found.Some? ==> forall j :: 0 <= j < found.value ==> !Matches(records[j], t, day)
    ensures found.None? ==> forall j :: 0 <= j < |records| ==> !Matches(records[j], t, day)
  {
    if records == [] then None
    else if Matches(records[0], t, day) then Some(0)
    else match RecordFor(records[1..], t, day)
      case None => None
      case Some(i) => Some(i + 1)
  }

  /** `totalDaysCompleted`: how many records carry the tracker's id, on any day. */
  function TotalDaysCompleted(records: seq<StoredRecord>, t: StoredTracker): (n: nat)
    ensures n <= |records|
    ensures n == 0 <==> forall r :: r in records ==> r.trackerId != t.id
  {
    if records == [] then 0
    else (if records[0].trackerId == t.id then 1 else 0) + TotalDaysCompleted(records[1..], t)
  }

  lemma {:induction false} TotalAppend(a: seq<StoredRecord>, b: seq<StoredRecord>, t: StoredTracker)
    ensures TotalDaysCompleted(a + b, t) == TotalDaysCompleted(a, t) + TotalDaysCompleted(b, t)
  {
    if a == [] {
      assert a + b == b;
    } else {
      assert (a + b)[1..] == a[1..] + b;
      TotalAppend(a[1..], b, t);
    }
  }

  /** Record-store fetch order: date descending, records without a date last. */
  predicate NotBefore(a: Option<Day>, b: Option<Day>) {
    b.None? || (a.Some? && a.value >= b.value)
  }

  ghost predicate DateDescending(records: seq<StoredRecord>) {
    forall i, j :: 0 <= i < j < |records| ==> NotBefore(records[i].date, records[j].date)
  }

  /** Where the store lists a new record of `day`: after every record of
      that day or later, before the first earlier or undated one. */
  function InsertPos(records: seq<StoredRecord>, day: Day): (k: nat)
    ensures k <= |records|
    ensures forall j :: 0 <= j < k ==> NotBefore(records[j].date, Some(day))
    ensures k < |records| ==> !NotBefore(records[k].date, Some(day))
  {
    if records == [] || !NotBefore(records[0].date, Some(day)) then 0
    else 1 + InsertPos(records[1..], day)
  }

  function InsertRecord(records: seq<StoredRecord>, rec: StoredRecord): seq<StoredRecord>
    requires rec.date.Some?
  {
    var k := InsertPos(records, rec.date.value);
    records[..k] + [rec] + records[k..]
  }

  /** Inserting adds exactly the new record, at the insertion position. */
  lemma InsertRecordContents(records: seq<StoredRecord>, rec: StoredRecord)
    requires rec.date.Some?
    ensures multiset(InsertRecord(records, rec)) == multiset(records) + multiset{rec}
    ensures InsertRecord(records, rec)[InsertPos(records, rec.date.value)] == rec
  {
    var k := InsertPos(records, rec.date.value);
    var before, after := records[..k], records[k..];
    assert InsertRecord(records, rec) == before + [rec] + after;
    assert records == before + after;
    calc {
      multiset(before + [rec] + after);
      multiset(before + [rec]) + multiset(after);
      multiset(before) + multiset{rec} + multiset(after);
    }
  }

  /** Inserting a dated record keeps the log in fetch order. */
  lemma InsertRecordSorted(records: seq<StoredRecord>, rec: StoredRecord)
    requires rec.date.Some? && DateDescending(records)
    ensures DateDescending(InsertRecord(records, rec))
  {
    var k := InsertPos(records, rec.date.value);
    var r := InsertRecord(records, rec);
    forall a, b | 0 <= a < b < |r| ensures NotBefore(r[a].date, r[b].date) {
      if b == k {
        assert r[a] == records[a] && r[b] == rec;
      } else if a == k {
        assert r[b] == records[b - 1];
        if b - 1 > k {
          assert NotBefore(records[k].date, records[b - 1].date);
        }
      } else {
        assert r[a] == records[if a < k then a else a - 1];
        assert r[b] == records[if b < k then b else b - 1];
      }
    }
  }

  /** Dropping one record keeps the log in fetch order. */
  lemma RemoveRecordSorted(records: seq<StoredRecord>, i: nat)
    requires i < |records| && DateDescending(records)
    ensures DateDescending(records[..i] + records[i + 1..])
  {
    var r := records[..i] + records[i + 1..];
    forall a, b | 0 <= a < b < |r| ensures NotBefore(r[a].date, r[b].date) {
      assert r[a] == records[if a < i then a else a + 1];
      assert r[b] == records[if b < i then b else b + 1];
    }
  }

  /** The record that tapping an incomplete tracker adds:
      `TrackerRecord(trackerId: tracker.id ?? UUID(), date: day)`. */
  function NewRecord(t: StoredTracker, day: Day, freshId: Uuid): StoredRecord {
    StoredRecord(Some(t.id.GetOr(freshId)), Some(day))
  }

  /** The record log after `toggleTrackerCompletion` on `day`. */
  function ToggleRecords(records: seq<StoredRecord>, t: StoredTracker, day: Day, freshId: Uuid): seq<StoredRecord> {
    match RecordFor(records, t, day)
    case Some(i) => records[..i] + records[i + 1..]
    case None => InsertRecord(records, NewRecord(t, day, freshId))
  }

  /** At most one record of `t` on `day`. */
  predicate AtMostOneMatch(records: seq<StoredRecord>, t: StoredTracker, day: Day) {
    forall i, j :: (0 <= i < |records| && 0 <= j < |records| &&
                    Matches(records[i], t, day) && Matches(records[j], t, day)) ==> i == j
  }

  /** Toggling a completed tracker removes exactly its first record of the
      day and keeps the log in fetch order. */
  lemma ToggleWhenCompleted(records: seq<StoredRecord>, t: StoredTracker, day: Day, freshId: Uuid)
    requires RecordFor(records, t, day).Some?
    ensures multiset(ToggleRecords(records, t, day, freshId)) ==
            multiset(records) - multiset{records[RecordFor(records, t, day).value]}
    ensures DateDescending(records) ==> DateDescending(ToggleRecords(records, t, day, freshId))
  {
    var i := RecordFor(records, t, day).value;
    assert records == records[..i] + [records[i]] + records[i + 1..];
    if DateDescending(records) {
      RemoveRecordSorted(records, i);
    }
  }

  /** Toggling an incomplete tracker adds exactly one record of it on that
      day and keeps the log in fetch order. */
  lemma ToggleWhenNotCompleted(records: seq<StoredRecord>, t: StoredTracker, day: Day, freshId: Uuid)
    requires RecordFor(records, t, day).None?
    ensures multiset(ToggleRecords(records, t, day, freshId)) ==
            multiset(records) + multiset{NewRecord(t, day, freshId)}
    ensures t.id.Some? ==> RecordFor(ToggleRecords(records, t, day, freshId), t, day).Some?
    ensures DateDescending(records) ==> DateDescending(ToggleRecords(records, t, day, freshId))
  {
    var rec := NewRecord(t, day, freshId);
    InsertRecordContents(records, rec);
    if t.id.Some? {
      var r := InsertRecord(records, rec);
      assert Matches(r[InsertPos(records, day)], t, day);
    }
    if DateDescending(records) {
      InsertRecordSorted(records, rec);
    }
  }

  /** With at most one record per (tracker, day) and a tracker that has an
      id, a tap flips the tracker's completion for the day. */
  lemma ToggleFlipsCompletion(records: seq<StoredRecord>, t: StoredTracker, day: Day, freshId: Uuid)
    requires t.id.Some? && AtMostOneMatch(records, t, day)
    ensures RecordFor(ToggleRecords(records, t, day, freshId), t, day).Some? <==>
            RecordFor(records, t, day).None?
  {
    var r := ToggleRecords(records, t, day, freshId);
    match RecordFor(records, t, day)
    case None =>
      ToggleWhenNotCompleted(records, t, day, freshId);
    case Some(i) =>
      assert r == records[..i] + records[i + 1..];
      forall j | 0 <= j < |r| ensures !Matches(r[j], t, day) {
        assert r[j] == records[if j < i then j else j + 1];
      }
  }

  /** A record of `t` placed at `k` in a log without one is the first match. */
  lemma RecordForInserted(records: seq<StoredRecord>, t: StoredTracker, day: Day, rec: StoredRecord, k: nat)
    requires k <= |records| && RecordFor(records, t, day).None? && Matches(rec, t, day)
    ensures RecordFor(records[..k] + [rec] + records[k..], t, day) == Some(k)
  {
    var s := records[..k] + [rec] + records[k..];
    assert s[k] == rec;
    forall j | 0 <= j < k ensures !Matches(s[j], t, day) {
      assert s[j] == records[j];
    }
  }

  /** Taking back out the element just placed at `k` restores the sequence. */
  lemma RemoveInserted(records: seq<StoredRecord>, rec: StoredRecord, k: nat)
    requires k <= |records|
    ensures var s := records[..k] + [rec] + records[k..];
            s[..k] + s[k + 1..] == records
  {
    var s := records[..k] + [rec] + records[k..];
    assert s[..k] == records[..k];
    assert s[k + 1..] == records[k..];
  }

  /** Two taps on an incomplete tracker give back the very same log. */
  lemma ToggleTwiceFromIncomplete(records: seq<StoredRecord>, t: StoredTracker, day: Day, freshId: Uuid)
    requires t.id.Some? && RecordFor(records, t, day).None?
    ensures ToggleRecords(ToggleRecords(records, t, day, freshId), t, day, freshId) == records
  {
    var rec := NewRecord(t, day, freshId);
    var k := InsertPos(records, day);
    var once := records[..k] + [rec] + records[k..];
    assert ToggleRecords(records, t, day, freshId) == once;
    RecordForInserted(records, t, day, rec, k);
    RemoveInserted(records, rec, k);
  }

  /** Two taps on a completed tracker give back the same records: the
      removed record is the one the second tap adds again. */
  lemma ToggleTwiceFromCompleted(records: seq<StoredRecord>, t: StoredTracker, day: Day, freshId: Uuid)
    requires t.id.Some? && AtMostOneMatch(records, t, day) && RecordFor(records, t, day).Some?
    ensures multiset(ToggleRecords(ToggleRecords(records, t, day, freshId), t, day, freshId)) ==
            multiset(records)
  {
    var once := ToggleRecords(records, t, day, freshId);
    var rec := NewRecord(t, day, freshId);
    var i := RecordFor(records, t, day).value;
    assert records[i] == rec;
    ToggleWhenCompleted(records, t, day, freshId);
    ToggleFlipsCompletion(records, t, day, freshId);
    ToggleWhenNotCompleted(once, t, day, freshId);
    assert rec in multiset(records);
  }

  /** Two taps on the same day restore the log: the very same sequence when
      the tracker was not completed, the same records when it was. */
  lemma ToggleTwice(records: seq<StoredRecord>, t: StoredTracker, day: Day, freshId: Uuid)
    requires t.id.Some? && AtMostOneMatch(records, t, day)
    ensures multiset(ToggleRecords(ToggleRecords(records, t, day, freshId), t, day, freshId)) ==
            multiset(records)
    ensures RecordFor(records, t, day).None? ==>
            ToggleRecords(ToggleRecords(records, t, day, freshId), t, day, freshId) == records
  {
    if RecordFor(records, t, day).None? {
      ToggleTwiceFromIncomplete(records, t, day, freshId);
    } else {
      ToggleTwiceFromCompleted(records, t, day, freshId);
    }
  }

  /** The tracker's total changes by exactly one with each tap. */
  lemma ToggleChangesTotalByOne(records: seq<StoredRecord>, t: StoredTracker, day: Day, freshId: Uuid)
    requires t.id.Some?
    ensures TotalDaysCompleted(ToggleRecords(records, t, day, freshId), t) ==
            if RecordFor(records, t, day).Some? then TotalDaysCompleted(records, t) - 1
            else TotalDaysCompleted(records, t) + 1
  {
    match RecordFor(records, t, day)
    case Some(i) =>
      assert records == records[..i] + ([records[i]] + records[i + 1..]);
      TotalAppend(records[..i], [records[i]] + records[i + 1..], t);
      TotalAppend([records[i]], records[i + 1..], t);
      TotalAppend(records[..i], records[i + 1..], t);
    case None =>
      var rec := NewRecord(t, day, freshId);
      var k := InsertPos(records, day);
      assert records == records[..k] + records[k..];
      TotalAppend(records[..k], records[k..], t);
      TotalAppend(records[..k] + [rec], records[k..], t);
      TotalAppend(records[..k], [rec], t);
  }

  /** The log the app keeps: no two dated records share a tracker id and a
      day, since a tap only adds a record when none matches. */
  predicate OnePerDay(records: seq<StoredRecord>) {
    forall i, j :: 0 <= i < j < |records| ==>
      records[i].date.None? || records[i].trackerId != records[j].trackerId || records[i].date != records[j].date
  }

  /** In such a log every (tracker, day) has at most one record. */
  lemma OnePerDayAtMostOneMatch(records: seq<StoredRecord>, t: StoredTracker, day: Day)
    requires OnePerDay(records)
    ensures AtMostOneMatch(records, t, day)
  {
  }

  /** A tap keeps one record per tracker and day, provided the UUID drawn
      for a tracker without an id is on no record yet. */
  lemma ToggleKeepsOnePerDay(records: seq<StoredRecord>, t: StoredTracker, day: Day, freshId: Uuid)
    requires OnePerDay(records)
    requires t.id.None? ==> forall r :: r in records ==> r.trackerId != Some(freshId)
    ensures OnePerDay(ToggleRecords(records, t, day, freshId))
  {
    var out := ToggleRecords(records, t, day, freshId);
    match RecordFor(records, t, day)
    case Some(i) =>
      assert out == records[..i] + records[i + 1..];
      forall a, b | 0 <= a < b < |out|
        ensures out[a].date.None? || out[a].trackerId != out[b].trackerId || out[a].date != out[b].date
      {
        var a', b' := if a < i then a else a + 1, if b < i then b else b + 1;
        assert out[a] == records[a'] && out[b] == records[b'] && a' < b';
      }
    case None =>
      var rec := NewRecord(t, day, freshId);
      var k := InsertPos(records, day);
      assert out == records[..k] + [rec] + records[k..];
      forall x | 0 <= x < |records|
        ensures records[x].trackerId != rec.trackerId || records[x].date != rec.date
      {
        if t.id.None? {
          assert records[x] in records;
        } else {
          assert !Matches(records[x], t, day);
        }
      }
      forall a, b | 0 <= a < b < |out|
        ensures out[a].date.None? || out[a].trackerId != out[b].trackerId || out[a].date != out[b].date
      {
        if a == k {
          assert out[a] == rec && out[b] == records[b - 1];
        } else if b == k {
          assert out[a] == records[a] && out[b] == rec;
        } else {
          var a', b' := if a < k then a else a - 1, if b < k then b else b - 1;
          assert out[a] == records[a'] && out[b] == records[b'] && a' < b';
        }
      }
  }

  // ---------------------------------------------------------------------
  // The presenter object
  // ---------------------------------------------------------------------

  class TrackerPresenter {
    /** The tracker store's rows. */
    var trackers: seq<StoredTracker>
    /** The record store's rows, in fetch order. */
    var records: seq<StoredRecord>
    /** `currentDate`, as a day. */
    var currentDay: Day

    ghost predicate Valid()
      reads this
    {
      && (forall t :: t in trackers ==> HasWeekFlags(t))
      && DateDescending(records)
      && OnePerDay(records)
    }

    constructor (trackers: seq<StoredTracker>, records: seq<StoredRecord>, today: Day)
      requires forall t :: t in trackers ==> HasWeekFlags(t)
      requires DateDescending(records) && OnePerDay(records)
      ensures Valid()
      ensures this.trackers == trackers && this.records == records && currentDay == today
    {
      this.trackers := trackers;
      this.records := records;
      currentDay := today;
    }

    /** `datePickerValueChanged(date:)`. */
    method DatePickerValueChanged(day: Day)
      modifies this`currentDay
      ensures currentDay == day
    {
      currentDay := day;
    }

    /** `updatePlaceholderVisibility()`: the value passed to the view. */
    method UpdatePlaceholderVisibility() returns (isHidden: bool)
      requires Valid()
      ensures isHidden <==> AnyCategorizedDue(trackers, SystemWeekday(currentDay))
    {
      isHidden := DailySections(trackers, SystemWeekday(currentDay)) != [];
      assert isHidden == PlaceholderHidden(trackers, SystemWeekday(currentDay));
    }

    /** `didCreateTracker(_:)`: a notification carrying a tracker and a
        stored category adds the tracker's row to the store; one lacking
        either is ignored. */
    method DidCreateTracker(newTracker: Option<Tracker>, category: Option<CategoryRef>)
      requires Valid()
      requires newTracker.Some? && category.Some? ==>
                 HasWeekFlags(StoreTracker(newTracker.value, category.value))
      modifies this`trackers
      ensures Valid()
      ensures newTracker.Some? && category.Some? ==>
                trackers == old(trackers) + [StoreTracker(newTracker.value, category.value)]
      ensures !(newTracker.Some? && category.Some?) ==> trackers == old(trackers)
    {
      if newTracker.None? || category.None? {
        return;
      }
      trackers := trackers + [StoreTracker(newTracker.value, category.value)];
    }

    /** `toggleTrackerCompletion(for:at:)`; `freshId` is the UUID generated
        when the tracker has no id. */
    method ToggleTrackerCompletion(t: StoredTracker, freshId: Uuid)
      requires Valid()
      requires t.id.None? ==> forall r :: r in records ==> r.trackerId != Some(freshId)
      modifies this`records
      ensures Valid()
      ensures records == ToggleRecords(old(records), t, currentDay, freshId)
      ensures t.id.Some? ==>
                (RecordFor(records, t, currentDay).Some? <==> RecordFor(old(records), t, currentDay).None?)
    {
      var day := currentDay;
      ToggleKeepsOnePerDay(records, t, day, freshId);
      OnePerDayAtMostOneMatch(records, t, day);
      if t.id.Some? {
        ToggleFlipsCompletion(records, t, day, freshId);
      }
      match RecordFor(records, t, day) {
        case Some(i) =>
          RemoveRecordSorted(records, i);
          records := records[..i] + records[i + 1..];
        case None =>
          InsertRecordSorted(records, NewRecord(t, day, freshId));
          records := InsertRecord(records, NewRecord(t, day, freshId));
      }
    }

    /** `cellForItemAt`: the tracker shown at (section, item), whether it is
        completed on the selected day, its total and the future-date flag. */
    method CellFor(section: nat, item: nat, today: Day)
      returns (tracker: StoredTracker, completed: bool, daysCount: nat, isFutureDate: bool)
      requires Valid()
      requires section < |DailySections(trackers, SystemWeekday(currentDay))|
      requires item < |DailySections(trackers, SystemWeekday(currentDay))[section].trackers|
      ensures tracker == DailySections(trackers, SystemWeekday(currentDay))[section].trackers[item]
      ensures tracker in trackers && IsTrackerValidForToday(tracker, SystemWeekday(currentDay))
      ensures completed <==> exists r :: r in records && Matches(r, tracker, currentDay)
      ensures daysCount == TotalDaysCompleted(records, tracker)
      ensures isFutureDate <==> currentDay > today
    {
      var secs := DailySections(trackers, SystemWeekday(currentDay));
      DailySectionsWellFormed(trackers, SystemWeekday(currentDay));
      assert secs[section] in secs;
      tracker := secs[section].trackers[item];
      assert tracker in secs[section].trackers;
      var found := RecordFor(records, tracker, currentDay);
      completed := found.Some?;
      if completed {
        assert records[found.value] in records;
      }
      daysCount := TotalDaysCompleted(records, tracker);
      isFutureDate := currentDay > today;
    }
  }

  /** A tracker just added to the store is listed among the day's sections
      on every weekday it is due, and the placeholder is then hidden. */
  lemma CreatedTrackerListed(all: seq<StoredTracker>, t: Tracker, c: CategoryRef, weekday: int)
    requires 1 <= weekday <= 7
    requires forall s :: s in all ==> HasWeekFlags(s)
    requires HasWeekFlags(StoreTracker(t, c))
    requires IsTrackerValidForToday(StoreTracker(t, c), weekday)
    ensures multiset(Flatten(DailySections(all + [StoreTracker(t, c)], weekday)))[StoreTracker(t, c)]
            == multiset(all)[StoreTracker(t, c)] + 1
    ensures PlaceholderHidden(all + [StoreTracker(t, c)], weekday)
  {
    var row := StoreTracker(t, c);
    var added := all + [row];
    assert row in added;
    assert forall s :: s in added ==> HasWeekFlags(s);
    DailySectionsExactlyOnce(added, weekday);
    assert multiset(added) == multiset(all) + multiset{row};
  }
}
