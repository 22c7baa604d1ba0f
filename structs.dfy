/** The app's value types (Structs.swift): trackers, categories, completion
    records, schedules and the fixed emoji and colour palettes. */
module Structs {
  import opened Base

  /** A UUID, abstracted to a number. */
  type Uuid = nat

  /** A calendar day: days since 1970-01-01 in the user's calendar, that is a
      `Date` after `startOfDay()`. */
  type Day = int

  /** Seven flags, index 0 = Monday … 6 = Sunday, when built by the app. */
  datatype Schedule = Schedule(daysOfWeek: seq<bool>)

  datatype Tracker = Tracker(
    id: Uuid,
    name: string,
    color: string,
    emoji: string,
    schedule: Option<Schedule>,
    isIrregular: bool)

  /** `Tracker.init`: stores its arguments and derives `isIrregular`. */
  function NewTracker(id: Uuid, name: string, color: string, emoji: string,
                      schedule: Option<Schedule>): (t: Tracker)
    ensures t.isIrregular <==> schedule == None
    ensures t.id == id && t.name == name && t.color == color && t.emoji == emoji
    ensures t.schedule == schedule
  {
    Tracker(id, name, color, emoji, schedule, schedule == None)
  }

  datatype TrackerCategory = TrackerCategory(title: string, trackers: seq<Tracker>)

  datatype TrackerRecord = TrackerRecord(trackerId: Uuid, date: Day)

  /** `TrackerCategory.allCategories`. */
  function AllCategories(): (r: seq<TrackerCategory>)
    ensures |r| == 3
    ensures r[0].title == "Домашний уют" && r[1].title == "Здоровье" && r[2].title == "Важное"
    ensures forall i :: 0 <= i < |r| ==> r[i].trackers == []
  {
    [ TrackerCategory("Домашний уют", []),
      TrackerCategory("Здоровье", []),
      TrackerCategory("Важное", []) ]
  }

  /** `Emojis.list`: eighteen different emoji. */
  function Emojis(): (r: seq<string>)
    ensures |r| == 18
    ensures Distinct(r)
  {
    [ "🙂", "😻", "🌺", "🐶", "❤️", "😱",
      "😇", "😡", "🥶", "🤔", "🙌", "🍔",
      "🥦", "🏓", "🥇", "🎸", "🏝", "😪" ]
  }

  /** Decimal rendering of a number, as string interpolation prints it. */
  function NatToString(n: nat): (s: string)
    ensures |s| >= 1
    ensures forall k :: 0 <= k < |s| ==> '0' <= s[k] <= '9'
    ensures n >= 10 ==> s[0] != '0'
  {
    if n < 10 then [(48 + n) as char]
    else NatToString(n / 10) + [(48 + n % 10) as char]
  }

  /** `Colors.list`: "Color selection 1" … "Color selection 18". */
  function Colors(): (r: seq<string>)
  {
    seq(18, i requires 0 <= i < 18 => "Color selection " + NatToString(i + 1))
  }

  lemma ColorsListed()
    ensures Colors() == ColorNames()
  {
    ColorsListedOneDigit();
    ColorsListedTwoDigits();
  }

  lemma ColorsListedOneDigit()
    ensures forall i :: 0 <= i < 9 ==> Colors()[i] == ColorNames()[i]
  {
    forall i | 0 <= i < 9 ensures Colors()[i] == ColorNames()[i] {
      assert NatToString(i + 1) == [(49 + i) as char];
    }
  }

  lemma ColorsListedTwoDigits()
    ensures forall i :: 9 <= i < 18 ==> Colors()[i] == ColorNames()[i]
  {
    assert NatToString(1) == ['1'];
    forall i | 9 <= i < 18 ensures Colors()[i] == ColorNames()[i] {
      assert NatToString(i + 1) == ['1', (39 + i) as char];
    }
  }

  /** No two palette entries share a name: the last digit and the length
      of the number tell them apart. */
  lemma ColorsDistinct()
    ensures Distinct(Colors())
  {
    ColorShapes();
  }

  /** Entry i has 17 characters below 9 and 18 from 9 on, and ends in the
      last digit of i + 1. */
  lemma ColorShapes()
    ensures forall i :: 0 <= i < 18 ==> |Colors()[i]| == (if i < 9 then 17 else 18)
    ensures forall i :: 0 <= i < 18 ==> Colors()[i][|Colors()[i]| - 1] == (48 + (i + 1) % 10) as char
  {
    forall i | 0 <= i < 18
      ensures |Colors()[i]| == (if i < 9 then 17 else 18)
      ensures Colors()[i][|Colors()[i]| - 1] == (48 + (i + 1) % 10) as char
    {
      if i >= 9 {
        assert NatToString(i + 1) == NatToString(1) + [(48 + (i + 1) % 10) as char];
      }
    }
  }

  /** The eighteen colour names written out. */
  function ColorNames(): seq<string> {
    [ "Color selection 1", "Color selection 2", "Color selection 3",
      "Color selection 4", "Color selection 5", "Color selection 6",
      "Color selection 7", "Color selection 8", "Color selection 9",
      "Color selection 10", "Color selection 11", "Color selection 12",
      "Color selection 13", "Color selection 14", "Color selection 15",
      "Color selection 16", "Color selection 17", "Color selection 18" ]
  }
}
