/**
  Naive local date-times as `datetime.datetime` holds them: microseconds
  counted from 0001-01-01T00:00:00, with `timedelta` arithmetic and
  `strftime("%A")` in the C locale. Reading the clock is not modelled: the
  reading `now` is a parameter.
*/
module Clock {

  type Instant = int

  const MicrosPerMinute: int := 60_000_000
  const MicrosPerHour: int := 3_600_000_000
  const MicrosPerDay: int := 86_400_000_000

  /** `date.weekday()`: 0 is Monday; 0001-01-01 was a Monday. */
  function Weekday(t: Instant): (w: nat)
    ensures w < 7
  {
    (t / MicrosPerDay) % 7
  }

  const DayNames: seq<string> :=
    ["Monday", "Tuesday", "Wednesday", "Thursday", "Friday", "Saturday", "Sunday"]

  /** `strftime("%A")`: the full English name of the day of the week. */
  function DayName(t: Instant): (s: string)
    ensures s in DayNames
  {
    DayNames[Weekday(t)]
  }

  /**
    The calendar is anchored as Python's: 0001-01-01 is a Monday, and
    2002-12-04, day 731187 after it, is a Wednesday.
  */
  lemma WeekdayAnchors()
    ensures Weekday(0) == 0 && DayName(0) == "Monday"
    ensures Weekday(731187 * MicrosPerDay) == 2 && DayName(731187 * MicrosPerDay) == "Wednesday"
  {
  }

  /**
    Two clock readings a moment apart, on either side of midnight, give
    the same day name to "today" and to "one day back".
  */
  lemma ReadingsAcrossMidnight()
    ensures DayName(MicrosPerDay - 1) == DayName((MicrosPerDay + 1) - 1 * MicrosPerDay) == "Monday"
  {
  }

  /** Going back one whole day moves to the previous day of the week. */
  lemma WeekdayDayBefore(t: Instant)
    ensures Weekday(t - MicrosPerDay) == (Weekday(t) + 6) % 7
  {
    assert (t - MicrosPerDay) / MicrosPerDay == t / MicrosPerDay - 1;
  }

  /** The names of the days of the week are pairwise different. */
  lemma DayNamesDistinct(i: int, j: int)
    requires 0 <= i < 7 && 0 <= j < 7 && i != j
    ensures DayNames[i] != DayNames[j]
  {
    DayIndexInverts(i);
    DayIndexInverts(j);
  }

  /** The position of a day's name in `DayNames`. */
  function DayIndex(s: string): int {
    if s == "Monday" then 0
    else if s == "Tuesday" then 1
    else if s == "Wednesday" then 2
    else if s == "Thursday" then 3
    else if s == "Friday" then 4
    else if s == "Saturday" then 5
    else if s == "Sunday" then 6
    else -1
  }

  lemma DayIndexInverts(k: int)
    requires 0 <= k < 7
    ensures DayIndex(DayNames[k]) == k
  {
  }

  /** Within one week back from any instant, different day offsets fall on different days of the week. */
  lemma {:induction false} DaysBackDistinct(now: Instant, i: nat, j: nat)
    requires i < j < 7
    ensures DayName(now - i * MicrosPerDay) != DayName(now - j * MicrosPerDay)
  {
    var q := now / MicrosPerDay;
    DaysBack(now, i);
    DaysBack(now, j);
    assert Weekday(now - i * MicrosPerDay) == (q - i) % 7;
    assert Weekday(now - j * MicrosPerDay) == (q - j) % 7;
    ModDistinct(q, i, j);
    DayNamesDistinct(Weekday(now - i * MicrosPerDay), Weekday(now - j * MicrosPerDay));
  }

  lemma DaysBack(now: Instant, i: nat)
    ensures (now - i * MicrosPerDay) / MicrosPerDay == now / MicrosPerDay - i
  {
    var q, r := now / MicrosPerDay, now % MicrosPerDay;
    assert now - i * MicrosPerDay == (q - i) * MicrosPerDay + r;
  }

  lemma ModDistinct(q: int, i: int, j: int)
    requires 0 <= i < j < 7
    ensures (q - i) % 7 != (q - j) % 7
  {
    var a, b := (q - i) % 7, (q - j) % 7;
    var da, db := (q - i) / 7, (q - j) / 7;
    assert q - i == 7 * da + a;
    assert q - j == 7 * db + b;
    assert j - i == 7 * (da - db) + (a - b);
  }
}
