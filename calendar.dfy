/**
 * The calendar the analytics use, in Coordinated Universal Time. A calendar date is
 * kept as its day number since 1970-01-01: the date part of `toISOString()` and the day
 * number determine each other, so comparing keys compares dates.
 */
module Calendar {

  const MsPerDay: int := 86400000

  /** `new Date(ts).toISOString().split('T')[0]`, as a day number (floor division). */
  function DayKey(ts: int): int {
    ts / MsPerDay
  }

  /** Short weekday names, starting from 1970-01-01, a Thursday. */
  const WeekdayNames: seq<string> := ["Thu", "Fri", "Sat", "Sun", "Mon", "Tue", "Wed"]

  /** `toLocaleDateString('en-US', { weekday: 'short' })` of a day. */
  function WeekdayLabel(day: int): string {
    WeekdayNames[day % 7]
  }

  /** Going back `n` whole days moves the date back by `n`. */
  lemma {:induction false} DayKeyShift(ts: int, n: int)
    ensures DayKey(ts - n * MsPerDay) == DayKey(ts) - n
  {
    var q, r := ts / MsPerDay, ts % MsPerDay;
    assert ts == q * MsPerDay + r && 0 <= r < MsPerDay;
    assert ts - n * MsPerDay == (q - n) * MsPerDay + r;
    DivUnique(ts - n * MsPerDay, q - n, r);
  }

  lemma {:induction false} DivUnique(x: int, q: int, r: int)
    requires 0 <= r < MsPerDay && x == q * MsPerDay + r
    ensures x / MsPerDay == q
  {
    var q', r' := x / MsPerDay, x % MsPerDay;
    assert x == q' * MsPerDay + r' && 0 <= r' < MsPerDay;
    assert (q - q') * MsPerDay == r' - r;
  }

  /** Seven consecutive days carry seven different labels. */
  lemma {:induction false} WeekLabelsDistinct(d: int, j: int, k: int)
    requires 0 <= j < k < 7
    ensures WeekdayLabel(d + j) != WeekdayLabel(d + k)
  {
    var a, b := (d + j) % 7, (d + k) % 7;
    assert (d + k) - (d + j) == k - j;
    assert a != b;
  }

  /** Days a whole number of weeks apart carry the same label. */
  lemma {:induction false} LabelRepeatsWeekly(d: int, weeks: int)
    ensures WeekdayLabel(d + 7 * weeks) == WeekdayLabel(d)
  {
    var q, r := d / 7, d % 7;
    assert d + 7 * weeks == (q + weeks) * 7 + r;
  }
}
