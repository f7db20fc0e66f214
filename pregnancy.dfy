/**
 * Pregnancy-week arithmetic shared by the doula and mother pages. Instants are integer
 * milliseconds since the epoch; a calendar date stored as `yyyy-mm-dd` is the instant of
 * its UTC midnight.
 */
module Pregnancy {
  import opened JsMath

  /** One day and one week, in milliseconds. */
  const DayMs: int := 86400000
  const WeekMs: int := 604800000

  /** Forty weeks: the offset from the last menstrual period to the estimated due date. */
  const TermDays: int := 280

  /**
   * `40 - Math.floor((due - now) / week)`: the week of pregnancy before any clamp. Week
   * `r` is the one in which `due - now` lies `40 - r` whole weeks ahead.
   */
  function RawWeek(due: int, now: int): (r: int)
    ensures WeekMs * (40 - r) <= due - now < WeekMs * (40 - r) + WeekMs
  {
    40 - FloorDiv(due - now, WeekMs)
  }

  /** As time passes, the week never goes back. */
  lemma RawWeekMonotone(due: int, now1: int, now2: int)
    requires now1 <= now2
    ensures RawWeek(due, now1) <= RawWeek(due, now2)
  {
    var a := due - now1;
    var b := due - now2;
    var qa := FloorDiv(a, WeekMs);
    var qb := FloorDiv(b, WeekMs);
    assert WeekMs * qb <= b <= a < WeekMs * qa + WeekMs;
    assert WeekMs * qb < WeekMs * (qa + 1);
  }

  /** On the due date itself the week is 40, and exactly one term earlier it is 0. */
  lemma RawWeekTermEnds(due: int)
    ensures RawWeek(due, due) == 40
    ensures RawWeek(due, due - TermDays * DayMs) == 0
  {
    var q := FloorDiv(TermDays * DayMs, WeekMs);
    assert WeekMs * q <= WeekMs * 40 < WeekMs * q + WeekMs;
  }
}
