/** The fixed class timetable, the current-period lookup and the two holders
    of the signed-in user's id (app/.../viewmodels/UserViewModel.kt).
    Clock access is a parameter: `now` is the time of day in whole seconds
    since midnight. */
module Timetable {
  import opened Wrappers
  import opened Decimal

  /** A time of day, truncated to whole seconds. Every timetable boundary is
      a whole minute, so comparing the truncated time with a boundary gives
      the same answer as comparing the exact `LocalTime`. */
  type TimeOfDay = t: nat | t < 86400

  /** The "HH:MM" strings of the timetable that `LocalTime.parse` accepts. */
  predicate IsClock(s: string) {
    && |s| == 5
    && IsDigit(s[0]) && IsDigit(s[1]) && s[2] == ':' && IsDigit(s[3]) && IsDigit(s[4])
    && DigitValue(s[0]) * 10 + DigitValue(s[1]) < 24
    && DigitValue(s[3]) * 10 + DigitValue(s[4]) < 60
  }

  /** `LocalTime.parse(s)` as seconds since midnight. */
  function ClockSeconds(s: string): (t: TimeOfDay)
    requires IsClock(s)
    ensures t % 60 == 0
  {
    ((DigitValue(s[0]) * 10 + DigitValue(s[1])) * 60 + DigitValue(s[3]) * 10 + DigitValue(s[4])) * 60
  }

  datatype PeriodTime = PeriodTime(number: int, start: string, end: string)

  const PeriodTimings: seq<PeriodTime> := [
    PeriodTime(1, "09:15", "10:15"),
    PeriodTime(2, "10:15", "11:15"),
    PeriodTime(3, "11:45", "12:45"),
    PeriodTime(4, "13:45", "14:40"),
    PeriodTime(5, "14:40", "15:35"),
    PeriodTime(6, "15:35", "16:30")
  ]

  /** Every start and end of the table parses. */
  predicate Parsable(table: seq<PeriodTime>) {
    forall i :: 0 <= i < |table| ==> IsClock(table[i].start) && IsClock(table[i].end)
  }

  /** The half-open window [start, end) of a period holds `now`. */
  predicate Holds(p: PeriodTime, now: TimeOfDay)
    requires IsClock(p.start) && IsClock(p.end)
  {
    ClockSeconds(p.start) <= now < ClockSeconds(p.end)
  }

  /** Each period starts before it ends, and ends no later than the next one
      starts. */
  predicate Chained(table: seq<PeriodTime>)
    requires Parsable(table)
  {
    && (forall i :: 0 <= i < |table| ==> ClockSeconds(table[i].start) < ClockSeconds(table[i].end))
    && (forall i :: 0 <= i < |table| - 1 ==> ClockSeconds(table[i].end) <= ClockSeconds(table[i + 1].start))
  }

  /** The loop of `getCurrentPeriodNumber`: the number of the first period
      whose window holds `now`, or null when no window does. */
  function FindPeriod(table: seq<PeriodTime>, now: TimeOfDay): (r: Option<int>)
    requires Parsable(table)
    ensures r.None? <==> forall i :: 0 <= i < |table| ==> !Holds(table[i], now)
    ensures r.Some? ==> exists i :: 0 <= i < |table| && Holds(table[i], now) && r.value == table[i].number
                                  && forall j :: 0 <= j < i ==> !Holds(table[j], now)
  {
    if |table| == 0 then None
    else if Holds(table[0], now) then Some(table[0].number)
    else
      var r := FindPeriod(table[1..], now);
      assert forall i :: 1 <= i < |table| ==> table[i] == table[1..][i - 1];
      r
  }

  function CurrentPeriodNumber(now: TimeOfDay): (r: Option<int>)
    ensures r.Some? ==> 1 <= r.value <= 6
  {
    TimetableShape();
    FindPeriod(PeriodTimings, now)
  }

  /** The nine boundaries of the timetable in seconds since midnight. */
  lemma BoundaryValues()
    ensures IsClock("09:15") && ClockSeconds("09:15") == 33300
    ensures IsClock("10:15") && ClockSeconds("10:15") == 36900
    ensures IsClock("11:15") && ClockSeconds("11:15") == 40500
    ensures IsClock("11:45") && ClockSeconds("11:45") == 42300
    ensures IsClock("12:45") && ClockSeconds("12:45") == 45900
    ensures IsClock("13:45") && ClockSeconds("13:45") == 49500
    ensures IsClock("14:40") && ClockSeconds("14:40") == 52800
    ensures IsClock("15:35") && ClockSeconds("15:35") == 56100
    ensures IsClock("16:30") && ClockSeconds("16:30") == 59400
  {
  }

  /** The timetable lists periods 1 to 6 in order, each one a proper window
      that ends no later than the next one starts. */
  lemma TimetableShape()
    ensures |PeriodTimings| == 6
    ensures forall i :: 0 <= i < 6 ==> PeriodTimings[i].number == i + 1
    ensures Parsable(PeriodTimings) && Chained(PeriodTimings)
    ensures PeriodSeconds(0) == (33300, 36900) && PeriodSeconds(1) == (36900, 40500)
    ensures PeriodSeconds(2) == (42300, 45900) && PeriodSeconds(3) == (49500, 52800)
    ensures PeriodSeconds(4) == (52800, 56100) && PeriodSeconds(5) == (56100, 59400)
  {
    BoundaryValues();
  }

  /** The window of the i-th timetable entry, in seconds. */
  function PeriodSeconds(i: nat): (TimeOfDay, TimeOfDay)
    requires i < 6
  {
    BoundaryValues();
    var p := PeriodTimings[i];
    (ClockSeconds(p.start), ClockSeconds(p.end))
  }

  /** In a chained table an earlier period ends no later than any later one
      starts. */
  lemma {:induction false} ChainedOrdered(table: seq<PeriodTime>, i: nat, j: nat)
    requires Parsable(table) && Chained(table)
    requires i < j < |table|
    ensures ClockSeconds(table[i].end) <= ClockSeconds(table[j].start)
    decreases j - i
  {
    if i + 1 < j {
      ChainedOrdered(table, i + 1, j);
    }
  }

  /** The windows of a chained table are disjoint: at most one holds `now`. */
  lemma AtMostOneHolds(table: seq<PeriodTime>, now: TimeOfDay, i: nat, j: nat)
    requires Parsable(table) && Chained(table)
    requires i < |table| && j < |table|
    requires Holds(table[i], now) && Holds(table[j], now)
    ensures i == j
  {
    if i < j {
      ChainedOrdered(table, i, j);
    } else if j < i {
      ChainedOrdered(table, j, i);
    }
  }

  /** Whichever period holds `now` is the one reported: since the windows are
      disjoint, "first match" is "the match". */
  lemma CurrentPeriodIsTheHoldingOne(now: TimeOfDay, i: nat)
    requires i < 6
    ensures IsClock(PeriodTimings[i].start) && IsClock(PeriodTimings[i].end)
    ensures Holds(PeriodTimings[i], now) ==> CurrentPeriodNumber(now) == Some(i + 1)
  {
    TimetableShape();
    if Holds(PeriodTimings[i], now) {
      var r := CurrentPeriodNumber(now);
      var k :| 0 <= k < 6 && Holds(PeriodTimings[k], now) && r.value == PeriodTimings[k].number;
      AtMostOneHolds(PeriodTimings, now, i, k);
    }
  }

  /** At a shared boundary the later period wins, because windows are
      half-open. */
  lemma SharedBoundaries()
    ensures CurrentPeriodNumber(36900) == Some(2)  // 10:15
    ensures CurrentPeriodNumber(52800) == Some(5)  // 14:40
    ensures CurrentPeriodNumber(56100) == Some(6)  // 15:35
  {
    CurrentPeriodIsTheHoldingOne(36900, 1);
    CurrentPeriodIsTheHoldingOne(52800, 4);
    CurrentPeriodIsTheHoldingOne(56100, 5);
  }

  /** No period is current exactly before 09:15, during the breaks
      11:15-11:45 and 12:45-13:45, and from 16:30 on. */
  lemma NoPeriodExactly(now: TimeOfDay)
    ensures CurrentPeriodNumber(now) == None <==>
      now < 33300 || 40500 <= now < 42300 || 45900 <= now < 49500 || 59400 <= now
  {
    TimetableShape();
  }

  /** `UserViewModel.uuid`: the user id the screens read. */
  class UserViewModel {
    var uuid: Option<string>

    constructor ()
      ensures uuid == None
    {
      uuid := None;
    }
  }

  /** The process-wide `object UserSession`; one instance stands for it and
      is passed to every operation that reads or writes it. */
  class UserSession {
    var uuid: Option<string>

    constructor ()
      ensures uuid == None
    {
      uuid := None;
    }
  }
}
