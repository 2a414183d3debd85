/** The period list of the attendance screen
    (InsightEd-App/.../ui/attendance/AttendanceScreen.kt). The remote store
    is a map from a path (its segments in order) to the string stored
    there; `today` (`dd_MM_yyyy`) and the user id are parameters. */
module Attendance {
  import opened Wrappers
  import opened Decimal
  import opened Timetable

  datatype Period = Period(number: int, subject: string, timing: string, attendanceStatus: string)

  type Store = map<seq<string>, string>

  const Loading := "Loading..."
  const Pending := "Pending"
  const Error := "Error"
  const NoSubject := "No subject assigned"

  /** The value at a path, or null. */
  function Get(store: Store, path: seq<string>): Option<string> {
    if path in store then Some(store[path]) else None
  }

  /** The child name `period{n}`. */
  function PeriodKey(n: int): string {
    "period" + IntToString(n)
  }

  function SubjectPath(n: int): seq<string> {
    ["periods", PeriodKey(n)]
  }

  function StatusPath(today: string, n: int, uid: string): seq<string> {
    ["attendance", today, PeriodKey(n), uid, "status"]
  }

  /** The timing label "start - end": the start, the separator " - " and
      the end, each recoverable from its position. */
  function Timing(p: PeriodTime): (t: string)
    ensures |t| == |p.start| + 3 + |p.end|
    ensures t[..|p.start|] == p.start && t[|p.start|..|p.start| + 3] == " - " && t[|p.start| + 3..] == p.end
  {
    p.start + " - " + p.end
  }

  /** The list the screen starts with: one entry per timetable period, in
      timetable order, with no subject yet and status "Loading...". */
  function InitialPeriods(table: seq<PeriodTime>): (ps: seq<Period>)
    ensures |ps| == |table|
    ensures forall i :: 0 <= i < |ps| ==>
      ps[i] == Period(table[i].number, "", Timing(table[i]), Loading)
  {
    seq(|table|, i requires 0 <= i < |table| => Period(table[i].number, "", Timing(table[i]), Loading))
  }

  /** Each timing label splits back into the start and end it was built from. */
  lemma TimingSplits(p: PeriodTime)
    requires IsClock(p.start) && IsClock(p.end)
    ensures |Timing(p)| == 13
    ensures Timing(p)[..5] == p.start && Timing(p)[5..8] == " - " && Timing(p)[8..] == p.end
  {
  }

  /** The first `map`: the subject of period n is the string at
      periods/period{n}, or "" when there is none; nothing else changes. */
  function WithSubjects(ps: seq<Period>, store: Store): (r: seq<Period>)
    ensures |r| == |ps|
    ensures forall i :: 0 <= i < |r| ==>
      && r[i].number == ps[i].number && r[i].timing == ps[i].timing
      && r[i].attendanceStatus == ps[i].attendanceStatus
      && r[i].subject == Get(store, SubjectPath(ps[i].number)).GetOr("")
  {
    seq(|ps|, i requires 0 <= i < |ps| =>
      ps[i].(subject := Get(store, SubjectPath(ps[i].number)).GetOr("")))
  }

  /** The second `map`: the status of period n is the string at
      attendance/{today}/period{n}/{uid}/status, or "Pending"; nothing else
      changes. */
  function WithStatuses(ps: seq<Period>, store: Store, today: string, uid: string): (r: seq<Period>)
    ensures |r| == |ps|
    ensures forall i :: 0 <= i < |r| ==>
      && r[i].number == ps[i].number && r[i].timing == ps[i].timing && r[i].subject == ps[i].subject
      && r[i].attendanceStatus == Get(store, StatusPath(today, ps[i].number, uid)).GetOr(Pending)
  {
    seq(|ps|, i requires 0 <= i < |ps| =>
      ps[i].(attendanceStatus := Get(store, StatusPath(today, ps[i].number, uid)).GetOr(Pending)))
  }

  /** The `catch` block: every status becomes "Error", nothing else changes. */
  function WithError(ps: seq<Period>): (r: seq<Period>)
    ensures |r| == |ps|
    ensures forall i :: 0 <= i < |r| ==>
      r[i] == Period(ps[i].number, ps[i].subject, ps[i].timing, Error)
  {
    seq(|ps|, i requires 0 <= i < |ps| => ps[i].(attendanceStatus := Error))
  }

  /** Distinct period numbers read distinct store paths, so no period can
      pick up another period's subject or status. */
  lemma PathsDistinct(m: int, n: int, today: string, uid: string)
    requires m != n
    ensures SubjectPath(m) != SubjectPath(n)
    ensures StatusPath(today, m, uid) != StatusPath(today, n, uid)
  {
    if PeriodKey(m) == PeriodKey(n) {
      assert IntToString(m) == PeriodKey(m)[6..];
      assert IntToString(n) == PeriodKey(n)[6..];
      IntToStringInjective(m, n);
    }
  }

  /** The remote reads either all succeed or one of them throws. */
  datatype Fetch = Failed | Fetched(store: Store)

  class AttendanceScreen {
    var periods: seq<Period>

    constructor ()
      ensures periods == InitialPeriods(PeriodTimings)
    {
      periods := InitialPeriods(PeriodTimings);
    }

    /** The `LaunchedEffect` body: `periods` is replaced wholesale, by the
        filled-in list or, when a read throws, by the old list with every
        status set to "Error". `uid` is `userViewModel.uuid`: when it is
        null the screen returns before launching the effect, and nothing is
        loaded. */
    method Load(fetch: Fetch, today: string, uid: Option<string>)
      modifies this
      ensures uid.None? ==> periods == old(periods)
      ensures uid.Some? && fetch.Fetched? ==>
        periods == WithStatuses(WithSubjects(old(periods), fetch.store), fetch.store, today, uid.value)
      ensures uid.Some? && fetch.Failed? ==> periods == WithError(old(periods))
    {
      if uid.None? {
        return;
      }
      match fetch
      case Fetched(store) =>
        var updatedPeriods := WithSubjects(periods, store);
        var finalPeriods := WithStatuses(updatedPeriods, store, today, uid.value);
        periods := finalPeriods;
      case Failed =>
        periods := WithError(periods);
    }
  }

  /** After one load from the initial list, period i is timetable period i
      with its subject and status read from the store (or their defaults). */
  lemma LoadedFromTimetable(store: Store, today: string, uid: string, i: nat)
    requires i < |PeriodTimings|
    ensures var ps := WithStatuses(WithSubjects(InitialPeriods(PeriodTimings), store), store, today, uid);
      && |ps| == 6
      && ps[i].number == i + 1
      && ps[i].timing == Timing(PeriodTimings[i])
      && ps[i].subject == Get(store, ["periods", "period" + NatToString(i + 1)]).GetOr("")
      && ps[i].attendanceStatus == Get(store, ["attendance", today, "period" + NatToString(i + 1), uid, "status"]).GetOr(Pending)
  {
    TimetableShape();
  }

  // ----- display -----

  /** `Char.isWhitespace()`: Java's whitespace characters and Unicode space
      separators. */
  predicate IsWhitespace(c: char) {
    var k := c as int;
    || (9 <= k <= 13) || (0x1C <= k <= 0x20) || k == 0xA0 || k == 0x1680
    || (0x2000 <= k <= 0x200A) || k == 0x2028 || k == 0x2029 || k == 0x202F
    || k == 0x205F || k == 0x3000
  }

  predicate IsBlank(s: string) {
    forall i :: 0 <= i < |s| ==> IsWhitespace(s[i])
  }

  /** `subject.ifBlank { "No subject assigned" }`. */
  function DisplaySubject(subject: string): (shown: string)
    ensures IsBlank(subject) ==> shown == NoSubject
    ensures !IsBlank(subject) ==> shown == subject
    ensures !IsBlank(shown)
  {
    if IsBlank(subject) then
      assert !IsWhitespace(NoSubject[0]);
      NoSubject
    else subject
  }

  /** The colour the status is drawn in. */
  datatype StatusColor = Green | Red | Yellow | Gray | White

  function LowerChar(c: char): char {
    if 'A' <= c <= 'Z' then (c as int + 32) as char else c
  }

  /** `lowercase()` on the ASCII letters. */
  function Lowercase(s: string): (r: string)
    ensures |r| == |s|
    ensures forall i :: 0 <= i < |s| ==> r[i] == LowerChar(s[i])
  {
    seq(|s|, i requires 0 <= i < |s| => LowerChar(s[i]))
  }

  /** The status is compared after lowercasing: green for "present" and
      "enrolled", red for "absent", yellow for "pending", grey for "error",
      white for anything else. */
  function StatusColorOf(status: string): (c: StatusColor)
    ensures c == Green <==> Lowercase(status) == "present" || Lowercase(status) == "enrolled"
    ensures c == Red <==> Lowercase(status) == "absent"
    ensures c == Yellow <==> Lowercase(status) == "pending"
    ensures c == Gray <==> Lowercase(status) == "error"
  {
    var s := Lowercase(status);
    if s == "present" || s == "enrolled" then Green
    else if s == "absent" then Red
    else if s == "pending" then Yellow
    else if s == "error" then Gray
    else White
  }

  /** The classification ignores letter case. */
  lemma ColorIgnoresCase(s: string, t: string)
    requires Lowercase(s) == Lowercase(t)
    ensures StatusColorOf(s) == StatusColorOf(t)
  {
  }

  lemma LowercaseIdempotent(s: string)
    ensures Lowercase(Lowercase(s)) == Lowercase(s)
  {
  }

  /** The statuses the screen itself writes are drawn in their own colours,
      and the classification is exact: "Present" is green, "presents" is not. */
  lemma StatusColors()
    ensures StatusColorOf(Pending) == Yellow
    ensures StatusColorOf(Error) == Gray
    ensures StatusColorOf(Loading) == White
    ensures StatusColorOf("Present") == Green && StatusColorOf("ENROLLED") == Green
    ensures StatusColorOf("Absent") == Red
    ensures StatusColorOf("presents") == White
  {
    assert Lowercase(Pending) == "pending";
    assert Lowercase(Error) == "error";
    assert Lowercase("Present") == "present";
    assert Lowercase("ENROLLED") == "enrolled";
    assert Lowercase("Absent") == "absent";
    assert Lowercase(Loading) == "loading...";
    assert Lowercase("presents") == "presents";
  }

  /** A failed load draws every period in grey; a period without a stored
      status is drawn in yellow. */
  lemma FailedLoadIsGray(ps: seq<Period>, i: nat)
    requires i < |ps|
    ensures StatusColorOf(WithError(ps)[i].attendanceStatus) == Gray
  {
    StatusColors();
  }

  lemma MissingStatusIsYellow(ps: seq<Period>, store: Store, today: string, uid: string, i: nat)
    requires i < |ps| && StatusPath(today, ps[i].number, uid) !in store
    ensures StatusColorOf(WithStatuses(ps, store, today, uid)[i].attendanceStatus) == Yellow
  {
    StatusColors();
  }
}
