/** The attendance tally of the report screen
    (app/.../ui/report/ReportScreen.kt). The `attendance` snapshot is an
    input: its date children in order, each a sequence of period children,
    each period a map from user id to that user's "status" string (a user
    without a node, or whose node has no status string, is absent from the
    map). */
module Report {
  import opened Wrappers

  type PeriodNode = map<string, string>
  type DateNode = seq<PeriodNode>

  /** Only the exact string "present" counts as present. */
  predicate IsPresent(period: PeriodNode, uid: string) {
    uid in period && period[uid] == "present"
  }

  /** A missing node is absent, and the comparison is case-sensitive:
      "Present" is counted as absent. */
  lemma PresentIsExact(period: PeriodNode, uid: string)
    ensures uid !in period ==> !IsPresent(period, uid)
    ensures IsPresent(period[uid := "present"], uid)
    ensures !IsPresent(period[uid := "Present"], uid) && !IsPresent(period[uid := "absent"], uid)
  {
  }

  /** Present marks among the periods of one date. */
  function PresentInDate(periods: DateNode, uid: string): (n: nat)
    ensures n <= |periods|
  {
    if |periods| == 0 then 0
    else PresentInDate(periods[..|periods| - 1], uid) + (if IsPresent(periods[|periods| - 1], uid) then 1 else 0)
  }

  /** Present marks over all dates. */
  function PresentCount(dates: seq<DateNode>, uid: string): (n: nat)
    ensures n <= PeriodCount(dates)
  {
    if |dates| == 0 then 0
    else PresentCount(dates[..|dates| - 1], uid) + PresentInDate(dates[|dates| - 1], uid)
  }

  /** The number of (date, period) nodes visited. */
  function PeriodCount(dates: seq<DateNode>): nat {
    if |dates| == 0 then 0 else PeriodCount(dates[..|dates| - 1]) + |dates[|dates| - 1]|
  }

  /** The two nested loops of the `LaunchedEffect`: every (date, period) node
      increments exactly one of the two counters. */
  method Tally(dates: seq<DateNode>, uid: string) returns (present: nat, absent: nat)
    ensures present == PresentCount(dates, uid)
    ensures present + absent == PeriodCount(dates)
  {
    present, absent := 0, 0;
    for d := 0 to |dates|
      invariant present == PresentCount(dates[..d], uid)
      invariant present + absent == PeriodCount(dates[..d])
    {
      var periods := dates[d];
      for p := 0 to |periods|
        invariant present == PresentCount(dates[..d], uid) + PresentInDate(periods[..p], uid)
        invariant present + absent == PeriodCount(dates[..d]) + p
      {
        assert periods[..p + 1][..p] == periods[..p];
        if IsPresent(periods[p], uid) {
          present := present + 1;
        } else {
          absent := absent + 1;
        }
      }
      assert periods[..|periods|] == periods;
      assert dates[..d + 1][..d] == dates[..d];
    }
    assert dates[..|dates|] == dates;
  }

  /** `(present * 100) / (present + absent)`, or 0 with nothing counted:
      the whole percentage rounded down. */
  function Percent(present: nat, absent: nat): (p: nat)
    ensures p <= 100
    ensures present + absent > 0 ==> p * (present + absent) <= 100 * present < (p + 1) * (present + absent)
    ensures present + absent == 0 ==> p == 0
    ensures p == 100 <==> absent == 0 && present > 0
  {
    if present + absent > 0 then
      var p := (present * 100) / (present + absent);
      PercentBounds(present, absent, p);
      p
    else 0
  }

  lemma PercentBounds(present: nat, absent: nat, p: nat)
    requires present + absent > 0 && p == (present * 100) / (present + absent)
    ensures p * (present + absent) <= 100 * present < (p + 1) * (present + absent)
    ensures p <= 100
    ensures p == 100 <==> absent == 0
  {
    var t := present + absent;
    var r := (present * 100) % t;
    assert present * 100 == p * t + r && 0 <= r < t;
    assert (p + 1) * t == p * t + t;
    if p > 100 {
      MulMonotone(101, p, t);
      assert false;
    }
    if p == 100 {
      MulMonotone(present, t, 100);
      assert 100 * t <= 100 * present;
    }
    if absent == 0 && p < 100 {
      MulMonotone(p + 1, 100, t);
      assert false;
    }
  }

  lemma MulMonotone(a: nat, b: nat, c: nat)
    requires a <= b
    ensures a * c <= b * c
  {
  }

  /** The remote read either throws or yields the snapshot. */
  datatype Fetch = Failed | Loaded(dates: seq<DateNode>)

  /** The state of the report screen. */
  class ReportScreen {
    var daysPresent: int
    var daysAbsent: int
    var percent: int
    var loading: bool

    constructor ()
      ensures daysPresent == 0 && daysAbsent == 0 && percent == 0 && loading
    {
      daysPresent, daysAbsent, percent, loading := 0, 0, 0, true;
    }

    /** The `LaunchedEffect(uid)` body: `loading` is false afterwards on
        every path, because the `finally` block resets it; when the read
        throws, the counters keep their old values. `uid` is
        `userViewModel.uuid`: when it is null the screen returns before the
        effect is launched, and nothing changes. */
    method Refresh(fetch: Fetch, uid: Option<string>)
      modifies this
      ensures uid.None? ==>
        && daysPresent == old(daysPresent) && daysAbsent == old(daysAbsent)
        && percent == old(percent) && loading == old(loading)
      ensures uid.Some? ==> !loading
      ensures uid.Some? && fetch.Failed? ==>
        daysPresent == old(daysPresent) && daysAbsent == old(daysAbsent) && percent == old(percent)
      ensures uid.Some? && fetch.Loaded? ==>
        && daysPresent == PresentCount(fetch.dates, uid.value)
        && daysPresent + daysAbsent == PeriodCount(fetch.dates)
        && percent == Percent(daysPresent, daysAbsent)
    {
      if uid.None? {
        return;
      }
      loading := true;
      if fetch.Loaded? {
        var presentCount, absentCount := Tally(fetch.dates, uid.value);
        daysPresent := presentCount;
        daysAbsent := absentCount;
        percent := Percent(presentCount, absentCount);
      }
      loading := false;
    }
  }
}
