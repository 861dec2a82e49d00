/** agent/scheduler.go: the last-run stamps that decide which background jobs a tick starts. */
module Scheduler {
  import opened Options

  /** The Central-Time calendar, as far as the scheduler reads it: the day and the hour of an instant
      (instants in nanoseconds since the Unix epoch). */
  datatype Calendar = Calendar(day: int -> int, hour: int -> int)

  /** Local days never run backwards; local hours may (the clock is set back in autumn). */
  ghost predicate Proper(cal: Calendar) {
    && (forall a, b :: a <= b ==> cal.day(a) <= cal.day(b))
    && (forall a :: 0 <= cal.hour(a) < 24)
  }

  const HOUR := 3_600_000_000_000
  const REPORT_HOUR := 21
  /** time.Time{}: midnight of 1 January of year 1. */
  const ZERO_TIME := -62_135_596_800_000_000_000

  datatype Stamps = Stamps(lastReportDay: Option<int>, lastCheckAt: int, lastCleanupHour: int)
  datatype Jobs = Jobs(daily: bool, cleanup: bool, risk: bool)

  const FRESH := Stamps(None, ZERO_TIME, -1)

  function Due(cal: Calendar, st: Stamps, now: int): Jobs {
    Jobs(cal.hour(now) >= REPORT_HOUR && st.lastReportDay != Some(cal.day(now)),
         cal.hour(now) != st.lastCleanupHour,
         now - st.lastCheckAt > 4 * HOUR)
  }

  function Stamped(cal: Calendar, st: Stamps, now: int): Stamps {
    var due := Due(cal, st, now);
    Stamps(if due.daily then Some(cal.day(now)) else st.lastReportDay,
           if due.risk then now else st.lastCheckAt,
           if due.cleanup then cal.hour(now) else st.lastCleanupHour)
  }

  class SchedulerStamps {
    var lastReportDay: Option<int>
    var lastCheckAt: int
    var lastCleanupHour: int

    ghost function Value(): Stamps
      reads this
    {
      Stamps(lastReportDay, lastCheckAt, lastCleanupHour)
    }

    constructor ()
      ensures Value() == FRESH
    {
      lastReportDay, lastCheckAt, lastCleanupHour := None, ZERO_TIME, -1;
    }

    /** schedulerStep */
    method Step(cal: Calendar, now: int) returns (daily: bool, cleanup: bool, risk: bool)
      modifies this
      ensures Jobs(daily, cleanup, risk) == Due(cal, old(Value()), now)
      ensures Value() == Stamped(cal, old(Value()), now)
    {
      daily, cleanup, risk := false, false, false;
      var day := cal.day(now);
      if cal.hour(now) >= REPORT_HOUR && lastReportDay != Some(day) {
        daily := true;
        lastReportDay := Some(day);
      }
      if now - lastCheckAt > 4 * HOUR {
        risk := true;
        lastCheckAt := now;
      }
      if cal.hour(now) != lastCleanupHour {
        cleanup := true;
        lastCleanupHour := cal.hour(now);
      }
    }

    /** The tick loop of Start, over the ticks that arrive before it is stopped. */
    method Start(cal: Calendar, ticks: seq<int>) returns (jobs: seq<Jobs>)
      requires Value() == FRESH
      modifies this
      ensures |jobs| == |ticks|
      ensures forall i :: 0 <= i < |ticks| ==> jobs[i] == JobsAt(cal, ticks, i)
    {
      jobs := [];
      for i := 0 to |ticks|
        invariant |jobs| == i && Value() == After(cal, ticks, i)
        invariant forall k :: 0 <= k < i ==> jobs[k] == JobsAt(cal, ticks, k)
      {
        var daily, cleanup, risk := Step(cal, ticks[i]);
        jobs := jobs + [Jobs(daily, cleanup, risk)];
      }
    }
  }

  /** The stamps after the first `n` ticks. */
  function After(cal: Calendar, ticks: seq<int>, n: nat): Stamps
    requires n <= |ticks|
  {
    if n == 0 then FRESH else Stamped(cal, After(cal, ticks, n - 1), ticks[n - 1])
  }

  function JobsAt(cal: Calendar, ticks: seq<int>, i: nat): Jobs
    requires i < |ticks|
  {
    Due(cal, After(cal, ticks, i), ticks[i])
  }

  predicate NonDecreasing(ticks: seq<int>) {
    forall i, j :: 0 <= i <= j < |ticks| ==> ticks[i] <= ticks[j]
  }

  // ---- Daily report ----

  predicate ReportTick(cal: Calendar, now: int) {
    cal.hour(now) >= REPORT_HOUR
  }

  /** The report stamp is the day of the last tick at or after 21:00, if there was one. */
  lemma {:induction false} ReportStamp(cal: Calendar, ticks: seq<int>, n: nat)
    requires n <= |ticks|
    ensures var stamp := After(cal, ticks, n).lastReportDay;
            || (stamp == None && forall k :: 0 <= k < n ==> !ReportTick(cal, ticks[k]))
            || exists k :: 0 <= k < n && ReportTick(cal, ticks[k]) && stamp == Some(cal.day(ticks[k]))
                           && forall m :: k < m < n ==> !ReportTick(cal, ticks[m])
  {
    if n > 0 {
      ReportStamp(cal, ticks, n - 1);
      if ReportTick(cal, ticks[n - 1]) {
        assert After(cal, ticks, n).lastReportDay == Some(cal.day(ticks[n - 1]));
      } else if After(cal, ticks, n - 1).lastReportDay != None {
        var k :| 0 <= k < n - 1 && ReportTick(cal, ticks[k])
                 && After(cal, ticks, n - 1).lastReportDay == Some(cal.day(ticks[k]))
                 && forall m :: k < m < n - 1 ==> !ReportTick(cal, ticks[m]);
        assert forall m :: k < m < n ==> !ReportTick(cal, ticks[m]);
      }
    }
  }

  /** A tick starts the report exactly when it is the first one at or after 21:00 on its day. */
  lemma {:induction false} ReportOncePerDay(cal: Calendar, ticks: seq<int>, i: nat)
    requires Proper(cal) && NonDecreasing(ticks) && i < |ticks|
    ensures JobsAt(cal, ticks, i).daily <==>
            && ReportTick(cal, ticks[i])
            && forall k :: 0 <= k < i && ReportTick(cal, ticks[k]) ==> cal.day(ticks[k]) != cal.day(ticks[i])
  {
    ReportStamp(cal, ticks, i);
    var stamp := After(cal, ticks, i).lastReportDay;
    if stamp != None {
      var last :| 0 <= last < i && ReportTick(cal, ticks[last]) && stamp == Some(cal.day(ticks[last]))
                  && forall m :: last < m < i ==> !ReportTick(cal, ticks[m]);
      forall k | 0 <= k < i && ReportTick(cal, ticks[k]) && cal.day(ticks[k]) == cal.day(ticks[i])
        ensures cal.day(ticks[last]) == cal.day(ticks[i])
      {
        assert k <= last;
        assert cal.day(ticks[k]) <= cal.day(ticks[last]) <= cal.day(ticks[i]);
      }
    }
  }

  function ReportDays(cal: Calendar, ticks: seq<int>, n: nat): set<int>
    requires n <= |ticks|
  {
    set k | 0 <= k < n && ReportTick(cal, ticks[k]) :: cal.day(ticks[k])
  }

  function ReportCount(cal: Calendar, ticks: seq<int>, n: nat): nat
    requires n <= |ticks|
  {
    if n == 0 then 0
    else ReportCount(cal, ticks, n - 1) + if JobsAt(cal, ticks, n - 1).daily then 1 else 0
  }

  /** As many reports as days with a tick at or after 21:00: none missed by a pause, none repeated. */
  lemma {:induction false} ReportsMatchDays(cal: Calendar, ticks: seq<int>, n: nat)
    requires Proper(cal) && NonDecreasing(ticks) && n <= |ticks|
    ensures ReportCount(cal, ticks, n) == |ReportDays(cal, ticks, n)|
  {
    if n > 0 {
      ReportsMatchDays(cal, ticks, n - 1);
      ReportIsNewDay(cal, ticks, n);
      NextReportDays(cal, ticks, n);
      hide ReportDays, JobsAt, ReportTick;
    }
  }

  lemma {:induction false} ReportIsNewDay(cal: Calendar, ticks: seq<int>, n: nat)
    requires Proper(cal) && NonDecreasing(ticks) && 0 < n <= |ticks|
    ensures JobsAt(cal, ticks, n - 1).daily
            <==> ReportTick(cal, ticks[n - 1]) && cal.day(ticks[n - 1]) !in ReportDays(cal, ticks, n - 1)
  {
    hide JobsAt, ReportTick, Proper, NonDecreasing;
    ReportOncePerDay(cal, ticks, n - 1);
  }

  lemma {:induction false} NextReportDays(cal: Calendar, ticks: seq<int>, n: nat)
    requires 0 < n <= |ticks|
    ensures var days, day := ReportDays(cal, ticks, n - 1), cal.day(ticks[n - 1]);
            && ReportDays(cal, ticks, n) == (if ReportTick(cal, ticks[n - 1]) then days + {day} else days)
            && (day in days <==> exists k :: 0 <= k < n - 1 && ReportTick(cal, ticks[k]) && cal.day(ticks[k]) == day)
            && |days + {day}| == |days| + (if day in days then 0 else 1)
  {
    hide ReportTick;
    var days, day := ReportDays(cal, ticks, n - 1), cal.day(ticks[n - 1]);
    assert day in days ==> days + {day} == days;
  }

  // ---- Risk check ----

  /** Of the first `n` ticks, `k` is the last one that started a risk check, and the stamp says so. */
  predicate LastCheck(cal: Calendar, ticks: seq<int>, n: nat, k: nat)
    requires n <= |ticks|
  {
    && k < n && JobsAt(cal, ticks, k).risk && After(cal, ticks, n).lastCheckAt == ticks[k]
    && forall m :: k < m < n ==> !JobsAt(cal, ticks, m).risk
  }

  lemma {:induction false} CheckStamp(cal: Calendar, ticks: seq<int>, n: nat) returns (k: nat)
    requires 0 < n <= |ticks|
    requires ticks[0] - ZERO_TIME > 4 * HOUR
    ensures LastCheck(cal, ticks, n, k)
  {
    if JobsAt(cal, ticks, n - 1).risk {
      k := n - 1;
    } else {
      FirstChecks(cal, ticks);
      k := CheckStamp(cal, ticks, n - 1);
    }
  }

  lemma {:induction false} FirstChecks(cal: Calendar, ticks: seq<int>)
    requires ticks != [] && ticks[0] - ZERO_TIME > 4 * HOUR
    ensures JobsAt(cal, ticks, 0).risk
  {
    assert After(cal, ticks, 0).lastCheckAt == ZERO_TIME;
  }

  /** Two risk checks are more than four hours apart, the first tick starts one, and after any tick the
      last one is at most four hours old. */
  lemma {:induction false} RiskCadence(cal: Calendar, ticks: seq<int>, i: nat)
    requires NonDecreasing(ticks) && i < |ticks| && ticks[0] - ZERO_TIME > 4 * HOUR
    ensures forall k :: 0 <= k < i && JobsAt(cal, ticks, k).risk && JobsAt(cal, ticks, i).risk
                        ==> ticks[i] - ticks[k] > 4 * HOUR
    ensures JobsAt(cal, ticks, 0).risk
    ensures exists k :: 0 <= k <= i && JobsAt(cal, ticks, k).risk && ticks[i] - ticks[k] <= 4 * HOUR
  {
    FirstChecks(cal, ticks);
    if i > 0 {
      var last := CheckStamp(cal, ticks, i);
      forall k | 0 <= k < i && JobsAt(cal, ticks, k).risk && JobsAt(cal, ticks, i).risk
        ensures ticks[i] - ticks[k] > 4 * HOUR
      {
        assert k <= last;
      }
    }
    if JobsAt(cal, ticks, i).risk {
      assert ticks[i] - ticks[i] <= 4 * HOUR;
    }
  }

  // ---- Cleanup ----

  lemma {:induction false} CleanupStamp(cal: Calendar, ticks: seq<int>, n: nat)
    requires 0 < n <= |ticks|
    ensures After(cal, ticks, n).lastCleanupHour == cal.hour(ticks[n - 1])
  {
  }

  /** Cleanup runs on the first tick and whenever the hour differs from that of the tick before. */
  lemma {:induction false} CleanupOnHourChange(cal: Calendar, ticks: seq<int>, i: nat)
    requires Proper(cal) && i < |ticks|
    ensures JobsAt(cal, ticks, i).cleanup <==> i == 0 || cal.hour(ticks[i]) != cal.hour(ticks[i - 1])
  {
    if i > 0 {
      CleanupStamp(cal, ticks, i);
    } else {
      assert After(cal, ticks, 0).lastCleanupHour == -1;
    }
  }

  const UTC := Calendar((t: int) => t / (24 * HOUR), (t: int) => t / HOUR % 24)

  /** The stamp holds the hour without its day, so a pause of whole days skips the catch-up cleanup. */
  lemma {:induction false} CleanupSkipsWholeDays(days: nat)
    ensures !JobsAt(UTC, [0, days * 24 * HOUR], 1).cleanup
  {
    var ticks := [0, days * 24 * HOUR];
    CleanupStamp(UTC, ticks, 1);
    assert UTC.hour(ticks[1]) == 0 by {
      assert days * 24 * HOUR / HOUR == days * 24;
      assert days * 24 % 24 == 0;
    }
  }
}
