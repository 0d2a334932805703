/** The time tracker of src/app/dashboard/time/page.tsx: a start/stop timer over a list
    of entries, the hours/minutes/seconds display of a duration, today's and this week's
    totals, and the seven per-day bars of the current week. Times are integer epoch
    milliseconds; `Date.now()`, `crypto.randomUUID()`, local midnight today and local
    midnight on Monday are passed in. */
module TimeTracker {
  import opened Common

  datatype TimerEntry = TimerEntry(
    id: string,
    project: string,
    task: string,
    startedAt: int,
    stoppedAt: Option<int>)

  const DayMs: int := 24 * 3600 * 1000

  // ---------------------------------------------------------------- durations

  /** JavaScript's `%` on integers: the remainder has the sign of the dividend. */
  function JsRem(a: int, b: int): (r: int)
    requires b > 0
    ensures a >= 0 ==> r == a % b
  {
    if a >= 0 then a % b else -((-a) % b)
  }

  datatype Hms = Hms(h: int, m: int, s: int)

  /** The parts `formatDuration` prints. `Math.floor(x / k)` for a positive `k` is Dafny's
      `x / k`. For a non-negative duration they are whole hours, minutes below 60 and
      seconds below 60 that make up the whole seconds of `ms`. */
  function DurationParts(ms: int): (d: Hms)
    ensures ms >= 0 ==> d.h >= 0 && 0 <= d.m < 60 && 0 <= d.s < 60
    ensures ms >= 0 ==> d.h * 3600 + d.m * 60 + d.s == ms / 1000
  {
    var totalSeconds := ms / 1000;
    var h := totalSeconds / 3600;
    var m := JsRem(totalSeconds, 3600) / 60;
    var s := JsRem(totalSeconds, 60);
    if ms >= 0 then
      SecondsSplit(totalSeconds);
      Hms(h, m, s)
    else Hms(h, m, s)
  }

  lemma SecondsSplit(t: nat)
    ensures (t / 3600) * 3600 + ((t % 3600) / 60) * 60 + t % 60 == t
    ensures 0 <= (t % 3600) / 60 < 60
  {
    var q, r := t / 3600, t % 3600;
    assert t == q * 3600 + r;
    assert r == (r / 60) * 60 + r % 60;
    assert t % 60 == r % 60 by {
      assert t == (q * 60 + r / 60) * 60 + r % 60;
    }
  }

  /** `formatDuration`: "<h>h <m>m <s>s". */
  function FormatDuration(ms: int): string
  {
    var d := DurationParts(ms);
    IntToDecimal(d.h) + "h " + IntToDecimal(d.m) + "m " + IntToDecimal(d.s) + "s"
  }

  /** 1h 1m 1s: 3,661,999 ms has 3,661 whole seconds. */
  lemma FormatDurationExample()
    ensures FormatDuration(3661999) == "1h 1m 1s"
  {
    assert DurationParts(3661999) == Hms(1, 1, 1);
  }

  // ---------------------------------------------------------------- timer state

  /** At most one entry has no `stoppedAt`, and if one has none it is the running one. */
  predicate AtMostOneRunning(entries: seq<TimerEntry>, runningId: Option<string>)
  {
    (forall i :: 0 <= i < |entries| && entries[i].stoppedAt.None? ==> runningId == Some(entries[i].id)) &&
    (forall i, j ::
       (0 <= i < |entries| && 0 <= j < |entries| &&
        entries[i].stoppedAt.None? && entries[j].stoppedAt.None?) ==> i == j)
  }

  /** `e.map((x) => (x.id === runningId ? { ...x, stoppedAt: now } : x))`. */
  function StopEntries(entries: seq<TimerEntry>, id: string, now: int): seq<TimerEntry>
  {
    seq(|entries|, i requires 0 <= i < |entries| =>
      if entries[i].id == id then entries[i].(stoppedAt := Some(now)) else entries[i])
  }

  /** Starting while nothing runs: the new entry is the only one running. */
  lemma StartKeepsOneRunning(entries: seq<TimerEntry>, e: TimerEntry)
    requires AtMostOneRunning(entries, None) && e.stoppedAt.None?
    ensures AtMostOneRunning([e] + entries, Some(e.id))
  {
    var es := [e] + entries;
    forall i | 0 < i < |es|
      ensures es[i].stoppedAt.Some?
    {
      assert es[i] == entries[i - 1];
    }
  }

  /** Stopping stamps every entry with the running id and no other, and leaves nothing
      running. */
  lemma StopLeavesNoneRunning(entries: seq<TimerEntry>, id: string, now: int)
    requires AtMostOneRunning(entries, Some(id))
    ensures |StopEntries(entries, id, now)| == |entries|
    ensures forall i :: 0 <= i < |entries| && entries[i].id != id ==> StopEntries(entries, id, now)[i] == entries[i]
    ensures forall i :: 0 <= i < |entries| && entries[i].id == id ==>
      StopEntries(entries, id, now)[i] == entries[i].(stoppedAt := Some(now))
    ensures AtMostOneRunning(StopEntries(entries, id, now), None)
  {
  }

  /** The page's state. `runningId` is null or a UUID, never the empty string, so its
      truthiness is `Some?`. */
  class TimeTrackerPage {
    var project: string
    var task: string
    var entries: seq<TimerEntry>
    var runningId: Option<string>

    ghost predicate Valid()
      reads this
    {
      AtMostOneRunning(entries, runningId)
    }

    constructor ()
      ensures Valid()
      ensures project == "General" && task == "" && entries == [] && runningId == None
    {
      project := "General";
      task := "";
      entries := [];
      runningId := None;
    }

    /** `startTimer`, with `crypto.randomUUID()` as `id` and `Date.now()` as `now`. */
    method StartTimer(id: string, now: int)
      requires Valid()
      modifies this`entries, this`runningId
      ensures Valid()
      ensures old(runningId).Some? ==> entries == old(entries) && runningId == old(runningId)
      ensures old(runningId).None? ==>
        entries == [TimerEntry(id, project, task, now, None)] + old(entries) && runningId == Some(id)
    {
      if runningId.Some? {
        return;
      }
      var e := TimerEntry(id, project, task, now, None);
      StartKeepsOneRunning(entries, e);
      entries := [e] + entries;
      runningId := Some(id);
    }

    /** `stopTimer`, with `Date.now()` as `now`. */
    method StopTimer(now: int)
      requires Valid()
      modifies this`entries, this`runningId
      ensures Valid()
      ensures old(runningId).None? ==> entries == old(entries) && runningId == None
      ensures old(runningId).Some? ==>
        entries == StopEntries(old(entries), old(runningId).value, now) && runningId == None
      ensures forall i :: 0 <= i < |entries| ==> entries[i].stoppedAt.Some?
    {
      if runningId.None? {
        return;
      }
      StopLeavesNoneRunning(entries, runningId.value, now);
      entries := StopEntries(entries, runningId.value, now);
      runningId := None;
    }
  }

  // ---------------------------------------------------------------- daily and weekly totals

  /** `stoppedAt ?? Date.now()`: a running entry runs until now. */
  function End(e: TimerEntry, now: int): int
  {
    match e.stoppedAt
    case Some(t) => t
    case None => now
  }

  /** `Math.max(0, end - startedAt)`. */
  function Elapsed(e: TimerEntry, now: int): int
  {
    MaxInt(0, End(e, now) - e.startedAt)
  }

  /** The `dayMs` and `weeklyMs` reduces: the time of every entry started at or after
      `since`. It is never negative. */
  function TrackedSince(entries: seq<TimerEntry>, since: int, now: int): (total: int)
    ensures total >= 0
  {
    if entries == [] then 0
    else
      var e := entries[|entries| - 1];
      var sum := TrackedSince(entries[..|entries| - 1], since, now);
      if e.startedAt < since then sum else sum + Elapsed(e, now)
  }

  lemma {:induction false} TrackedSinceAppend(xs: seq<TimerEntry>, ys: seq<TimerEntry>, since: int, now: int)
    ensures TrackedSince(xs + ys, since, now) == TrackedSince(xs, since, now) + TrackedSince(ys, since, now)
    decreases |ys|
  {
    if ys == [] {
      assert xs + ys == xs;
    } else {
      var init := ys[..|ys| - 1];
      assert (xs + ys)[..|xs + ys| - 1] == xs + init;
      TrackedSinceAppend(xs, init, since, now);
    }
  }

  /** An entry started before the cut-off adds nothing, wherever it stands in the list. */
  lemma EarlierEntryIgnored(xs: seq<TimerEntry>, e: TimerEntry, ys: seq<TimerEntry>, since: int, now: int)
    requires e.startedAt < since
    ensures TrackedSince(xs + [e] + ys, since, now) == TrackedSince(xs + ys, since, now)
  {
    TrackedSinceAppend(xs + [e], ys, since, now);
    TrackedSinceAppend(xs, [e], since, now);
    TrackedSinceAppend(xs, ys, since, now);
    assert [e][..0] == [];
  }

  /** A later cut-off never counts more: today's total is at most this week's. */
  lemma {:induction false} LaterCutOffCountsLess(entries: seq<TimerEntry>, early: int, late: int, now: int)
    requires early <= late
    ensures TrackedSince(entries, late, now) <= TrackedSince(entries, early, now)
    decreases |entries|
  {
    if entries != [] {
      LaterCutOffCountsLess(entries[..|entries| - 1], early, late, now);
    }
  }

  // ---------------------------------------------------------------- week bars

  /** `Math.floor((startedAt - monday) / day)`: the weekday bucket, Monday = 0. */
  function DayIndex(startedAt: int, monday: int): int
  {
    (startedAt - monday) / DayMs
  }

  /** The time of the entries started on day `k` of the week. */
  function BucketMs(entries: seq<TimerEntry>, monday: int, now: int, k: int): (total: int)
    ensures total >= 0
  {
    if entries == [] then 0
    else
      var e := entries[|entries| - 1];
      var sum := BucketMs(entries[..|entries| - 1], monday, now, k);
      if DayIndex(e.startedAt, monday) == k then sum + Elapsed(e, now) else sum
  }

  /** The first `n` buckets added up. */
  function FirstBuckets(entries: seq<TimerEntry>, monday: int, now: int, n: nat): int
  {
    if n == 0 then 0 else FirstBuckets(entries, monday, now, n - 1) + BucketMs(entries, monday, now, n - 1)
  }

  lemma {:induction false} FirstBucketsSnoc(entries: seq<TimerEntry>, e: TimerEntry, monday: int, now: int, n: nat)
    requires entries != [] && e == entries[|entries| - 1]
    ensures FirstBuckets(entries, monday, now, n) ==
      FirstBuckets(entries[..|entries| - 1], monday, now, n) +
      (if 0 <= DayIndex(e.startedAt, monday) < n then Elapsed(e, now) else 0)
  {
    if n > 0 {
      FirstBucketsSnoc(entries, e, monday, now, n - 1);
    }
  }

  lemma {:induction false} NoEntriesNoBars(monday: int, now: int, n: nat)
    ensures FirstBuckets([], monday, now, n) == 0
  {
    if n > 0 {
      NoEntriesNoBars(monday, now, n - 1);
    }
  }

  /** The seven bars split this week's total: every entry started from Monday on lands in
      exactly one bar, unless it started a week or more after Monday. */
  lemma {:induction false} BarsSplitWeeklyTotal(entries: seq<TimerEntry>, monday: int, now: int)
    ensures FirstBuckets(entries, monday, now, 7) + TrackedSince(entries, monday + 7 * DayMs, now) ==
      TrackedSince(entries, monday, now)
    decreases |entries|
  {
    if entries == [] {
      NoEntriesNoBars(monday, now, 7);
    } else {
      var e := entries[|entries| - 1];
      BarsSplitWeeklyTotal(entries[..|entries| - 1], monday, now);
      FirstBucketsSnoc(entries, e, monday, now, 7);
      var d := e.startedAt - monday;
      var inWeek := 0 <= DayIndex(e.startedAt, monday) < 7;
      assert inWeek <==> 0 <= d < 7 * DayMs by {
        if 0 <= d < 7 * DayMs {
          assert 0 <= d / DayMs;
          assert d / DayMs < 7;
        }
        if d < 0 {
          assert d / DayMs < 0;
        }
        if d >= 7 * DayMs {
          assert d / DayMs >= 7;
        }
      }
      var init := entries[..|entries| - 1];
      assert TrackedSince(entries, monday, now) ==
        TrackedSince(init, monday, now) + (if d < 0 then 0 else Elapsed(e, now));
      assert TrackedSince(entries, monday + 7 * DayMs, now) ==
        TrackedSince(init, monday + 7 * DayMs, now) + (if d < 7 * DayMs then 0 else Elapsed(e, now));
    }
  }

  /** The `weekBars` loop as written: a seven-slot array filled in place, each entry added
      to the slot of the day it started on when that day is in this week. */
  method WeekBars(entries: seq<TimerEntry>, monday: int, now: int) returns (dayMs: array<int>)
    ensures fresh(dayMs) && dayMs.Length == 7
    ensures forall k :: 0 <= k < 7 ==> dayMs[k] == BucketMs(entries, monday, now, k) && dayMs[k] >= 0
  {
    dayMs := new int[7](_ => 0);
    for i := 0 to |entries|
      invariant forall k :: 0 <= k < 7 ==> dayMs[k] == BucketMs(entries[..i], monday, now, k)
    {
      assert entries[..i + 1][..i] == entries[..i];
      var e := entries[i];
      var idx := DayIndex(e.startedAt, monday);
      if 0 <= idx < 7 {
        dayMs[idx] := dayMs[idx] + Elapsed(e, now);
      }
    }
    assert entries[..|entries|] == entries;
  }
}
