/** How often the map is read for the position, and how long a reading may be used. */
module MapPosition {
  import opened Common

  const OFFICIAL_MIN_INTERVAL := 30.0
  const MAX_POLL_INTERVAL := 300
  const MAX_AGE_INTERVALS := 2.0

  datatype Intervals = Intervals(active: real, idle: real)

  function DefaultIntervals(official: bool): Intervals
  {
    if official then Intervals(60.0, 300.0) else Intervals(5.0, 60.0)
  }

  /** The stored option is None when it is absent or not a whole number. */
  function ResolveIntervals(option: Option<int>, official: bool): (r: Intervals)
    ensures 0.0 < r.active <= r.idle
    ensures official ==> r.active >= OFFICIAL_MIN_INTERVAL
  {
    if option.None? || option.value <= 0 then DefaultIntervals(official)
    else
      var seconds := (if option.value < MAX_POLL_INTERVAL then option.value else MAX_POLL_INTERVAL) as real;
      var active := if official then Max(seconds, OFFICIAL_MIN_INTERVAL) else seconds;
      Intervals(active, Max(active * 6.0, 60.0))
  }

  predicate ShouldRefresh(now: real, lastAttempt: Option<real>, taskActive: bool, intervals: Intervals)
  {
    lastAttempt.None? || now - lastAttempt.value >= if taskActive then intervals.active else intervals.idle
  }

  predicate IsFresh(now: real, positionTime: Option<real>, taskActive: bool, active: real)
  {
    !taskActive || (positionTime.Some? && now - positionTime.value <= active * MAX_AGE_INTERVALS)
  }

  // -- the coordinator's schedule ---------------------------------------------

  /** What can happen to the schedule. A poll decides at `now` and stamps its read a little later. */
  datatype Occurrence =
    | Poll(now: real, stamp: real, taskActive: bool, option: Option<int>)
    | ReadDone(now: real, success: bool)
    | FullUpdate(now: real)
    | OnDemandRead(now: real)

  datatype Schedule = Schedule(lastAttempt: Option<real>, lastUpdate: Option<real>, reading: bool, starts: seq<real>)

  const UNSCHEDULED := Schedule(None, None, false, [])

  predicate Starts(official: bool, s: Schedule, e: Occurrence)
  {
    && e.Poll?
    && ShouldRefresh(e.now, s.lastAttempt, e.taskActive, ResolveIntervals(e.option, official))
    && !s.reading
  }

  function After(official: bool, s: Schedule, e: Occurrence): Schedule
  {
    match e
    case Poll(now, stamp, _, _) =>
      if !Starts(official, s, e) then s
      else s.(lastAttempt := Some(stamp), reading := true, starts := s.starts + [stamp])
    case ReadDone(now, success) =>
      if !s.reading then s
      else s.(reading := false, lastUpdate := if success then Some(now) else s.lastUpdate)
    case FullUpdate(now) => s.(lastUpdate := Some(now), lastAttempt := Some(now))
    case OnDemandRead(now) => s.(lastUpdate := Some(now))
  }

  function Run(official: bool, h: seq<Occurrence>): Schedule
  {
    if h == [] then UNSCHEDULED else After(official, Run(official, h[..|h| - 1]), h[|h| - 1])
  }

  /** The part of the coordinator that schedules background reads; `starts` records when they began. */
  class Coordinator {
    const official: bool
    var lastMapPositionAttempt: Option<real>
    var lastMapPositionUpdate: Option<real>
    var mapPositionTaskRunning: bool
    ghost var starts: seq<real>

    ghost function State(): Schedule
      reads this
    {
      Schedule(lastMapPositionAttempt, lastMapPositionUpdate, mapPositionTaskRunning, starts)
    }

    constructor (official: bool)
      ensures this.official == official && State() == UNSCHEDULED
    {
      this.official := official;
      lastMapPositionAttempt, lastMapPositionUpdate, mapPositionTaskRunning := None, None, false;
      starts := [];
    }

    method ScheduleMapPositionUpdate(now: real, stamp: real, taskActive: bool, option: Option<int>)
      modifies this
      ensures State() == After(official, old(State()), Poll(now, stamp, taskActive, option))
    {
      if !ShouldRefresh(now, lastMapPositionAttempt, taskActive, ResolveIntervals(option, official)) {
        return;
      }
      if mapPositionTaskRunning {
        return;
      }
      lastMapPositionAttempt := Some(stamp);
      mapPositionTaskRunning := true;
      starts := starts + [stamp];
    }

    method FinishMapPositionUpdate(now: real, success: bool)
      requires mapPositionTaskRunning
      modifies this
      ensures State() == After(official, old(State()), ReadDone(now, success))
    {
      if success {
        lastMapPositionUpdate := Some(now);
      }
      mapPositionTaskRunning := false;
    }

    method UpdateMap(now: real)
      modifies this
      ensures State() == After(official, old(State()), FullUpdate(now))
    {
      lastMapPositionUpdate := Some(now);
      lastMapPositionAttempt := Some(now);
    }

    method NoteMapPositionSample(now: real)
      modifies this
      ensures State() == After(official, old(State()), OnDemandRead(now))
    {
      lastMapPositionUpdate := Some(now);
    }

    method IsMapPositionFresh(now: real, taskActive: bool, option: Option<int>) returns (isFresh: bool)
      ensures isFresh == IsFresh(now, State().lastUpdate, taskActive, ResolveIntervals(option, official).active)
      ensures isFresh && taskActive ==>
                && State().lastUpdate.Some?
                && now - State().lastUpdate.value <= 2.0 * ResolveIntervals(option, official).active
    {
      var maxAge := ResolveIntervals(option, official).active * MAX_AGE_INTERVALS;
      isFresh := !taskActive || (lastMapPositionUpdate != None && now - lastMapPositionUpdate.value <= maxAge);
    }
  }

  // -- the polling budget -----------------------------------------------------

  /** Times do not go back, and a read is stamped between its own poll and the next occurrence. */
  predicate Ordered(h: seq<Occurrence>)
  {
    && (forall i, j :: 0 <= i < j < |h| ==> h[i].now <= h[j].now && (h[i].Poll? ==> h[i].stamp <= h[j].now))
    && (forall i :: 0 <= i < |h| && h[i].Poll? ==> h[i].now <= h[i].stamp)
  }

  predicate Spaced(starts: seq<real>)
  {
    forall k :: 0 < k < |starts| ==> starts[k] - starts[k - 1] >= OFFICIAL_MIN_INTERVAL
  }

  /** Background reads so far are spaced, and the last attempt is no earlier than the last of them. */
  predicate Distanced(s: Schedule)
  {
    && Spaced(s.starts)
    && (s.starts != [] ==> s.lastAttempt.Some? && s.starts[|s.starts| - 1] <= s.lastAttempt.value)
  }

  /** When the effect of an occurrence on the schedule is stamped. */
  function StampOf(e: Occurrence): real
  {
    if e.Poll? then e.stamp else e.now
  }

  lemma StepKeepsDistance(s: Schedule, e: Occurrence)
    requires Distanced(s) && e.now <= StampOf(e)
    requires s.lastAttempt.Some? ==> s.lastAttempt.value <= e.now
    ensures Distanced(After(true, s, e))
    ensures After(true, s, e).lastAttempt == s.lastAttempt || After(true, s, e).lastAttempt == Some(StampOf(e))
  {
  }

  lemma {:induction false} AttemptsAreStamps(h: seq<Occurrence>)
    requires Ordered(h) && Run(true, h).lastAttempt.Some?
    ensures exists k :: 0 <= k < |h| && Run(true, h).lastAttempt.value == StampOf(h[k])
  {
    var n := |h| - 1;
    var g := h[..n];
    if Run(true, h).lastAttempt == Run(true, g).lastAttempt {
      AttemptsAreStamps(g);
      var k :| 0 <= k < n && Run(true, g).lastAttempt.value == StampOf(g[k]);
      assert h[k] == g[k];
    } else {
      assert Run(true, h).lastAttempt.value == StampOf(h[n]);
    }
  }

  /** Background reads against the official cloud start at least its minimum interval apart, in every run. */
  lemma {:induction false} ScheduleKeepsDistance(h: seq<Occurrence>)
    requires Ordered(h)
    ensures Distanced(Run(true, h))
  {
    if h != [] {
      var n := |h| - 1;
      var g := h[..n];
      ScheduleKeepsDistance(g);
      if Run(true, g).lastAttempt.Some? {
        AttemptsAreStamps(g);
        var k :| 0 <= k < n && Run(true, g).lastAttempt.value == StampOf(g[k]);
        assert StampOf(h[k]) <= h[n].now;
      }
      StepKeepsDistance(Run(true, g), h[n]);
      hide After, Distanced;
    }
  }

  lemma {:induction false} SpacingAddsUp(starts: seq<real>, i: nat, j: nat)
    requires Spaced(starts) && i <= j < |starts|
    ensures starts[j] - starts[i] >= (j - i) as real * OFFICIAL_MIN_INTERVAL
    decreases j - i
  {
    if i < j {
      SpacingAddsUp(starts, i, j - 1);
    }
  }

  /**
   Against the official cloud, whatever the option says and whatever happens in between: if reads number
   `i` to `j` all start within `period` seconds, they are at most `period / 30 + 1`.
   */
  lemma OfficialCloudIsSpared(h: seq<Occurrence>, i: nat, j: nat, period: real)
    requires Ordered(h) && i <= j < |Run(true, h).starts|
    requires Run(true, h).starts[j] - Run(true, h).starts[i] <= period
    ensures (j - i + 1) as real <= period / OFFICIAL_MIN_INTERVAL + 1.0
  {
    ScheduleKeepsDistance(h);
    hide Run;
    SpacingAddsUp(Run(true, h).starts, i, j);
  }

  // -- the age of what decisions use ------------------------------------------

  /** Occurrence number `k` brought a position in. */
  ghost predicate BringsPosition(official: bool, h: seq<Occurrence>, k: nat)
    requires k < |h|
  {
    h[k].FullUpdate? || h[k].OnDemandRead? || (h[k].ReadDone? && h[k].success && Run(official, h[..k]).reading)
  }

  ghost predicate LastPosition(official: bool, h: seq<Occurrence>, k: nat)
    requires k < |h|
  {
    BringsPosition(official, h, k) && forall j :: k < j < |h| ==> !BringsPosition(official, h, j)
  }

  lemma PrefixBrings(official: bool, h: seq<Occurrence>, n: nat)
    requires n <= |h|
    ensures forall k :: 0 <= k < n ==> BringsPosition(official, h, k) == BringsPosition(official, h[..n], k)
  {
    forall k | 0 <= k < n
      ensures BringsPosition(official, h, k) == BringsPosition(official, h[..n], k)
    {
      assert h[..n][..k] == h[..k];
    }
  }

  /** The remembered time is that of the last read that succeeded; failures and polls do not move it. */
  lemma {:induction false} UpdateIsLastSuccess(official: bool, h: seq<Occurrence>)
    ensures Run(official, h).lastUpdate.None? ==> forall k :: 0 <= k < |h| ==> !BringsPosition(official, h, k)
    ensures Run(official, h).lastUpdate.Some? ==>
              exists k :: 0 <= k < |h| && LastPosition(official, h, k) && h[k].now == Run(official, h).lastUpdate.value
  {
    if h != [] {
      var n := |h| - 1;
      var g := h[..n];
      UpdateIsLastSuccess(official, g);
      PrefixBrings(official, h, n);
      if BringsPosition(official, h, n) {
        assert LastPosition(official, h, n);
      } else if Run(official, h).lastUpdate.Some? {
        var k :| 0 <= k < n && LastPosition(official, g, k) && g[k].now == Run(official, g).lastUpdate.value;
        assert LastPosition(official, h, k);
      }
    }
  }

  /**
   While a task runs, a position counts as fresh exactly when some read succeeded no more than two active
   intervals ago, in every run whose times do not go back.
   */
  lemma FreshExactlyWhenReadRecently(official: bool, h: seq<Occurrence>, now: real, active: real)
    requires Ordered(h)
    ensures IsFresh(now, Run(official, h).lastUpdate, true, active)
            <==> exists k ::
                   0 <= k < |h| && BringsPosition(official, h, k) && now - h[k].now <= 2.0 * active
  {
    UpdateIsLastSuccess(official, h);
    if k :| 0 <= k < |h| && BringsPosition(official, h, k) && now - h[k].now <= active * MAX_AGE_INTERVALS {
      var t := Run(official, h).lastUpdate;
      assert t.Some?;
      var last :| 0 <= last < |h| && LastPosition(official, h, last) && h[last].now == t.value;
      assert k <= last;
      assert h[k].now <= h[last].now;
    }
  }

  // -- how often --------------------------------------------------------------

  /** The intervals in seconds: the defaults for each kind of server, and what an option makes of them. */
  lemma IntervalsExactly(n: int)
    ensures ResolveIntervals(None, true) == Intervals(60.0, 300.0)
    ensures ResolveIntervals(None, false) == Intervals(5.0, 60.0)
    ensures n <= 0 ==> forall official :: ResolveIntervals(Some(n), official) == ResolveIntervals(None, official)
    ensures n > 300 ==> forall official :: ResolveIntervals(Some(n), official) == ResolveIntervals(Some(300), official)
    ensures 0 < n <= 300 ==>
              && ResolveIntervals(Some(n), false)
                 == Intervals(n as real, if n <= 10 then 60.0 else 6.0 * n as real)
              && ResolveIntervals(Some(n), true)
                 == if n <= 30 then Intervals(30.0, 180.0) else Intervals(n as real, 6.0 * n as real)
  {
  }

  /** A poll starts a background read exactly when none is running and the interval for the task at hand is over. */
  lemma ReadIsDueExactly(official: bool, s: Schedule, now: real, stamp: real, taskActive: bool, option: Option<int>)
    ensures var intervals := ResolveIntervals(option, official);
            After(official, s, Poll(now, stamp, taskActive, option)).starts
            == if && !s.reading
                  && (|| s.lastAttempt.None?
                      || (taskActive && now >= s.lastAttempt.value + intervals.active)
                      || (!taskActive && now >= s.lastAttempt.value + intervals.idle))
               then s.starts + [stamp] else s.starts
  {
  }

  /** A full update counts as an attempt: it puts off the next background read by the whole interval. */
  lemma FullUpdateDefersRead(official: bool, s: Schedule, t: real, now: real, stamp: real, option: Option<int>)
    requires now < t + ResolveIntervals(option, official).active
    ensures After(official, After(official, s, FullUpdate(t)), Poll(now, stamp, true, option)).starts == s.starts
  {
  }

  /** A read that is done, however it went, makes room for the next one. */
  lemma DoneReadMakesRoom(
      official: bool, s: Schedule, t: real, success: bool, now: real, stamp: real, option: Option<int>)
    requires s.lastAttempt.Some? && now >= s.lastAttempt.value + ResolveIntervals(option, official).active
    ensures After(official, After(official, s, ReadDone(t, success)), Poll(now, stamp, true, option)).starts
            == s.starts + [stamp]
  {
  }
}
