/**
 Detection of a robot that should be moving but is not.

 Two anchors judge each position sample: the short one asks whether the robot has
 stopped, the long one (the backstop) whether it moves without getting anywhere.
 */
module StuckDetection {
  import opened Common
  import opened RobotStates

  const BACKSTOP_WINDOW := 900.0
  const BACKSTOP_RADIUS := 3000.0

  // -- settings ---------------------------------------------------------------

  /** An option as stored: absent or unusable values fall back to the default. */
  datatype RawOption = Unusable | Given(n: real)

  datatype StuckOptions = StuckOptions(window: real, radius: real)

  function AsInt(raw: RawOption, default: int): int
  {
    match raw
    case Unusable => default
    case Given(n) => Truncate(n)
  }

  function Clamp(n: int, low: int, high: int): (r: int)
    requires low <= high
    ensures low <= r <= high
    ensures low <= n <= high ==> r == n
  {
    if n < low then low else if n > high then high else n
  }

  function ResolveOptions(window: RawOption, radius: RawOption): (r: StuckOptions)
    ensures 30.0 <= r.window <= 600.0
    ensures 50.0 <= r.radius <= 2000.0
    ensures r.window.Floor as real == r.window
  {
    StuckOptions(Clamp(AsInt(window, 120), 30, 600) as real, Clamp(AsInt(radius, 200), 50, 2000) as real)
  }

  // -- one observation --------------------------------------------------------

  datatype Point = Point(x: real, y: real)

  datatype Anchor = Anchor(at: Point, since: real)

  /** One observation: the position may be missing, the sample may carry no time of its own. */
  datatype Sample = Sample(now: real, time: Option<real>, at: Option<Point>, state: RobotState) {
    predicate Moving() {
      ShouldMove(state)
    }
  }

  function ObservedAt(s: Sample): real
  {
    if s.time.Some? then s.time.value else s.now
  }

  datatype Tracking = Tracking(
    anchor: Option<Anchor>,
    stuckSince: Option<real>,
    lastSample: Option<real>,
    backstopAnchor: Option<Anchor>,
    backstopSince: Option<real>)

  const FRESH := Tracking(None, None, None, None, None)

  predicate Near(p: Point, a: Point, radius: real)
  {
    Within(p.x, p.y, a.x, a.y, radius)
  }

  predicate Duplicate(t: Tracking, s: Sample)
  {
    s.time.Some? && s.time == t.lastSample
  }

  /** The sample carries a position that has not been judged before. */
  predicate Accepted(t: Tracking, s: Sample)
  {
    s.Moving() && s.at.Some? && !Duplicate(t, s)
  }

  /** The short window has elapsed with the robot still near its anchor. */
  predicate Settled(o: StuckOptions, t: Tracking, s: Sample)
    requires s.at.Some? && t.anchor.Some?
  {
    && Near(s.at.value, t.anchor.value.at, o.radius)
    && ObservedAt(s) - t.anchor.value.since >= o.window
  }

  /** The sample is compared with the long-horizon anchor. */
  predicate Compared(o: StuckOptions, t: Tracking, s: Sample)
  {
    Accepted(t, s) && t.anchor.Some? && !Settled(o, t, s)
  }

  function AfterBackstop(t: Tracking, at: Point, observedAt: real): Tracking
  {
    if t.backstopAnchor.None? then t.(backstopAnchor := Some(Anchor(at, observedAt)))
    else if !Near(at, t.backstopAnchor.value.at, BACKSTOP_RADIUS) then
      t.(backstopAnchor := Some(Anchor(at, observedAt)), backstopSince := None)
    else if observedAt - t.backstopAnchor.value.since >= BACKSTOP_WINDOW then
      var since := Some(t.backstopAnchor.value.since);
      t.(backstopSince := if t.backstopSince.None? then since else t.backstopSince,
         stuckSince := if t.stuckSince.None? then since else t.stuckSince)
    else t
  }

  function After(o: StuckOptions, t: Tracking, s: Sample): Tracking
  {
    if !s.Moving() then FRESH
    else if s.at.None? then t.(anchor := None, lastSample := s.time)
    else if Duplicate(t, s) then t
    else
      var start := Some(Anchor(s.at.value, ObservedAt(s)));
      var t := t.(lastSample := s.time);
      if t.anchor.None? then
        t.(anchor := start, backstopAnchor := if t.backstopAnchor.None? then start else t.backstopAnchor)
      else if Settled(o, t, s) then
        t.(stuckSince := if t.stuckSince.None? then Some(t.anchor.value.since) else t.stuckSince)
      else if !Near(s.at.value, t.anchor.value.at, o.radius) then
        AfterBackstop(t.(anchor := start, stuckSince := None), s.at.value, ObservedAt(s))
      else AfterBackstop(t, s.at.value, ObservedAt(s))
  }

  function Run(o: StuckOptions, h: seq<Sample>): Tracking
  {
    if h == [] then FRESH else After(o, Run(o, h[..|h| - 1]), h[|h| - 1])
  }

  predicate Stuck(t: Tracking)
  {
    t.stuckSince.Some?
  }

  // -- the tracker ------------------------------------------------------------

  class StuckTracker {
    const options: StuckOptions
    var anchor: Option<Anchor>
    var stuckSince: Option<real>
    var lastSampleTime: Option<real>
    var backstopAnchor: Option<Anchor>
    var backstopSince: Option<real>

    ghost function State(): Tracking
      reads this
    {
      Tracking(anchor, stuckSince, lastSampleTime, backstopAnchor, backstopSince)
    }

    constructor (options: StuckOptions)
      ensures State() == FRESH && this.options == options
    {
      this.options := options;
      anchor, stuckSince, lastSampleTime, backstopAnchor, backstopSince := None, None, None, None, None;
    }

    method SecondsStuck(now: real) returns (seconds: Option<real>)
      ensures seconds == if Stuck(State()) then Some(now - State().stuckSince.value) else None
    {
      if stuckSince == None {
        return None;
      }
      return Some(now - stuckSince.value);
    }

    method Reset()
      modifies this
      ensures State() == FRESH
    {
      anchor, stuckSince, lastSampleTime, backstopAnchor, backstopSince := None, None, None, None, None;
    }

    method Observe(s: Sample) returns (stuck: bool)
      modifies this
      ensures State() == After(options, old(State()), s)
      ensures stuck == Stuck(State())
    {
      if !s.Moving() {
        Reset();
        return false;
      }
      if s.at == None {
        anchor := None;
        lastSampleTime := s.time;
        return stuckSince != None;
      }
      if s.time != None && s.time == lastSampleTime {
        return stuckSince != None;
      }
      lastSampleTime := s.time;
      var observedAt := if s.time != None then s.time.value else s.now;
      if anchor == None {
        anchor := Some(Anchor(s.at.value, observedAt));
        if backstopAnchor == None {
          backstopAnchor := Some(Anchor(s.at.value, observedAt));
        }
        return stuckSince != None;
      }
      var movedFar := !Near(s.at.value, anchor.value.at, options.radius);
      if movedFar {
        anchor := Some(Anchor(s.at.value, observedAt));
        stuckSince := None;
      } else if observedAt - anchor.value.since >= options.window {
        if stuckSince == None {
          stuckSince := Some(anchor.value.since);
        }
        return true;
      }
      ObserveBackstop(s.at.value, observedAt);
      return stuckSince != None;
    }

    method ObserveBackstop(at: Point, observedAt: real)
      modifies this`backstopAnchor, this`backstopSince, this`stuckSince
      ensures State() == AfterBackstop(old(State()), at, observedAt)
    {
      if backstopAnchor == None {
        backstopAnchor := Some(Anchor(at, observedAt));
        return;
      }
      if !Near(at, backstopAnchor.value.at, BACKSTOP_RADIUS) {
        backstopAnchor := Some(Anchor(at, observedAt));
        backstopSince := None;
        return;
      }
      if observedAt - backstopAnchor.value.since >= BACKSTOP_WINDOW {
        if backstopSince == None {
          backstopSince := Some(backstopAnchor.value.since);
        }
        if stuckSince == None {
          stuckSince := Some(backstopAnchor.value.since);
        }
      }
    }
  }

  // -- the backstop closes the oscillation gap --------------------------------

  /**
   Every sample is moving and later than the one before, and every position that is there is inside the backstop
   region of the first; positions may be missing.
   */
  predicate Confined(h: seq<Sample>)
  {
    && (forall k :: 0 <= k < |h| ==> h[k].Moving() && h[k].time.Some?)
    && (|h| > 0 ==> h[0].at.Some?)
    && (forall k :: 0 <= k < |h| && h[k].at.Some? ==> Near(h[k].at.value, h[0].at.value, BACKSTOP_RADIUS))
    && (forall k :: 0 < k < |h| ==> h[k - 1].time.value < h[k].time.value)
  }

  lemma {:induction false} ConfinedKeepsAnchor(o: StuckOptions, h: seq<Sample>)
    requires h != [] && Confined(h)
    ensures h[|h| - 1].at.Some? ==> Run(o, h).anchor.Some?
    ensures Run(o, h).lastSample == h[|h| - 1].time
    ensures Run(o, h).backstopAnchor == Some(Anchor(h[0].at.value, h[0].time.value))
  {
    if |h| == 1 {
      assert h[..0] == [];
    } else {
      ConfinedKeepsAnchor(o, h[..|h| - 1]);
    }
  }

  /**
   However large the swings are compared with the short radius, whatever the short window is, and however many
   maps come without a position: a robot confined to the backstop region for the backstop window is reported
   stuck as soon as two samples in a row have a position.
   */
  lemma OscillationIsCaught(o: StuckOptions, h: seq<Sample>)
    requires |h| >= 2 && Confined(h) && h[|h| - 2].at.Some? && h[|h| - 1].at.Some?
    requires h[|h| - 1].time.value - h[0].time.value >= 900.0
    ensures Stuck(Run(o, h))
  {
    ConfinedKeepsAnchor(o, h[..|h| - 1]);
  }

  /** A robot that stays within the short radius of its first sample is reported once the window is over. */
  predicate Stopped(o: StuckOptions, h: seq<Sample>)
  {
    && (forall k :: 0 <= k < |h| ==> h[k].Moving() && h[k].at.Some? && h[k].time.Some?)
    && (forall k :: 0 <= k < |h| ==> Near(h[k].at.value, h[0].at.value, o.radius))
    && (forall k :: 0 < k < |h| ==> h[k - 1].time.value < h[k].time.value)
  }

  lemma {:induction false} StoppedIsCaught(o: StuckOptions, h: seq<Sample>)
    requires h != [] && Stopped(o, h)
    ensures Run(o, h).anchor == Some(Anchor(h[0].at.value, h[0].time.value))
    ensures Run(o, h).lastSample == h[|h| - 1].time
    ensures |h| > 1 && h[|h| - 1].time.value - h[0].time.value >= o.window ==> Stuck(Run(o, h))
  {
    if |h| == 1 {
      assert h[..0] == [];
    } else {
      StoppedIsCaught(o, h[..|h| - 1]);
    }
  }

  // -- soundness of a verdict -------------------------------------------------

  predicate AcceptedAt(o: StuckOptions, h: seq<Sample>, k: nat)
    requires k < |h|
  {
    Accepted(Run(o, h[..k]), h[k])
  }

  /**
   Sample `j` starts an unbroken stretch up to the end: it was accepted, and since then the robot
   should have been moving, no position was missing, and every accepted one lay near sample `j`.
   */
  ghost predicate StillSince(o: StuckOptions, h: seq<Sample>, j: nat)
  {
    && j < |h| && AcceptedAt(o, h, j)
    && forall k :: j < k < |h| ==>
         h[k].Moving() && h[k].at.Some? && (AcceptedAt(o, h, k) ==> Near(h[k].at.value, h[j].at.value, o.radius))
  }

  /** Sample `j` was accepted, and since then every sample compared with the backstop lay in its region. */
  ghost predicate RegionSince(o: StuckOptions, h: seq<Sample>, j: nat)
  {
    && j < |h| && AcceptedAt(o, h, j)
    && forall k :: j < k < |h| ==>
         h[k].Moving() && (Compared(o, Run(o, h[..k]), h[k]) ==> Near(h[k].at.value, h[j].at.value, BACKSTOP_RADIUS))
  }

  ghost predicate Anchors(h: seq<Sample>, j: nat, a: Anchor)
  {
    j < |h| && h[j].at == Some(a.at) && ObservedAt(h[j]) == a.since
  }

  ghost predicate AnchorExplained(o: StuckOptions, h: seq<Sample>)
  {
    var t := Run(o, h);
    && (t.anchor.Some? ==> exists j: nat :: StillSince(o, h, j) && Anchors(h, j, t.anchor.value))
    && (t.backstopAnchor.Some? ==> exists j: nat :: RegionSince(o, h, j) && Anchors(h, j, t.backstopAnchor.value))
  }

  lemma StillExtends(o: StuckOptions, h: seq<Sample>, s: Sample, j: nat)
    requires StillSince(o, h, j) && s.Moving() && s.at.Some?
    requires Accepted(Run(o, h), s) ==> Near(s.at.value, h[j].at.value, o.radius)
    ensures StillSince(o, h + [s], j)
  {
    var g := h + [s];
    assert forall k :: 0 <= k <= |h| ==> g[..k] == h[..k];
    assert h[..|h|] == h;
  }

  lemma RegionExtends(o: StuckOptions, h: seq<Sample>, s: Sample, j: nat)
    requires RegionSince(o, h, j) && s.Moving()
    requires Compared(o, Run(o, h), s) ==> Near(s.at.value, h[j].at.value, BACKSTOP_RADIUS)
    ensures RegionSince(o, h + [s], j)
  {
    var g := h + [s];
    assert forall k :: 0 <= k <= |h| ==> g[..k] == h[..k];
    assert h[..|h|] == h;
  }

  lemma StartsHere(o: StuckOptions, h: seq<Sample>, s: Sample)
    requires Accepted(Run(o, h), s)
    ensures StillSince(o, h + [s], |h|) && RegionSince(o, h + [s], |h|)
    ensures Anchors(h + [s], |h|, Anchor(s.at.value, ObservedAt(s)))
  {
    assert (h + [s])[..|h|] == h;
  }

  lemma RunSnoc(o: StuckOptions, h: seq<Sample>, s: Sample)
    ensures Run(o, h + [s]) == After(o, Run(o, h), s)
  {
    assert (h + [s])[..|h|] == h;
  }

  lemma ExplainShort(o: StuckOptions, h: seq<Sample>, s: Sample)
    requires AnchorExplained(o, h) && Run(o, h + [s]).anchor.Some?
    ensures exists j: nat :: StillSince(o, h + [s], j) && Anchors(h + [s], j, Run(o, h + [s]).anchor.value)
  {
    RunSnoc(o, h, s);
    var t, t' := Run(o, h), Run(o, h + [s]);
    if t.anchor.Some? && t'.anchor == t.anchor {
      var j: nat :| StillSince(o, h, j) && Anchors(h, j, t.anchor.value);
      if !Accepted(t, s) || Near(s.at.value, h[j].at.value, o.radius) {
        StillExtends(o, h, s, j);
        assert Anchors(h + [s], j, t'.anchor.value);
      } else {
        StartsHere(o, h, s);
      }
    } else {
      StartsHere(o, h, s);
    }
  }

  lemma ExplainBackstop(o: StuckOptions, h: seq<Sample>, s: Sample)
    requires AnchorExplained(o, h) && Run(o, h + [s]).backstopAnchor.Some?
    ensures exists j: nat :: RegionSince(o, h + [s], j) && Anchors(h + [s], j, Run(o, h + [s]).backstopAnchor.value)
  {
    RunSnoc(o, h, s);
    var t, t' := Run(o, h), Run(o, h + [s]);
    if t.backstopAnchor.Some? && t'.backstopAnchor == t.backstopAnchor {
      var j: nat :| RegionSince(o, h, j) && Anchors(h, j, t.backstopAnchor.value);
      if !Compared(o, t, s) || Near(s.at.value, h[j].at.value, BACKSTOP_RADIUS) {
        RegionExtends(o, h, s, j);
        assert Anchors(h + [s], j, t'.backstopAnchor.value);
      } else {
        StartsHere(o, h, s);
      }
    } else {
      StartsHere(o, h, s);
    }
  }

  /** In every history, both anchors are samples of that history with the stretch they stand for. */
  lemma {:induction false} AnchorsAreExplained(o: StuckOptions, h: seq<Sample>)
    ensures AnchorExplained(o, h)
  {
    if h != [] {
      var g, s := h[..|h| - 1], h[|h| - 1];
      assert h == g + [s];
      AnchorsAreExplained(o, g);
      if Run(o, h).anchor.Some? {
        ExplainShort(o, g, s);
      }
      if Run(o, h).backstopAnchor.Some? {
        ExplainBackstop(o, g, s);
      }
    }
  }

  /** Sample `j` of `h` explains a verdict that holds at `now`, counted from the time of that sample. */
  ghost predicate Explains(o: StuckOptions, h: seq<Sample>, j: nat, now: real, since: real)
  {
    && j < |h|
    && ObservedAt(h[j]) == since
    && ((StillSince(o, h, j) && now - since >= o.window) || (RegionSince(o, h, j) && now - since >= BACKSTOP_WINDOW))
  }

  lemma ShortVerdictIsSound(o: StuckOptions, h: seq<Sample>, s: Sample) returns (j: nat)
    requires Accepted(Run(o, h), s) && Run(o, h).anchor.Some? && Settled(o, Run(o, h), s)
    ensures Explains(o, h + [s], j, ObservedAt(s), Run(o, h).anchor.value.since)
  {
    AnchorsAreExplained(o, h);
    var a := Run(o, h).anchor.value;
    j :| StillSince(o, h, j) && Anchors(h, j, a);
    StillExtends(o, h, s, j);
  }

  lemma BackstopVerdictIsSound(o: StuckOptions, h: seq<Sample>, s: Sample) returns (j: nat)
    requires Compared(o, Run(o, h), s) && Run(o, h).backstopAnchor.Some?
    requires Near(s.at.value, Run(o, h).backstopAnchor.value.at, BACKSTOP_RADIUS)
    requires ObservedAt(s) - Run(o, h).backstopAnchor.value.since >= BACKSTOP_WINDOW
    ensures Explains(o, h + [s], j, ObservedAt(s), Run(o, h).backstopAnchor.value.since)
  {
    AnchorsAreExplained(o, h);
    var a := Run(o, h).backstopAnchor.value;
    j :| RegionSince(o, h, j) && Anchors(h, j, a);
    RegionExtends(o, h, s, j);
  }

  /**
   A verdict never turns on without a reason in the history: either an unbroken stretch at least as
   long as the short window, all near its first sample, or a stretch of at least the backstop window
   whose compared samples never left the region. The reported duration is that stretch's length, so
   it is never below the configured window.
   */
  lemma VerdictIsSound(o: StuckOptions, h: seq<Sample>, s: Sample)
    requires o.window <= BACKSTOP_WINDOW
    requires !Stuck(Run(o, h)) && Stuck(After(o, Run(o, h), s))
    ensures Run(o, h + [s]) == After(o, Run(o, h), s)
    ensures ObservedAt(s) - After(o, Run(o, h), s).stuckSince.value >= o.window
    ensures exists j: nat :: Explains(o, h + [s], j, ObservedAt(s), After(o, Run(o, h), s).stuckSince.value)
  {
    RunSnoc(o, h, s);
    var t := Run(o, h);
    if Settled(o, t, s) {
      var j := ShortVerdictIsSound(o, h, s);
    } else {
      var j := BackstopVerdictIsSound(o, h, s);
    }
  }

  // -- consistency of the two verdicts ----------------------------------------

  predicate Monotone(h: seq<Sample>)
  {
    forall i, j :: 0 <= i < j < |h| ==> ObservedAt(h[i]) <= ObservedAt(h[j])
  }

  predicate Consistent(t: Tracking)
  {
    && (t.anchor.Some? ==> t.backstopAnchor.Some?)
    && (t.backstopSince.Some? ==>
          && t.stuckSince.Some?
          && t.backstopAnchor.Some?
          && t.backstopSince.value == t.backstopAnchor.value.since)
  }

  /** While sample times do not go back, the two verdicts agree and name their anchor's time. */
  lemma {:induction false} VerdictsAgree(o: StuckOptions, h: seq<Sample>)
    requires Monotone(h)
    ensures Consistent(Run(o, h))
    ensures Run(o, h).backstopSince.Some? ==>
              h != [] && ObservedAt(h[|h| - 1]) - Run(o, h).backstopSince.value >= BACKSTOP_WINDOW
  {
    if h != [] {
      VerdictsAgree(o, h[..|h| - 1]);
    }
  }

  /**
   The one step that parts the verdicts: a backstop verdict stands, the sample leaves the short radius but
   not the region, and it claims a time at which the backstop window was not yet over.
   */
  predicate PartsVerdicts(o: StuckOptions, t: Tracking, s: Sample)
  {
    && Accepted(t, s) && t.backstopSince.Some? && t.anchor.Some? && t.backstopAnchor.Some?
    && !Near(s.at.value, t.anchor.value.at, o.radius)
    && Near(s.at.value, t.backstopAnchor.value.at, BACKSTOP_RADIUS)
    && ObservedAt(s) - t.backstopAnchor.value.since < BACKSTOP_WINDOW
  }

  /** From agreeing verdicts, a sample leads to disagreeing ones if and only if it is such a step. */
  lemma AgreementBreaksExactly(o: StuckOptions, t: Tracking, s: Sample)
    requires Consistent(t)
    ensures Consistent(After(o, t, s)) <==> !PartsVerdicts(o, t, s)
  {
  }

  predicate AgreeThroughout(o: StuckOptions, h: seq<Sample>)
  {
    forall k :: 0 <= k <= |h| ==> Consistent(Run(o, h[..k]))
  }

  predicate NeverParted(o: StuckOptions, h: seq<Sample>)
  {
    forall k :: 0 <= k < |h| ==> !PartsVerdicts(o, Run(o, h[..k]), h[k])
  }

  lemma AgreeSnoc(o: StuckOptions, g: seq<Sample>, s: Sample)
    ensures AgreeThroughout(o, g + [s]) <==> AgreeThroughout(o, g) && Consistent(After(o, Run(o, g), s))
  {
    RunSnoc(o, g, s);
    hide Consistent, After, Run;
    var h := g + [s];
    forall k | 0 <= k <= |g|
      ensures Run(o, h[..k]) == Run(o, g[..k])
    {
      assert h[..k] == g[..k];
    }
    assert h[..|g| + 1] == h;
  }

  lemma PartedSnoc(o: StuckOptions, g: seq<Sample>, s: Sample)
    ensures NeverParted(o, g + [s]) <==> NeverParted(o, g) && !PartsVerdicts(o, Run(o, g), s)
  {
    hide PartsVerdicts, Run;
    var h := g + [s];
    assert forall k :: 0 <= k <= |g| ==> h[..k] == g[..k];
    assert g[..|g|] == g && h[|g|] == s;
  }

  /** Over whole histories: the verdicts agree all along if and only if no sample is such a step. */
  lemma {:induction false} VerdictsAgreeExactly(o: StuckOptions, h: seq<Sample>)
    ensures AgreeThroughout(o, h) <==> NeverParted(o, h)
  {
    if h != [] {
      var g, s := h[..|h| - 1], h[|h| - 1];
      assert h == g + [s];
      VerdictsAgreeExactly(o, g);
      AgreeSnoc(o, g, s);
      PartedSnoc(o, g, s);
      if AgreeThroughout(o, g) {
        assert Consistent(Run(o, g)) by { assert g[..|g|] == g; }
        AgreementBreaksExactly(o, Run(o, g), s);
      }
      hide AgreeThroughout, NeverParted, Consistent, PartsVerdicts, After;
    }
  }

  /** Such a step exists: one sample read back in time leaves a backstop verdict that is not stuck. */
  lemma BackwardTimeBreaksAgreement()
    ensures exists o: StuckOptions, h: seq<Sample> :: !Consistent(Run(o, h))
  {
    var o := StuckOptions(120.0, 200.0);
    var here, there := Some(Point(0.0, 0.0)), Some(Point(1000.0, 0.0));
    var a, b := Sample(0.0, Some(0.0), here, Cleaning), Sample(0.0, Some(900.0), there, Cleaning);
    var c := Sample(0.0, Some(1.0), here, Cleaning);
    assert !Near(here.value, there.value, 200.0) && !Near(there.value, here.value, 200.0);
    assert Near(there.value, here.value, BACKSTOP_RADIUS) && Near(here.value, here.value, BACKSTOP_RADIUS);
    assert [] + [a] == [a] && [a] + [b] == [a, b] && [a, b] + [c] == [a, b, c];
    RunSnoc(o, [], a);
    RunSnoc(o, [a], b);
    RunSnoc(o, [a, b], c);
    assert Run(o, [a, b]).backstopSince == Some(0.0) && Run(o, [a, b]).anchor == Some(Anchor(there.value, 900.0));
    assert !Consistent(Run(o, [a, b, c]));
  }

  /** A failed read delivers the previous sample again: that is never new evidence. */
  lemma RepeatedSampleChangesNothing(o: StuckOptions, t: Tracking, s: Sample)
    requires s.time.Some?
    ensures After(o, After(o, t, s), s) == After(o, t, s)
  {
  }

  /** The two rules by which a sample that is judged reaches a verdict. */
  predicate Notices(o: StuckOptions, t: Tracking, s: Sample)
  {
    && Accepted(t, s) && t.anchor.Some?
    && var stopped := Near(s.at.value, t.anchor.value.at, o.radius) && ObservedAt(s) - t.anchor.value.since >= o.window;
       var trapped := && t.backstopAnchor.Some? && Near(s.at.value, t.backstopAnchor.value.at, 3000.0)
                      && ObservedAt(s) - t.backstopAnchor.value.since >= 900.0;
       stopped || trapped
  }

  /**
   Exactly: after a sample the robot is reported if it should be moving and one of the rules notices it, or if it
   was reported before and has not been seen to step out of the short radius.
   */
  lemma VerdictExactly(o: StuckOptions, t: Tracking, s: Sample)
    ensures Stuck(After(o, t, s))
            <==> && s.Moving()
                 && (|| Notices(o, t, s)
                     || (Stuck(t) && !(&& Accepted(t, s) && t.anchor.Some?
                                       && !Near(s.at.value, t.anchor.value.at, o.radius))))
  {
  }

  /** A sample without a position keeps the verdict and the long measurement, and ends the short one. */
  lemma MissingPositionExactly(o: StuckOptions, t: Tracking, s: Sample)
    requires s.Moving() && s.at.None?
    ensures var t' := After(o, t, s);
            && t'.stuckSince == t.stuckSince && t'.backstopAnchor == t.backstopAnchor
            && t'.backstopSince == t.backstopSince && t'.anchor.None?
            && forall u: Sample ::
                 u.Moving() && u.at.Some? && u.time.Some? && u.time == s.time ==> After(o, t', u) == t'
  {
  }

  /** A usable option is kept, and only the defaults of two minutes and two hundred units replace an unusable one. */
  lemma OptionsAreKept(window: int, radius: int)
    requires 30 <= window <= 600 && 50 <= radius <= 2000
    ensures ResolveOptions(Given(window as real), Given(radius as real)) == StuckOptions(window as real, radius as real)
    ensures ResolveOptions(Unusable, Unusable) == StuckOptions(120.0, 200.0)
    ensures forall n: real :: n >= 2001.0 ==> ResolveOptions(Given(n), Given(n)) == StuckOptions(600.0, 2000.0)
    ensures forall n: real :: n < 30.0 ==> ResolveOptions(Given(n), Given(n)) == StuckOptions(30.0, 50.0)
  {
  }

  /** After a verdict, only an idle state or a step beyond the short radius can clear it. */
  lemma VerdictStands(o: StuckOptions, t: Tracking, s: Sample)
    requires Stuck(t) && !Stuck(After(o, t, s))
    ensures !s.Moving() || (Accepted(t, s) && t.anchor.Some? && !Near(s.at.value, t.anchor.value.at, o.radius))
  {
  }

  /** A robot on its dock is never reported, and whatever was measured before is forgotten. */
  lemma DockedRobotIsNeverStuck(o: StuckOptions, h: seq<Sample>, s: Sample)
    requires IsDocked(s.state)
    ensures Run(o, h + [s]) == FRESH && !Stuck(Run(o, h + [s]))
  {
    DockedStatesDoNotMove(s.state);
    RunSnoc(o, h, s);
  }

  // -- the coordinator's event ------------------------------------------------

  /** What is reported: state and place, whole seconds, and whether the robot moved without getting anywhere. */
  datatype StuckEvent = StuckEvent(state: RobotState, at: Option<Point>, seconds: int, trapped: bool)

  function Report(t: Tracking, s: Sample): StuckEvent
    requires Stuck(t)
  {
    StuckEvent(s.state, s.at, Truncate(s.now - t.stuckSince.value), t.backstopSince.Some?)
  }

  datatype Watch = Watch(tracking: Tracking, sent: bool, events: seq<StuckEvent>)

  function WatchAfter(o: StuckOptions, w: Watch, s: Sample): Watch
  {
    var t := After(o, w.tracking, s);
    if !Stuck(t) then Watch(t, false, w.events)
    else if Stuck(w.tracking) && w.sent then Watch(t, true, w.events)
    else Watch(t, true, w.events + [Report(t, s)])
  }

  function WatchRun(o: StuckOptions, h: seq<Sample>): Watch
  {
    if h == [] then Watch(FRESH, false, []) else WatchAfter(o, WatchRun(o, h[..|h| - 1]), h[|h| - 1])
  }

  /** The part of the coordinator that feeds the tracker; `events` is what it fired on the bus. */
  class StuckWatch {
    const enabled: bool
    const tracker: StuckTracker
    var stuckEventSent: bool
    var events: seq<StuckEvent>

    ghost function State(): Watch
      reads this, tracker
    {
      Watch(tracker.State(), stuckEventSent, events)
    }

    constructor (enabled: bool, options: StuckOptions)
      ensures fresh(tracker) && tracker.options == options && this.enabled == enabled
      ensures State() == WatchRun(options, [])
    {
      this.enabled := enabled;
      tracker := new StuckTracker(options);
      stuckEventSent, events := false, [];
    }

    method ObserveStuckDetection(s: Sample)
      modifies this, tracker
      ensures State() == if enabled then WatchAfter(tracker.options, old(State()), s) else old(State())
    {
      if !enabled {
        return;
      }
      var wasStuck := tracker.stuckSince != None;
      var stuck := tracker.Observe(s);
      if !stuck {
        stuckEventSent := false;
        return;
      }
      if wasStuck && stuckEventSent {
        return;
      }
      stuckEventSent := true;
      var seconds := tracker.SecondsStuck(s.now);
      events := events + [StuckEvent(s.state, s.at, Truncate(seconds.value), tracker.backstopSince != None)];
    }
  }

  /** The reports due: one for each sample that starts a stretch of stuck observations. */
  function Onsets(o: StuckOptions, h: seq<Sample>): seq<StuckEvent>
  {
    if h == [] then []
    else
      var g := h[..|h| - 1];
      Onsets(o, g) + if !Stuck(Run(o, g)) && Stuck(Run(o, h)) then [Report(Run(o, h), h[|h| - 1])] else []
  }

  /** Event `e` tells of sample `k` and of the verdict that was reached with it. */
  predicate Describes(o: StuckOptions, h: seq<Sample>, k: nat, e: StuckEvent)
    requires k < |h|
  {
    var t := Run(o, h[..k + 1]);
    && Stuck(t) && e.state == h[k].state && e.at == h[k].at
    && e.seconds == Truncate(h[k].now - t.stuckSince.value) && (e.trapped <==> t.backstopSince.Some?)
  }

  /** Every event describes the sample that started its stretch, and the verdict then reached. */
  lemma {:induction false} EventsDescribeSamples(o: StuckOptions, h: seq<Sample>, i: nat)
    requires i < |Onsets(o, h)|
    ensures exists k :: 0 <= k < |h| && Describes(o, h, k, Onsets(o, h)[i])
  {
    hide Describes, Report;
    var n := |h| - 1;
    var g := h[..n];
    if i < |Onsets(o, g)| {
      EventsDescribeSamples(o, g, i);
      var k :| 0 <= k < n && Describes(o, g, k, Onsets(o, g)[i]);
      DescribesLater(o, h, n, k, Onsets(o, g)[i]);
      assert Onsets(o, h)[i] == Onsets(o, g)[i];
    } else {
      ReportDescribes(o, h);
      assert Onsets(o, h)[i] == Report(Run(o, h), h[n]);
    }
  }

  lemma DescribesLater(o: StuckOptions, h: seq<Sample>, n: nat, k: nat, e: StuckEvent)
    requires k < n <= |h| && Describes(o, h[..n], k, e)
    ensures Describes(o, h, k, e)
  {
    assert h[..n][..k + 1] == h[..k + 1];
    hide Run;
  }

  lemma ReportDescribes(o: StuckOptions, h: seq<Sample>)
    requires h != [] && Stuck(Run(o, h))
    ensures Describes(o, h, |h| - 1, Report(Run(o, h), h[|h| - 1]))
  {
    assert h[..|h| - 1 + 1] == h;
    hide Run;
  }

  /** Exactly one event is fired for each maximal stretch of stuck observations, at its start. */
  lemma {:induction false} OneEventPerStretch(o: StuckOptions, h: seq<Sample>)
    ensures WatchRun(o, h) == Watch(Run(o, h), Stuck(Run(o, h)), Onsets(o, h))
  {
    if h != [] {
      OneEventPerStretch(o, h[..|h| - 1]);
    }
  }

  /** A stretch that starts with sample `s` is reported with at least the length of the rule that noticed it. */
  lemma OnsetIsLongEnough(o: StuckOptions, g: seq<Sample>, s: Sample)
    requires 0.0 <= o.window && o.window.Floor as real == o.window
    requires Consistent(Run(o, g)) && ObservedAt(s) <= s.now
    requires !Stuck(Run(o, g)) && Stuck(After(o, Run(o, g), s))
    ensures var e := Report(After(o, Run(o, g), s), s);
            e.seconds as real >= if e.trapped then BACKSTOP_WINDOW else o.window
  {
    var t := After(o, Run(o, g), s);
    TurnsOnAfter(o, Run(o, g), s);
    hide After, Run;
    var due := if t.backstopSince.Some? then BACKSTOP_WINDOW else o.window;
    TruncateKeepsBound(s.now - t.stuckSince.value, due.Floor);
  }

  /** How long the rule that notices the robot has been measuring. */
  lemma TurnsOnAfter(o: StuckOptions, t: Tracking, s: Sample)
    requires Consistent(t) && !Stuck(t) && Stuck(After(o, t, s))
    ensures var t' := After(o, t, s);
            ObservedAt(s) - t'.stuckSince.value >= if t'.backstopSince.Some? then BACKSTOP_WINDOW else o.window
  {
    hide Near;
  }

  lemma TruncateKeepsBound(r: real, n: nat)
    requires r >= n as real
    ensures Truncate(r) >= n
  {
  }

  /** Every event reports at least the window, and one that says "trapped" at least the backstop window. */
  lemma {:induction false} EventsReportLongEnough(o: StuckOptions, h: seq<Sample>)
    requires 0.0 <= o.window && o.window.Floor as real == o.window && Monotone(h)
    requires forall k :: 0 <= k < |h| ==> ObservedAt(h[k]) <= h[k].now
    ensures forall e :: e in Onsets(o, h) ==> e.seconds as real >= if e.trapped then BACKSTOP_WINDOW else o.window
  {
    if h != [] {
      var g, s := h[..|h| - 1], h[|h| - 1];
      EventsReportLongEnough(o, g);
      VerdictsAgree(o, g);
      assert Run(o, h) == After(o, Run(o, g), s);
      hide After, Report;
      if !Stuck(Run(o, g)) && Stuck(Run(o, h)) {
        OnsetIsLongEnough(o, g, s);
        assert Onsets(o, h) == Onsets(o, g) + [Report(Run(o, h), s)];
      }
    }
  }
}
