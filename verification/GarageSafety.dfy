/** What every run of the door protocol keeps, whatever the world does. */
module GarageSafety {
  import opened Common
  import opened GarageBinding
  import opened DoorEvidence
  import opened DoorHistory
  import opened RobotStates
  import opened GarageDoor
  import opened GarageRuntime

  // -- the discipline ---------------------------------------------------------

  /** Event `k` of the part of the record that starts at `from`. */
  function EventAt(log: seq<Event>, from: nat, k: int): Option<Event>
  {
    if from <= k < |log| then Some(log[k]) else None
  }

  predicate Shows(e: Event, d: Direction)
  {
    e.Seen? && (if d == Open then e.open else e.close).ConfirmedReached()
  }

  predicate Saw(e: Option<Event>)
  {
    e.Some? && e.value.Seen?
  }

  predicate SawOutside(e: Option<Event>)
  {
    Saw(e) && e.value.moment.robot.Outside()
  }

  predicate SawPaused(e: Option<Event>)
  {
    Saw(e) && e.value.moment.robot.state.Paused?
  }

  predicate SawReturning(e: Option<Event>)
  {
    Saw(e) && IsReturning(e.value.moment.robot.state) && !Shows(e.value, Open)
  }

  predicate SawTaskOver(e: Option<Event>)
  {
    Saw(e) && e.value.moment.robot.docked && !e.value.moment.robot.TaskRunning()
  }

  predicate SawDockedMidTask(e: Option<Event>)
  {
    Saw(e) && e.value.moment.robot.docked && e.value.moment.robot.TaskRunning() && !Shows(e.value, Open)
  }

  /** The door may be moved: readable, not already there, and closing is permitted by the household. */
  predicate Movable(e: Option<Event>, d: Direction)
  {
    && Saw(e)
    && BlockedReason(e.value.open, e.value.close, e.value.coverAvailable) == None
    && !Shows(e.value, d)
    && (d == Close ==> e.value.moment.closeAllowed)
  }

  /** Why the door may be touched at all, in the three events before position `k`. */
  predicate Occasion(log: seq<Event>, from: nat, k: int, d: Direction)
  {
    match d
    case Close =>
      || SawTaskOver(EventAt(log, from, k - 1))
      || (SawPaused(EventAt(log, from, k - 1)) && EventAt(log, from, k - 2) == Some(Pause(Departure))
          && SawOutside(EventAt(log, from, k - 3)))
    case Open =>
      || SawDockedMidTask(EventAt(log, from, k - 1))
      || (SawPaused(EventAt(log, from, k - 1)) && EventAt(log, from, k - 2) == Some(Pause(Return))
          && SawReturning(EventAt(log, from, k - 3)))
  }

  /** Event `p` paused the robot, the pause was then seen, and neither pause nor resume followed before `i`. */
  predicate HeldSince(log: seq<Event>, from: nat, p: int, i: int, leg: Leg)
  {
    && from <= p < i - 1 < |log|
    && log[p] == Pause(leg)
    && SawPaused(EventAt(log, from, p + 1))
    && forall k :: p < k < i ==> !log[k].Pause? && !log[k].Resume?
  }

  /** The rule each event of a sequence obeys. */
  ghost predicate Permitted(b: Binding, log: seq<Event>, from: nat, i: nat)
    requires i < |log|
  {
    match log[i]
    case Seen(_, _, _, _, _) => TrueLook(b, log[i])
    case DoorCommand(d) => Movable(EventAt(log, from, i - 1), d) && Occasion(log, from, i - 1, d)
    case Pause(Departure) => SawOutside(EventAt(log, from, i - 1)) && !Shows(log[i - 1], Close)
    case Pause(Return) => SawReturning(EventAt(log, from, i - 1))
    case Resume(leg) =>
      && (exists p :: HeldSince(log, from, p, i, leg))
      && (leg == Return ==> Saw(EventAt(log, from, i - 1)) && Shows(log[i - 1], Open))
    case CleanSent => false
    case OtherSent => false
  }

  ghost predicate Disciplined(b: Binding, log: seq<Event>, from: nat)
  {
    forall i :: from <= i < |log| ==> Permitted(b, log, from, i)
  }

  lemma PermittedStable(b: Binding, log: seq<Event>, more: seq<Event>, from: nat, i: nat)
    requires log <= more && i < |log|
    ensures Permitted(b, log, from, i) <==> Permitted(b, more, from, i)
  {
    assert forall k: int :: k < |log| ==> EventAt(log, from, k) == EventAt(more, from, k);
    assert log[i] == more[i];
    if log[i].Resume? {
      forall p
        ensures HeldSince(log, from, p, i, log[i].leg) <==> HeldSince(more, from, p, i, log[i].leg)
      {
      }
    }
  }

  lemma Recorded(b: Binding, log: seq<Event>, from: nat, e: Event)
    requires Disciplined(b, log, from) && from <= |log|
    requires Permitted(b, log + [e], from, |log|)
    ensures Disciplined(b, log + [e], from)
  {
    forall i | from <= i < |log|
      ensures Permitted(b, log + [e], from, i)
    {
      PermittedStable(b, log, log + [e], from, i);
    }
  }

  // -- looking ----------------------------------------------------------------

  lemma UnblockedReasons(open: Endpoint, close: Endpoint, coverAvailable: bool)
    ensures BlockedReason(open, close, coverAvailable).None?
            <==> coverAvailable && Unblocking(open.reason) && Unblocking(close.reason)
  {
  }

  lemma LookIsTrue(b: Binding, w: Script, s: Garage)
    ensures var s1 := Refreshed(b, w, s);
            && s1 == s.(robot := w(s.tick).robot, door := s1.door, evidence := s1.evidence,
                        log := s.log + [Look(s.now, w(s.tick), s1.door)])
            && (forall d :: s1.door.At(d).ConfirmedReached() ==> Physical(b, d, w(s.tick).door))
            && !(s1.door.OpenConfirmed() && s1.door.ClosedConfirmed())
            && (BlockedBy(s1.door).None? ==> Readable(b, w(s.tick).door))
  {
    LookIsReadable(b, w, s);
    NeverBothEndpoints(b, s.evidence, Number(s.now), w(s.tick).door);
    forall d | Refreshed(b, w, s).door.At(d).ConfirmedReached()
      ensures Physical(b, d, w(s.tick).door)
    {
      hide Answer;
      ConfirmedIsPhysical(b, s.evidence, Number(s.now), w(s.tick).door, d);
    }
  }

  lemma LookIsReadable(b: Binding, w: Script, s: Garage)
    ensures BlockedBy(Refreshed(b, w, s).door).None? ==> Readable(b, w(s.tick).door)
  {
    hide Answer, BlockedReason, Readable, Unblocking;
    var door := Refreshed(b, w, s).door;
    UnblockedReasons(door.open, door.close, door.coverAvailable);
    if BlockedBy(door).None? {
      UnblockedIsReadable(b, s.evidence, Number(s.now), w(s.tick).door);
    }
  }

  /** The record ends with the look on which the controller now bases its decisions. */
  predicate Fresh(w: Script, s: Garage)
  {
    s.log != [] && s.log[|s.log| - 1] == Look(s.now, w(s.tick), s.door) && s.robot == w(s.tick).robot
  }

  lemma Looked(b: Binding, w: Script, s: Garage, from: nat)
    requires Disciplined(b, s.log, from) && from <= |s.log|
    ensures var s1 := Refreshed(b, w, s);
            && Disciplined(b, s1.log, from) && Fresh(w, s1)
            && s1.log == s.log + [Look(s.now, w(s.tick), s1.door)] && s1.tick == s.tick
  {
    hide Answer, Refreshed;
    LookIsTrue(b, w, s);
    var s1 := Refreshed(b, w, s);
    forall d | Shows(Look(s.now, w(s.tick), s1.door), d)
      ensures Physical(b, d, w(s.tick).door)
    {
      assert s1.door.At(d).ConfirmedReached();
    }
    Recorded(b, s.log, from, Look(s.now, w(s.tick), s1.door));
  }

  predicate OnlyLooks(log: seq<Event>, from: nat)
  {
    forall k :: from <= k < |log| ==> log[k].Seen?
  }

  /** A look that shows at most one endpoint, none at which the door is not, and blocks unless all can be read. */
  ghost predicate TrueLook(b: Binding, e: Event)
  {
    && e.Seen? && !(Shows(e, Open) && Shows(e, Close))
    && (BlockedReason(e.open, e.close, e.coverAvailable).None? ==> Readable(b, e.moment.door))
    && forall d :: Shows(e, d) ==> Physical(b, d, e.moment.door)
  }

  /** The last event is a look that shows the endpoint. */
  predicate EndsWith(log: seq<Event>, d: Direction)
  {
    log != [] && Shows(log[|log| - 1], d)
  }

  /** Waiting only looks; when it succeeds, the last look shows the endpoint. */
  lemma {:induction false} WaitingShows(b: Binding, w: Script, s: Garage, d: Direction, deadline: real)
    ensures var r := Waited(b, w, s, d, deadline);
            && s.log < r.s.log
            && (forall k :: |s.log| <= k < |r.s.log| ==> TrueLook(b, r.s.log[k]))
            && (r.r.Returned? ==> EndsWith(r.s.log, d) && EndpointConfirmed(r.s.door, d))
            && (r.r.Raised? ==> r.r.error == Refused(NotConfirmed(d)) || r.r.error.Cancelled?)
            && r.s.taskInProgress == s.taskInProgress
    decreases (deadline - s.now) * 5.0
  {
    hide Answer, Refreshed, Physical;
    LookIsTrue(b, w, s);
    var s1 := Refreshed(b, w, s);
    assert TrueLook(b, Look(s.now, w(s.tick), s1.door));
    if !EndpointConfirmed(s1.door, d) && s1.now < deadline {
      var slept := Slept(w, s1, 0.2);
      if slept.r.Returned? {
        WaitingShows(b, w, slept.s, d, deadline);
      }
    }
  }

  lemma MovingShows(b: Binding, w: Script, s: Garage, d: Direction)
    ensures var r := Reported(Moved(b, w, s, d));
            && s.log + [DoorCommand(d)] <= r.s.log
            && (forall k :: |s.log| < k < |r.s.log| ==> TrueLook(b, r.s.log[k]))
            && (r.r.Returned? ==> EndsWith(r.s.log, d) && EndpointConfirmed(r.s.door, d))
            && (r.r.Raised? ==> !r.r.error.Fault?)
            && r.s.taskInProgress == s.taskInProgress
  {
    hide Waited, Physical;
    var called := Called(w, s.(evidence := Invalidated(s.evidence)), DoorCommand(d));
    var timeout := OperationSeconds(b);
    if called.r.Returned? && timeout.Some? {
      WaitingShows(b, w, called.s, d, called.s.now + timeout.value);
    }
  }

  /** Looking more never breaks the discipline. */
  lemma LooksKeepDiscipline(b: Binding, log: seq<Event>, more: seq<Event>, from: nat)
    requires Disciplined(b, log, from) && from <= |log| && log <= more
    requires forall k :: |log| <= k < |more| ==> TrueLook(b, more[k])
    ensures Disciplined(b, more, from)
  {
    forall i | from <= i < |more|
      ensures Permitted(b, more, from, i)
    {
      if i < |log| {
        PermittedStable(b, log, more, from, i);
      } else {
        assert TrueLook(b, more[i]);
      }
    }
  }

  // -- moving the door --------------------------------------------------------

  /** One attempt at the door: a look, then at most one command, and otherwise only looks. */
  predicate DoorRun(before: seq<Event>, after: seq<Event>, d: Direction)
  {
    && before < after
    && after[|before|].Seen?
    && forall k :: |before| < k < |after| ==> after[k].Seen? || (k == |before| + 1 && after[k] == DoorCommand(d))
  }

  lemma OccasionStable(log: seq<Event>, more: seq<Event>, from: nat, k: int, d: Direction)
    requires log <= more && k <= |log|
    ensures Occasion(log, from, k, d) <==> Occasion(more, from, k, d)
  {
    assert forall j: int :: j < k ==> EventAt(log, from, j) == EventAt(more, from, j);
  }

  lemma CommandRecorded(b: Binding, log: seq<Event>, d: Direction, from: nat)
    requires Disciplined(b, log, from) && from <= |log|
    requires Movable(EventAt(log, from, |log| - 1), d) && Occasion(log, from, |log| - 1, d)
    ensures Disciplined(b, log + [DoorCommand(d)], from)
  {
    hide Movable, Occasion;
    OccasionStable(log, log + [DoorCommand(d)], from, |log| - 1, d);
    Recorded(b, log, from, DoorCommand(d));
  }

  lemma MovedIsDisciplined(b: Binding, w: Script, s: Garage, d: Direction, from: nat)
    requires Disciplined(b, s.log, from) && from <= |s.log|
    requires Movable(EventAt(s.log, from, |s.log| - 1), d) && Occasion(s.log, from, |s.log| - 1, d)
    ensures var r := Reported(Moved(b, w, s, d));
            && s.log + [DoorCommand(d)] <= r.s.log && OnlyLooks(r.s.log, |s.log| + 1) && Disciplined(b, r.s.log, from)
            && (r.r.Returned? ==> EndsWith(r.s.log, d) && EndpointConfirmed(r.s.door, d))
            && (r.r.Raised? ==> !r.r.error.Fault?)
            && r.s.taskInProgress == s.taskInProgress
  {
    hide Moved, Permitted, Occasion, Movable, EventAt, Physical;
    CommandRecorded(b, s.log, d, from);
    MovingShows(b, w, s, d);
    var log := Reported(Moved(b, w, s, d)).s.log;
    forall k | |s.log| + 1 <= k < |log|
      ensures log[k].Seen?
    {
      assert TrueLook(b, log[k]);
    }
    LooksKeepDiscipline(b, s.log + [DoorCommand(d)], log, from);
  }

  /** What the look just taken allows, in terms of the controller's own fields. */
  lemma FreshIsMovable(w: Script, s: Garage, from: nat, d: Direction)
    requires Fresh(w, s) && from < |s.log|
    ensures Movable(EventAt(s.log, from, |s.log| - 1), d)
            <==> BlockedBy(s.door) == None && !EndpointConfirmed(s.door, d) && (d == Close ==> w(s.tick).closeAllowed)
  {
  }

  lemma OpenedIsDisciplined(b: Binding, w: Script, s: Garage, from: nat)
    requires Disciplined(b, s.log, from) && from <= |s.log| && Occasion(s.log, from, |s.log|, Open)
    ensures var r := DoorOpened(b, w, s);
            && DoorRun(s.log, r.s.log, Open) && Disciplined(b, r.s.log, from)
            && (r.r.Returned? ==> EndsWith(r.s.log, Open) && EndpointConfirmed(r.s.door, Open) && r.s.taskInProgress)
            && (r.r.Raised? ==> !r.r.error.Fault? && r.s.taskInProgress == s.taskInProgress)
  {
    hide Answer, Refreshed, Permitted, Moved, Occasion, Movable, EventAt, BlockedReason;
    Looked(b, w, s, from);
    LookIsTrue(b, w, s);
    var s1 := Refreshed(b, w, s);
    FreshIsMovable(w, s1, from, Open);
    if BlockedBy(s1.door).None? && !s1.door.OpenConfirmed() {
      OccasionStable(s.log, s1.log, from, |s.log|, Open);
      MovedIsDisciplined(b, w, s1.(phase := Opening), Open, from);
    }
  }

  lemma ClosedIsDisciplined(b: Binding, w: Script, s: Garage, from: nat)
    requires Disciplined(b, s.log, from) && from <= |s.log| && Occasion(s.log, from, |s.log|, Close)
    ensures var r := DoorClosed(b, w, s);
            && DoorRun(s.log, r.s.log, Close) && Disciplined(b, r.s.log, from)
            && (r.r.Returned? ==> EndsWith(r.s.log, Close) && EndpointConfirmed(r.s.door, Close))
            && (r.r.Raised? ==> !r.r.error.Fault?)
            && r.s.taskInProgress == s.taskInProgress
  {
    hide Answer, Refreshed, Permitted, Moved, Occasion, Movable, EventAt, BlockedReason;
    Looked(b, w, s, from);
    LookIsTrue(b, w, s);
    var s1 := Refreshed(b, w, s);
    FreshIsMovable(w, s1, from, Close);
    if BlockedBy(s1.door).None? && w(s1.tick).closeAllowed && !s1.door.ClosedConfirmed() {
      OccasionStable(s.log, s1.log, from, |s.log|, Close);
      MovedIsDisciplined(b, w, s1.(phase := Closing), Close, from);
    }
  }

  // -- pausing and resuming ---------------------------------------------------

  lemma PauseRecorded(b: Binding, w: Script, s: Garage, leg: Leg, from: nat)
    requires Disciplined(b, s.log, from) && from < |s.log| && Fresh(w, s)
    requires match leg
             case Departure => s.robot.Outside() && !s.door.ClosedConfirmed()
             case Return => IsReturning(s.robot.state) && !s.door.OpenConfirmed()
    ensures var r := AskedRobot(w, s, Pause(leg));
            && Disciplined(b, r.s.log, from)
            && r.s.log == (if w(s.tick).unloaded then s.log else s.log + [Pause(leg)])
            && (r.r.Returned? ==> !w(s.tick).unloaded)
  {
    Recorded(b, s.log, from, Pause(leg));
  }

  lemma ResumeRecorded(b: Binding, w: Script, s: Garage, leg: Leg, from: nat, p: int)
    requires Disciplined(b, s.log, from) && from <= p < |s.log| - 1
    requires s.log[p] == Pause(leg) && SawPaused(EventAt(s.log, from, p + 1))
    requires forall k :: p < k < |s.log| ==> !s.log[k].Pause? && !s.log[k].Resume?
    requires leg == Return ==> EndsWith(s.log, Open)
    ensures var r := AskedRobot(w, s, Resume(leg));
            && Disciplined(b, r.s.log, from)
            && r.s.log == if w(s.tick).unloaded then s.log else s.log + [Resume(leg)]
  {
    var log := s.log + [Resume(leg)];
    assert HeldSince(log, from, p, |s.log|, leg);
    Recorded(b, s.log, from, Resume(leg));
  }

  // -- the rules --------------------------------------------------------------

  /**
   The record of one departure, from position `n` on. Either nothing but a look, or a pause that
   failed, or a pause that was not seen (and then nothing more), or a seen pause: then one attempt to
   close, followed by exactly one resume. The resume is missing only when the runtime was unloaded.
   */
  ghost predicate DepartureShape(log: seq<Event>, n: nat, r: Outcome<bool>)
  {
    && n < |log| && log[n].Seen?
    && (|| |log| == n + 1
        || (log[n + 1] == Pause(Departure) && log[n].moment.robot.Outside()
            && (|| (|log| == n + 2 && r.Raised?)
                || (|log| == n + 3 && log[n + 2].Seen? && !log[n + 2].moment.robot.state.Paused? && r.Returned?)
                || (|log| > n + 2 && log[n + 2].Seen? && log[n + 2].moment.robot.state.Paused?
                    && exists m :: HeldDeparture(log, n, m, r)))))
  }

  predicate HeldDeparture(log: seq<Event>, n: nat, m: nat, r: Outcome<bool>)
  {
    && n + 3 < m <= |log|
    && DoorRun(log[..n + 3], log[..m], Close)
    && (log[m..] == [Resume(Departure)] || (log[m..] == [] && r == Raised(Refused(ControlUnloaded))))
  }

  /** After a seen pause: one attempt to close, one resume. `p` is where the pause is recorded. */
  lemma HeldIsReleased(b: Binding, w: Script, s: Garage, from: nat)
    requires Disciplined(b, s.log, from) && Fresh(w, s) && from + 3 <= |s.log|
    requires s.log[|s.log| - 2] == Pause(Departure) && s.robot.state.Paused?
    requires SawOutside(EventAt(s.log, from, |s.log| - 3))
    ensures var r := ThenResumed(w, ClosedOrNot(DoorClosed(b, w, s)));
            && s.log < r.s.log && Disciplined(b, r.s.log, from)
            && HeldDeparture(r.s.log, |s.log| - 3, |DoorClosed(b, w, s).s.log|, r.r)
            && r.s.taskInProgress == s.taskInProgress
  {
    hide Permitted, DoorClosed, ThenResumed, Movable, Disciplined;
    ClosedIsDisciplined(b, w, s, from);
    var closed := DoorClosed(b, w, s);
    var p := |s.log| - 2;
    assert forall k :: 0 <= k < |s.log| ==> closed.s.log[k] == s.log[k];
    ReleaseRecorded(b, w, ClosedOrNot(closed), from, p);
    var r := ThenResumed(w, ClosedOrNot(closed));
    ReleasedShape(s.log, closed.s.log, r.s.log, r.r);
    hide HeldDeparture, DoorRun, EndsWith;
  }

  /** The resume at the end of a departure, after whatever was tried. */
  lemma ReleaseRecorded(b: Binding, w: Script, tried: Step<bool>, from: nat, p: int)
    requires Disciplined(b, tried.s.log, from) && from <= p < |tried.s.log| - 1
    requires tried.s.log[p] == Pause(Departure) && SawPaused(EventAt(tried.s.log, from, p + 1))
    requires forall k :: p < k < |tried.s.log| ==> !tried.s.log[k].Pause? && !tried.s.log[k].Resume?
    ensures var r := ThenResumed(w, tried);
            && Disciplined(b, r.s.log, from)
            && r.s.log == (if w(tried.s.tick).unloaded then tried.s.log else tried.s.log + [Resume(Departure)])
            && (w(tried.s.tick).unloaded ==> r.r == Raised(Refused(ControlUnloaded)))
            && r.s.taskInProgress == tried.s.taskInProgress
  {
    ResumeRecorded(b, w, tried.s, Departure, from, p);
    hide Disciplined;
  }

  lemma ReleasedShape(before: seq<Event>, tried: seq<Event>, log: seq<Event>, r: Outcome<bool>)
    requires DoorRun(before, tried, Close) && |before| >= 3
    requires log == tried + [Resume(Departure)] || (log == tried && r == Raised(Refused(ControlUnloaded)))
    ensures HeldDeparture(log, |before| - 3, |tried|, r)
  {
    assert log[..|tried|] == tried && log[..|before|] == before;
  }

  lemma PausedIsDisciplined(b: Binding, w: Script, s: Garage, from: nat)
    requires Disciplined(b, s.log, from) && from < |s.log| && Fresh(w, s)
    requires s.robot.Outside() && !s.door.ClosedConfirmed()
    ensures var r := PausedClosedResumed(b, w, s);
            && s.log <= r.s.log && Disciplined(b, r.s.log, from) && DepartureShape(r.s.log, |s.log| - 1, r.r)
  {
    hide Answer, Refreshed, Permitted, DoorClosed, BlockedReason, ThenResumed, ClosedOrNot;
    var s1 := s.(phase := PausingExit);
    PauseRecorded(b, w, s1, Departure, from);
    var paused := AskedRobot(w, s1, Pause(Departure));
    if paused.r.Returned? {
      Looked(b, w, paused.s, from);
      var s2 := Refreshed(b, w, paused.s);
      if s2.robot.state.Paused? {
        HeldIsReleased(b, w, s2, from);
        var r := PausedClosedResumed(b, w, s);
        assert forall k :: 0 <= k < |s2.log| ==> r.s.log[k] == s2.log[k];
        assert HeldDeparture(r.s.log, |s.log| - 1, |DoorClosed(b, w, s2).s.log|, r.r);
      }
    }
  }

  /** The shape does not depend on which answer was given. */
  lemma ShapeIgnoresAnswer(log: seq<Event>, n: nat, r: Outcome<bool>, r': Outcome<bool>)
    requires DepartureShape(log, n, r) && r.Returned? && r'.Returned?
    ensures DepartureShape(log, n, r')
  {
    if m :| HeldDeparture(log, n, m, r) {
      assert HeldDeparture(log, n, m, r');
    }
  }

  lemma DepartureIsDisciplined(b: Binding, w: Script, s: Garage, from: nat)
    requires Disciplined(b, s.log, from) && from <= |s.log|
    ensures var r := Departed(b, w, s);
            && s.log < r.s.log && Disciplined(b, r.s.log, from) && DepartureShape(r.s.log, |s.log|, r.r)
  {
    hide Answer, Refreshed, Permitted, PausedClosedResumed, BlockedReason;
    Looked(b, w, s, from);
    var s1 := Refreshed(b, w, s);
    if s1.robot.Outside() && !s1.door.ClosedConfirmed() && BlockedBy(s1.door).None? {
      PausedIsDisciplined(b, w, s1, from);
      var closed := PausedClosedResumed(b, w, s1);
      if closed.r.Returned? {
        ShapeIgnoresAnswer(closed.s.log, |s.log|, closed.r, Returned(true));
      }
    }
  }

  /**
   The record of one way back. A seen pause is followed by one attempt to open, and by a resume
   only directly after a look that shows the door open.
   */
  ghost predicate ReturnShape(log: seq<Event>, n: nat, r: Outcome<()>)
  {
    && n < |log| && log[n].Seen?
    && (|| |log| == n + 1
        || (log[n + 1] == Pause(Return)
            && (|| (|log| == n + 2 && r.Raised?)
                || (|log| == n + 3 && log[n + 2].Seen? && !log[n + 2].moment.robot.state.Paused?
                    && r == Raised(Refused(PauseNotObserved)))
                || (|log| > n + 2 && log[n + 2].Seen? && log[n + 2].moment.robot.state.Paused?
                    && exists m :: HeldReturn(log, n, m, r)))))
  }

  predicate HeldReturn(log: seq<Event>, n: nat, m: nat, r: Outcome<()>)
  {
    && n + 3 < m <= |log|
    && DoorRun(log[..n + 3], log[..m], Open)
    && ((log[m..] == [Resume(Return)] && Shows(log[m - 1], Open)) || (log[m..] == [] && r.Raised?))
  }

  lemma HeldIsLetIn(b: Binding, w: Script, s: Garage, from: nat)
    requires Disciplined(b, s.log, from) && from + 3 <= |s.log|
    requires s.log[|s.log| - 2] == Pause(Return) && SawPaused(EventAt(s.log, from, |s.log| - 1))
    requires SawReturning(EventAt(s.log, from, |s.log| - 3))
    ensures var r := OpenedAndResumed(b, w, s);
            && s.log < r.s.log && Disciplined(b, r.s.log, from)
            && HeldReturn(r.s.log, |s.log| - 3, |DoorOpened(b, w, s.(phase := Opening)).s.log|, r.r)
  {
    hide Permitted, DoorOpened, Movable, Disciplined;
    OpenedIsDisciplined(b, w, s.(phase := Opening), from);
    var atOpen := DoorOpened(b, w, s.(phase := Opening));
    var p := |s.log| - 2;
    assert forall k :: 0 <= k < |s.log| ==> atOpen.s.log[k] == s.log[k];
    if atOpen.r.Returned? {
      ResumeRecorded(b, w, atOpen.s.(phase := ResumingReturn), Return, from, p);
    }
    var r := OpenedAndResumed(b, w, s);
    LetInShape(s.log, atOpen.s.log, r.s.log, r.r);
    hide HeldReturn, DoorRun;
  }

  lemma LetInShape(before: seq<Event>, tried: seq<Event>, log: seq<Event>, r: Outcome<()>)
    requires DoorRun(before, tried, Open) && |before| >= 3
    requires (log == tried + [Resume(Return)] && EndsWith(tried, Open)) || (log == tried && r.Raised?)
    ensures HeldReturn(log, |before| - 3, |tried|, r)
  {
    assert log[..|tried|] == tried && log[..|before|] == before;
  }

  lemma LettingInIsDisciplined(b: Binding, w: Script, s: Garage, from: nat)
    requires Disciplined(b, s.log, from) && from < |s.log| && Fresh(w, s)
    requires IsReturning(s.robot.state) && !s.door.OpenConfirmed()
    ensures var r := PausedOpenedResumed(b, w, s);
            && s.log <= r.s.log && Disciplined(b, r.s.log, from) && ReturnShape(r.s.log, |s.log| - 1, r.r)
  {
    hide Answer, Refreshed, Permitted, Disciplined, OpenedAndResumed, DoorOpened;
    var s1 := s.(phase := PausingReturn);
    PauseRecorded(b, w, s1, Return, from);
    var paused := AskedRobot(w, s1, Pause(Return));
    if paused.r.Returned? {
      Looked(b, w, paused.s, from);
      var s2 := Refreshed(b, w, paused.s);
      if s2.robot.state.Paused? {
        HeldIsLetIn(b, w, s2, from);
        var r := PausedOpenedResumed(b, w, s);
        assert forall k :: 0 <= k < |s2.log| ==> r.s.log[k] == s2.log[k];
        assert HeldReturn(r.s.log, |s.log| - 1, |DoorOpened(b, w, s2.(phase := Opening)).s.log|, r.r);
      }
    }
  }

  lemma ReturnIsDisciplined(b: Binding, w: Script, s: Garage, from: nat)
    requires Disciplined(b, s.log, from) && from <= |s.log|
    ensures var r := CameBack(b, w, s);
            && s.log < r.s.log && Disciplined(b, r.s.log, from) && ReturnShape(r.s.log, |s.log|, r.r)
  {
    hide Answer, Refreshed, Permitted, Disciplined, PausedOpenedResumed;
    Looked(b, w, s, from);
    var s1 := Refreshed(b, w, s);
    if IsReturning(s1.robot.state) && !s1.door.OpenConfirmed() {
      LettingInIsDisciplined(b, w, s1, from);
    }
  }

  lemma FinishIsDisciplined(b: Binding, w: Script, s: Garage, from: nat)
    requires Disciplined(b, s.log, from) && from <= |s.log|
    ensures var r := Finished(b, w, s);
            && s.log < r.s.log && Disciplined(b, r.s.log, from)
  {
    hide Answer, Refreshed, Permitted, DoorOpened, DoorClosed, Movable, BlockedReason;
    Looked(b, w, s, from);
    LookIsTrue(b, w, s);
    var s1 := Refreshed(b, w, s);
    if s1.taskInProgress && BlockedBy(s1.door).None? && s1.robot.docked {
      if s1.robot.TaskRunning() {
        if !s1.door.OpenConfirmed() {
          OpenedIsDisciplined(b, w, s1, from);
        }
      } else {
        ClosedIsDisciplined(b, w, s1, from);
      }
    }
  }

  // -- whole runs -------------------------------------------------------------

  lemma PassIsDisciplined(b: Binding, w: Script, s: Garage, from: nat)
    requires Disciplined(b, s.log, from) && from <= |s.log|
    ensures var r := Pass(b, w, s);
            s.log < r.s.log && Disciplined(b, r.s.log, from)
  {
    hide Answer, Refreshed, Permitted, CameBack, Departed, Finished, Disciplined;
    Looked(b, w, s, from);
    var s1 := Refreshed(b, w, s);
    Looked(b, w, s1, from);
    var s2 := Refreshed(b, w, s1);
    if IsReturning(s2.robot.state) {
      ReturnIsDisciplined(b, w, s2, from);
    }
    var handled := ReturnHandled(b, w, s1);
    if handled.r.Returned? {
      if !handled.r.value {
        DepartureIsDisciplined(b, w, handled.s, from);
      }
      var departed := if handled.r.value then handled else Departed(b, w, handled.s);
      if departed.r.Returned? {
        FinishIsDisciplined(b, w, departed.s, from);
      }
    }
  }

  lemma {:induction false} RoundsAreDisciplined(b: Binding, w: Script, s: Garage, deadline: real, from: nat)
    requires Disciplined(b, s.log, from) && from <= |s.log|
    ensures var r := Rounds(b, w, s, deadline);
            s.log <= r.s.log && Disciplined(b, r.s.log, from)
    decreases deadline - s.now
  {
    hide Answer, Pass, Disciplined;
    if !w(s.tick).unloaded {
      PassIsDisciplined(b, w, s, from);
      var pass := Pass(b, w, s);
      if pass.r.Returned? && !pass.r.value && pass.s.now < deadline {
        var slept := Slept(w, pass.s, 1.0);
        if slept.r.Returned? {
          RoundsAreDisciplined(b, w, slept.s, deadline, from);
        }
      }
    }
  }

  predicate SawWorking(e: Event)
  {
    e.Seen? && Working(e.moment.robot)
  }

  /** Until the clean is proven to have started, nothing is done but looking. */
  lemma {:induction false} StartOnlyLooks(b: Binding, w: Script, s: Garage, deadline: real, from: nat)
    requires Disciplined(b, s.log, from) && from <= |s.log|
    ensures var r := Started(b, w, s, deadline);
            && s.log <= r.s.log && OnlyLooks(r.s.log, |s.log|) && Disciplined(b, r.s.log, from)
            && (r.r == Returned(true) ==> s.log < r.s.log && SawWorking(r.s.log[|r.s.log| - 1]))
            && (r.r != Returned(true) ==> forall k :: |s.log| <= k < |r.s.log| ==> !SawWorking(r.s.log[k]))
            && (r.r == Returned(false) ==> w(r.s.tick).unloaded || (r.s.now >= deadline && !r.s.taskInProgress))
            && (r.r.Raised? ==> r.r.error.Cancelled?)
    decreases deadline - s.now
  {
    hide Answer, Refreshed, Disciplined, BlockedReason, TrueLook;
    if !w(s.tick).unloaded {
      Looked(b, w, s, from);
      LookIsTrue(b, w, s);
      var s1 := Refreshed(b, w, s);
      if !Working(s1.robot) && s1.now < deadline {
        var slept := Slept(w, s1, 1.0);
        if slept.r.Returned? {
          StartOnlyLooks(b, w, slept.s, deadline, from);
        }
      }
    }
  }

  /** Every event of a whole sequence is permitted by the discipline, in every world. */
  lemma SequenceIsDisciplined(b: Binding, w: Script, s: Garage, timeout: real)
    ensures var r := SequenceRun(b, w, s, timeout);
            s.log <= r.s.log && Disciplined(b, r.s.log, |s.log|)
  {
    hide Started, Rounds, Permitted;
    var from := |s.log|;
    StartOnlyLooks(b, w, s, s.now + START_CONFIRMATION_SECONDS, from);
    var started := Started(b, w, s, s.now + START_CONFIRMATION_SECONDS);
    if started.r == Returned(true) {
      RoundsAreDisciplined(b, w, started.s, s.now + Max(1.0, timeout), from);
    }
  }

  /** No door command, pause or resume comes before the robot has been seen working. */
  lemma NothingBeforeProof(b: Binding, w: Script, s: Garage, timeout: real, i: nat)
    requires |s.log| <= i < |SequenceRun(b, w, s, timeout).s.log|
    requires !SequenceRun(b, w, s, timeout).s.log[i].Seen?
    ensures exists j :: |s.log| <= j < i && SawWorking(SequenceRun(b, w, s, timeout).s.log[j])
  {
    hide Started, Rounds, Permitted;
    var from := |s.log|;
    StartOnlyLooks(b, w, s, s.now + START_CONFIRMATION_SECONDS, from);
    var started := Started(b, w, s, s.now + START_CONFIRMATION_SECONDS);
    assert started.r == Returned(true);
    RoundsAreDisciplined(b, w, started.s, s.now + Max(1.0, timeout), from);
    var j := |started.s.log| - 1;
    assert SequenceRun(b, w, s, timeout).s.log[j] == started.s.log[j];
  }

  /** A clean that is never seen working before the confirmation deadline moves nothing at all. */
  lemma UnprovenCleanMovesNothing(b: Binding, w: Script, s: Garage, timeout: real)
    requires Started(b, w, s, s.now + START_CONFIRMATION_SECONDS).r != Returned(true)
    ensures OnlyLooks(SequenceRun(b, w, s, timeout).s.log, |s.log|)
    ensures forall k :: |s.log| <= k < |SequenceRun(b, w, s, timeout).s.log| ==>
              !SawWorking(SequenceRun(b, w, s, timeout).s.log[k])
  {
    hide Started, Rounds, Permitted;
    StartOnlyLooks(b, w, s, s.now + START_CONFIRMATION_SECONDS, |s.log|);
  }

  /**
   Every close command of a sequence: the robot was seen working earlier in it; the look directly before
   shows a readable door that is not closed and the household's permission; and before that look either the
   robot was docked with its task over, or it was seen outside, paused by this sequence and then seen paused.
   */
  lemma EveryCloseIsJustified(b: Binding, w: Script, s: Garage, timeout: real, i: nat)
    requires |s.log| <= i < |SequenceRun(b, w, s, timeout).s.log|
    requires SequenceRun(b, w, s, timeout).s.log[i] == DoorCommand(Close)
    ensures var log, from := SequenceRun(b, w, s, timeout).s.log, |s.log|;
            && (exists j :: from <= j < i && SawWorking(log[j]))
            && Movable(EventAt(log, from, i - 1), Close) && Readable(b, log[i - 1].moment.door)
            && (|| SawTaskOver(EventAt(log, from, i - 2))
                || (&& SawOutside(EventAt(log, from, i - 4))
                    && EventAt(log, from, i - 3) == Some(Pause(Departure))
                    && SawPaused(EventAt(log, from, i - 2))))
  {
    hide SequenceRun;
    hide Readable, Physical;
    NothingBeforeProof(b, w, s, timeout, i);
    SequenceIsDisciplined(b, w, s, timeout);
    var log := SequenceRun(b, w, s, timeout).s.log;
    assert Permitted(b, log, |s.log|, i) && Permitted(b, log, |s.log|, i - 1);
  }

  /** The robot is let in or released only directly after a look at a door that is physically open. */
  lemma EveryReleaseIsPhysical(b: Binding, w: Script, s: Garage, timeout: real, i: nat)
    requires |s.log| <= i < |SequenceRun(b, w, s, timeout).s.log|
    requires SequenceRun(b, w, s, timeout).s.log[i] == Resume(Return)
    ensures var log, from := SequenceRun(b, w, s, timeout).s.log, |s.log|;
            && Saw(EventAt(log, from, i - 1)) && Physical(b, Open, log[i - 1].moment.door)
            && exists p :: HeldSince(log, from, p, i, Return)
  {
    hide SequenceRun, Physical;
    SequenceIsDisciplined(b, w, s, timeout);
    var log := SequenceRun(b, w, s, timeout).s.log;
    assert Permitted(b, log, |s.log|, i) && Permitted(b, log, |s.log|, i - 1);
  }
}
