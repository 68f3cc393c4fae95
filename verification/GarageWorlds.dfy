/** Worlds that can really happen: what they show about when the protocol can succeed and how it can fail. */
module GarageWorlds {
  import opened Common
  import opened GarageBinding
  import opened GarageConfig
  import opened DoorEvidence
  import opened DoorHistory
  import opened RobotStates
  import opened GarageDoor
  import opened GarageRuntime
  import opened GarageSafety
  import opened GarageOutcomes
  import opened WaitSucceeds
  import opened StandingDoor

  // -- when a clean can be sent -----------------------------------------------

  lemma {:induction false} WaitIsNotCancelled(b: Binding, w: Script, s: Garage, d: Direction, deadline: real)
    requires forall t: nat :: w(t).failure.None?
    ensures var r := Waited(b, w, s, d, deadline).r;
            r.Raised? ==> !r.error.Cancelled?
    decreases (deadline - s.now) * 5.0
  {
    hide Answer, Refreshed;
    var s1 := Refreshed(b, w, s);
    if !EndpointConfirmed(s1.door, d) && s1.now < deadline {
      WaitIsNotCancelled(b, w, Slept(w, s1, 0.2).s, d, deadline);
    }
  }

  /** In a world where nothing fails and the door gets where it is sent, a door command succeeds. */
  lemma MoveSucceeds(b: Binding, supported: bool, w: Script, s: Garage, d: Direction)
    requires IsEnabled(b) && Acceptable(b, supported) && Sound(s.evidence, s.now)
    requires forall t: nat :: w(t).failure.None?
    requires forall t :: s.tick < t ==> AtEndpoint(b, d, w(t).door)
    ensures Reported(Moved(b, w, s, d)).r.Returned?
  {
    hide Waited, AtEndpoint, Acceptable;
    MovedDoorIsConfirmed(b, supported, w, s, d);
    ValidTimings(b, supported, OperationTimeout);
    var called := Called(w, s.(evidence := Invalidated(s.evidence)), DoorCommand(d));
    WaitIsNotCancelled(b, w, called.s, d, called.s.now + b[OperationTimeout].n);
  }

  lemma OpeningSucceeds(b: Binding, supported: bool, w: Script, s: Garage)
    requires IsEnabled(b) && Acceptable(b, supported) && Sound(s.evidence, s.now)
    requires Is(b, Source(Open), "contact") || MeasuredSource(b, Open)
    requires forall t: nat :: w(t) == AtRestAt(b, Open)
    ensures DoorOpened(b, w, s).r.Returned?
  {
    StandingIsAtEndpoint(b, supported, Open);
    StandingIsReadable(b, supported, s.evidence, s.now, Open);
    AnswerStaysSound(b, s.evidence, s.now, Standing(b, Open));
    LookIsTrue(b, w, s);
    var s1 := Refreshed(b, w, s);
    MoveSucceeds(b, supported, w, s1.(phase := Opening), Open);
    hide Answer, AtEndpoint, Standing, Moved, BlockedReason, Acceptable, MeasuredSource;
  }

  /** Exactly: there is a world in which a clean is sent if and only if the open endpoint has a physical source. */
  lemma CleanCanBeSentExactly(b: Binding, supported: bool, s: Garage, kind: CommandKind)
    requires IsEnabled(b) && Acceptable(b, supported) && Sound(s.evidence, s.now) && StartsSequence(kind)
    ensures (Is(b, Source(Open), "contact") || MeasuredSource(b, Open))
            <==> exists w: Script :: CommandSent(b, w, s, kind).r.Returned?
  {
    hide DoorOpened, MeasuredSource, Acceptable, Sound;
    if Is(b, Source(Open), "contact") || MeasuredSource(b, Open) {
      var w: Script := t => AtRestAt(b, Open);
      OpeningSucceeds(b, supported, w, s);
      assert CommandSent(b, w, s, kind).r.Returned?;
    } else {
      forall w: Script
        ensures !CommandSent(b, w, s, kind).r.Returned?
      {
        EstimatedDoorNeverReleases(b, w, s, kind);
      }
    }
  }

  // -- unloading while the robot is held --------------------------------------

  /** The suspension during which the runtime is unloaded is cancelled by that. */
  predicate UnloadCancels(w: Script, t: nat)
  {
    !w(t).unloaded && w(t + 1).unloaded ==> w(t).failure == Some(Cancelled)
  }

  /** Unloading always cancels the running sequence. */
  ghost predicate Orderly(w: Script)
  {
    forall t: nat :: UnloadCancels(w, t)
  }

  lemma {:induction false} WaitEndsLoaded(b: Binding, w: Script, s: Garage, d: Direction, deadline: real)
    requires Orderly(w) && !w(s.tick).unloaded
    ensures var r := Waited(b, w, s, d, deadline);
            w(r.s.tick).unloaded ==> r.r == Raised(Cancelled)
    decreases (deadline - s.now) * 5.0
  {
    hide Answer;
    assert UnloadCancels(w, s.tick);
    var s1 := Refreshed(b, w, s);
    if !EndpointConfirmed(s1.door, d) && s1.now < deadline {
      var slept := Slept(w, s1, 0.2);
      if slept.r.Returned? {
        WaitEndsLoaded(b, w, slept.s, d, deadline);
      }
    }
  }

  lemma CloseEndsLoaded(b: Binding, w: Script, s: Garage)
    requires Orderly(w) && !w(s.tick).unloaded
    ensures var r := DoorClosed(b, w, s);
            w(r.s.tick).unloaded ==> r.r == Raised(Cancelled)
  {
    hide Answer, Waited, BlockedReason, Orderly;
    assert UnloadCancels(w, s.tick) by { UnloadCancelsAt(w, s.tick); }
    var s1 := Refreshed(b, w, s).(phase := Closing);
    var called := Called(w, s1.(evidence := Invalidated(s1.evidence)), DoorCommand(Close));
    var timeout := OperationSeconds(b);
    if called.r.Returned? && timeout.Some? {
      WaitEndsLoaded(b, w, called.s, Close, called.s.now + timeout.value);
    }
  }

  lemma UnloadCancelsAt(w: Script, t: nat)
    requires Orderly(w)
    ensures UnloadCancels(w, t)
  {
  }

  /** A held robot misses its resume only if the attempt to close was cancelled by the unloading. */
  lemma LostResumeWasCancelled(b: Binding, w: Script, s: Garage)
    requires Orderly(w) && Held(b, w, s) && w(AttemptEnd(b, w, s).tick).unloaded
    ensures DoorClosed(b, w, HeldGarage(b, w, s)).r == Raised(Cancelled)
  {
    hide Answer, DoorClosed;
    UnloadCancelsAt(w, s.tick);
    CloseEndsLoaded(b, w, HeldGarage(b, w, s));
  }

  /** The robot is held before a readable open door; the command to close is cancelled, and the runtime is gone. */
  function Shutdown(b: Binding, start: nat): Script
  {
    (t: nat) =>
      Moment(
        Standing(b, Open), Robot(Paused, false, true, true, Some(true), Some(true)), true, t >= start + 2,
        if t == start + 1 then Some(Cancelled) else None, 0.0)
  }

  /**
   It happens: every accepted binding and every sound state have an orderly world in which unloading comes
   while the door is commanded, and the robot stays paused, without a resume.
   */
  lemma UnloadingLeavesRobotPaused(b: Binding, supported: bool, s: Garage)
    requires IsEnabled(b) && Acceptable(b, supported) && Sound(s.evidence, s.now)
    ensures var w := Shutdown(b, s.tick);
            var r := PausedClosedResumed(b, w, s);
            && Orderly(w) && Held(b, w, s)
            && r.r == Raised(Refused(ControlUnloaded))
            && |r.s.log| == |s.log| + 4 && s.log + [Pause(Departure)] < r.s.log
            && r.s.log[|s.log| + 3] == DoorCommand(Close)
            && forall k :: |s.log| <= k < |r.s.log| ==> !r.s.log[k].Resume?
  {
    var w := Shutdown(b, s.tick);
    var paused := AskedRobot(w, s.(phase := PausingExit), Pause(Departure));
    LookIsTrue(b, w, paused.s);
    var s1 := Refreshed(b, w, paused.s);
    hide Answer, Standing, BlockedReason, Acceptable, Waited;
    AnswerStaysSound(b, paused.s.evidence, paused.s.now, Standing(b, Open));
    LookIsTrue(b, w, s1);
    StandingIsReadable(b, supported, s1.evidence, s1.now, Open);
  }

  // -- after the door has been closed behind the robot ------------------------

  ghost predicate NeverReturning(w: Script)
  {
    forall t: nat :: !IsReturning(w(t).robot.state)
  }

  /** From `before` to `after` no open command was added. */
  predicate NoOpening(before: seq<Event>, after: seq<Event>)
  {
    before <= after && forall k :: |before| <= k < |after| ==> after[k] != DoorCommand(Open)
  }

  lemma NoOpeningGoesOn(a: seq<Event>, b: seq<Event>, c: seq<Event>)
    requires NoOpening(a, b) && NoOpening(b, c)
    ensures NoOpening(a, c)
  {
    assert forall k :: 0 <= k < |b| ==> c[k] == b[k];
  }

  lemma ClosingNeverOpens(b: Binding, w: Script, s: Garage)
    ensures NoOpening(s.log, DoorClosed(b, w, s).s.log)
  {
    ClosingConfirms(b, w, s);
    hide DoorClosed;
  }

  lemma PausingNeverOpens(b: Binding, w: Script, s: Garage)
    ensures NoOpening(s.log, PausedClosedResumed(b, w, s).s.log)
  {
    hide Answer, Refreshed, DoorClosed, NoOpening;
    var paused := AskedRobot(w, s.(phase := PausingExit), Pause(Departure));
    RecordsNoOpening(s.log, paused.s.log);
    LookIsTrue(b, w, paused.s);
    var held := Refreshed(b, w, paused.s);
    var tried := DoorClosed(b, w, held).s;
    ClosingNeverOpens(b, w, held);
    assert NoOpening(s.log, held.log) by { RecordsNoOpening(s.log, held.log); }
    NoOpeningGoesOn(s.log, held.log, tried.log);
    RecordsNoOpening(tried.log, tried.log + [Resume(Departure)]);
    NoOpeningGoesOn(s.log, tried.log, tried.log + [Resume(Departure)]);
  }

  /** Looks, pauses and resumes open nothing. */
  lemma RecordsNoOpening(before: seq<Event>, after: seq<Event>)
    requires before <= after && forall k :: |before| <= k < |after| ==> !after[k].DoorCommand?
    ensures NoOpening(before, after)
  {
  }

  lemma DepartureNeverOpens(b: Binding, w: Script, s: Garage)
    requires !s.taskInProgress
    ensures var r := Departed(b, w, s);
            NoOpening(s.log, r.s.log) && !r.s.taskInProgress
  {
    hide Answer, Refreshed, PausedClosedResumed, BlockedBy, NoOpening;
    LookIsTrue(b, w, s);
    var s1 := Refreshed(b, w, s);
    RecordsNoOpening(s.log, s1.log);
    PausingNeverOpens(b, w, s1);
    PausingKeepsFlag(b, w, s1);
    NoOpeningGoesOn(s.log, s1.log, PausedClosedResumed(b, w, s1).s.log);
  }

  lemma PassNeverOpens(b: Binding, w: Script, s: Garage)
    requires !s.taskInProgress && NeverReturning(w)
    ensures var r := Pass(b, w, s);
            NoOpening(s.log, r.s.log) && !r.s.taskInProgress && r.r != Returned(true)
  {
    hide Answer, Refreshed, CameBack, Departed, DoorOpened, DoorClosed;
    LookIsTrue(b, w, s);
    var s1 := Refreshed(b, w, s);
    LookIsTrue(b, w, s1);
    assert !IsReturning(w(s.tick).robot.state);
    var departed := Departed(b, w, Refreshed(b, w, s1));
    DepartureNeverOpens(b, w, Refreshed(b, w, s1));
    LookIsTrue(b, w, departed.s);
  }

  /**
   The rest of a sequence whose task flag is not set, in any world that never shows the robot returning:
   the door is not opened again, the flag stays unset, and the end comes by the deadline or by unloading.
   */
  lemma {:induction false} WithoutReturnNothingReopens(b: Binding, w: Script, s: Garage, deadline: real)
    requires !s.taskInProgress && NeverReturning(w)
    ensures var r := Rounds(b, w, s, deadline);
            && NoOpening(s.log, r.s.log) && !r.s.taskInProgress
            && (r.r.Returned? ==> w(r.s.tick).unloaded || r.s.now >= deadline)
    decreases deadline - s.now
  {
    hide Pass, NeverReturning;
    if !w(s.tick).unloaded {
      PassNeverOpens(b, w, s);
      var pass := Pass(b, w, s);
      if pass.r.Returned? && pass.s.now < deadline {
        var slept := Slept(w, pass.s, 1.0);
        if slept.r.Returned? {
          WithoutReturnNothingReopens(b, w, slept.s, deadline);
        }
      }
    }
  }
}
