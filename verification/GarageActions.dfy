/**
 What each operation does and does not do, told by its record alone: which look makes it act, which command
 follows, how long it waits, and what it answers.
 */
module GarageActions {
  import opened Common
  import opened GarageBinding
  import opened DoorEvidence
  import opened DoorHistory
  import opened RobotStates
  import opened GarageDoor
  import opened GarageRuntime
  import opened GarageSafety
  import opened GarageOutcomes
  import opened GarageReleases

  /** Between the two records, `e` was added. */
  predicate Issues(before: seq<Event>, after: seq<Event>, e: Event)
  {
    exists k :: |before| <= k < |after| && after[k] == e
  }

  // -- what the controller goes by --------------------------------------------

  /** The task is over only if that is reported, or if nothing is reported of it and the robot is parked. */
  lemma TaskOverExactly(robot: Robot)
    ensures !robot.TaskRunning()
            <==> || robot.taskActive == Some(false)
                 || (robot.taskActive.None? && robot.state in {Charging, ChargingComplete, Idle})
  {
  }

  lemma WorkingExactly(robot: Robot)
    ensures Working(robot)
            <==> && !robot.docked
                 && (|| robot.taskActive == Some(true)
                     || (robot.taskActive.None? && robot.state !in {Charging, ChargingComplete, Idle}))
    ensures InDoorway(robot)
            <==> robot.isFresh && robot.positionTrusted && robot.outsideDangerZone == Some(false) && !robot.docked
  {
  }

  lemma OutsideExactly(robot: Robot)
    ensures robot.Outside()
            <==> robot.isFresh && robot.positionTrusted && robot.outsideDangerZone == Some(true) && !robot.docked
  {
  }

  /** The order in which reasons are named when the door cannot be acted on. */
  const REASONS := [EndpointConflict, FeedbackUnavailable, RestoredSnapshot, InvalidConfiguration, InvalidClock]

  /** The reason named is that of an endpoint, and none before it in the order is; a lost cover goes first. */
  lemma BlockedReasonIsFirst(open: Endpoint, close: Endpoint, coverAvailable: bool, i: nat)
    requires i < |REASONS|
    ensures !coverAvailable ==> BlockedReason(open, close, coverAvailable) == Some(FeedbackUnavailable)
    ensures coverAvailable ==>
              (BlockedReason(open, close, true) == Some(REASONS[i])
               <==> && Some(REASONS[i]) in [open.reason, close.reason]
                    && forall j :: 0 <= j < i ==> Some(REASONS[j]) !in [open.reason, close.reason])
  {
    assert REASONS[0] == EndpointConflict && REASONS[1] == FeedbackUnavailable && REASONS[2] == RestoredSnapshot;
    assert REASONS[3] == InvalidConfiguration && REASONS[4] == InvalidClock;
    assert i == 0 || i == 1 || i == 2 || i == 3 || i == 4;
  }

  // -- waiting ----------------------------------------------------------------

  /**
   Looks from `first` to the end of the record: 0.2 seconds apart plus the lag of each stretch, and all but
   the last before the deadline and without the endpoint.
   */
  predicate Polls(log: seq<Event>, first: nat, d: Direction, deadline: real)
  {
    && first < |log| && (forall k :: first <= k < |log| ==> log[k].Seen?)
    && forall k :: first <= k < |log| - 1 ==>
         && log[k].now < deadline && !Shows(log[k], d)
         && log[k + 1].now == log[k].now + 0.2 + log[k].moment.lag
  }

  lemma PollsFromNext(log: seq<Event>, first: nat, d: Direction, deadline: real)
    requires first + 1 < |log| && Polls(log, first + 1, d, deadline)
    requires log[first].Seen? && log[first].now < deadline && !Shows(log[first], d)
    requires log[first + 1].now == log[first].now + 0.2 + log[first].moment.lag
    ensures Polls(log, first, d, deadline)
  {
  }

  /** Waiting gives up only at the deadline, and stops there; a cancellation alone ends it earlier. */
  lemma {:induction false} WaitingIsTimed(b: Binding, w: Script, s: Garage, d: Direction, deadline: real)
    ensures var r := Waited(b, w, s, d, deadline);
            && s.log < r.s.log && Polls(r.s.log, |s.log|, d, deadline) && r.s.log[|s.log|].now == s.now
            && var last := r.s.log[|r.s.log| - 1];
               && (r.r.Returned? <==> Shows(last, d))
               && (!r.r.Raised? || !r.r.error.Cancelled? ==> last.moment == w(r.s.tick))
               && (r.r.Raised? ==>
                     if r.r.error.Cancelled? then last.now < deadline && last.moment.failure == Some(Cancelled)
                     else r.r.error == Refused(NotConfirmed(d)) && last.now >= deadline)
    decreases (deadline - s.now) * 5.0
  {
    hide Answer, Refreshed, Polls;
    LookIsTrue(b, w, s);
    var s1 := Refreshed(b, w, s);
    if !EndpointConfirmed(s1.door, d) && s1.now < deadline {
      var slept := Slept(w, s1, 0.2);
      if slept.r.Returned? {
        WaitingIsTimed(b, w, slept.s, d, deadline);
        var log := Waited(b, w, slept.s, d, deadline).s.log;
        assert log[|s.log|] == s1.log[|s.log|];
        PollsFromNext(log, |s.log|, d, deadline);
      } else {
        LonePoll(s1.log, |s.log|, d, deadline);
      }
    } else {
      LonePoll(s1.log, |s.log|, d, deadline);
    }
  }

  lemma LonePoll(log: seq<Event>, first: nat, d: Direction, deadline: real)
    requires |log| == first + 1 && log[first].Seen?
    ensures Polls(log, first, d, deadline)
  {
  }

  /** How many seconds an endpoint is waited for. */
  lemma OperationSecondsExactly(b: Binding)
    ensures OperationTimeout !in b ==> OperationSeconds(b) == Some(90.0)
    ensures OperationTimeout in b && b[OperationTimeout].Number? ==> OperationSeconds(b) == Some(b[OperationTimeout].n)
  {
  }

  /**
   A door command: recorded before it can fail; a failure is reported at once and a fault by its code; otherwise
   the endpoint is polled for the operation timeout, counted from when the command returned.
   */
  lemma MoveExactly(b: Binding, w: Script, s: Garage, d: Direction)
    ensures var r := Reported(Moved(b, w, s, d));
            var failure := w(s.tick).failure;
            var timeout := OperationSeconds(b);
            && s.log + [DoorCommand(d)] <= r.s.log
            && (failure.Some? ==>
                  && r.s.log == s.log + [DoorCommand(d)]
                  && r.r == Raised(match failure.value
                                   case Fault(code) => Refused(if code.Some? then code.value else DoorCommandFailed)
                                   case e => e))
            && (failure.None? && timeout.Some? ==>
                  var first, deadline := |s.log| + 1, s.now + w(s.tick).lag + timeout.value;
                  && Polls(r.s.log, first, d, deadline) && r.s.log[first].now == s.now + w(s.tick).lag
                  && var last := r.s.log[|r.s.log| - 1];
                     && (r.r.Returned? <==> Shows(last, d))
                     && (r.r.Returned? ==> last.moment == w(r.s.tick))
                     && (r.r.Raised? && !r.r.error.Cancelled? ==>
                           r.r.error == Refused(NotConfirmed(d)) && last.now >= deadline))
            && (failure.None? && timeout.None? ==>
                  r.s.log == s.log + [DoorCommand(d)] && r.r == Raised(Refused(DoorCommandFailed)))
            && (r.r.Raised? && failure.Some? && failure.value.Fault? ==>
                  r.s.phase == Blocked && Raised(Refused(r.s.lastError.value)) == r.r)
  {
    hide Waited, Polls;
    var called := Called(w, s.(evidence := Invalidated(s.evidence)), DoorCommand(d));
    var timeout := OperationSeconds(b);
    if called.r.Returned? && timeout.Some? {
      WaitingIsTimed(b, w, called.s, d, called.s.now + timeout.value);
    }
  }

  // -- opening and closing ----------------------------------------------------

  /** After one look: commanded exactly when readable and not open; refused with its reason, or done, otherwise. */
  lemma OpeningActsExactly(b: Binding, w: Script, s: Garage)
    ensures var s1, r := Refreshed(b, w, s), DoorOpened(b, w, s);
            var blocked := BlockedBy(s1.door);
            && s1.log <= r.s.log
            && (Issues(s.log, r.s.log, DoorCommand(Open)) <==> blocked.None? && !s1.door.OpenConfirmed())
            && (blocked.Some? ==>
                  && r.s.log == s1.log && r.r == Raised(Refused(DoorBlocked(blocked.value)))
                  && r.s.phase == Blocked && r.s.lastError == Some(DoorBlocked(blocked.value)))
            && (blocked.None? && s1.door.OpenConfirmed() ==> r.s.log == s1.log && r.r.Returned?)
            && (r.r.Returned? ==> r.s.phase == Outside && r.s.lastError.None? && r.s.taskInProgress)
  {
    hide Refreshed, Moved, BlockedBy;
    LookIsTrue(b, w, s);
    var s1 := Refreshed(b, w, s);
    MovingShows(b, w, s1.(phase := Opening), Open);
    var moved := Reported(Moved(b, w, s1.(phase := Opening), Open)).s;
    assert moved.log[|s1.log|] == DoorCommand(Open);
  }

  /** After one look: commanded exactly when readable, permitted and not closed. */
  lemma ClosingActsExactly(b: Binding, w: Script, s: Garage)
    ensures var s1, r := Refreshed(b, w, s), DoorClosed(b, w, s);
            var blocked := BlockedBy(s1.door);
            && s1.log <= r.s.log
            && (Issues(s.log, r.s.log, DoorCommand(Close))
                <==> blocked.None? && w(s.tick).closeAllowed && !s1.door.ClosedConfirmed())
            && (blocked.Some? ==>
                  && r.s.log == s1.log && r.r == Raised(Refused(DoorBlocked(blocked.value)))
                  && r.s.phase == Blocked && r.s.lastError == Some(DoorBlocked(blocked.value)))
            && (blocked.None? && !w(s.tick).closeAllowed ==>
                  r.s.log == s1.log && r.r == Raised(Refused(CloseNotAllowed)))
            && (blocked.None? && w(s.tick).closeAllowed && s1.door.ClosedConfirmed() ==>
                  r.s.log == s1.log && r.r.Returned? && r.s.phase == AtRest)
            && (r.r.Returned? ==> r.s.lastError.None?)
  {
    hide Refreshed, Moved, BlockedBy;
    LookIsTrue(b, w, s);
    var s1 := Refreshed(b, w, s);
    MovingShows(b, w, s1.(phase := Closing), Close);
    var moved := Reported(Moved(b, w, s1.(phase := Closing), Close)).s;
    assert moved.log[|s1.log|] == DoorCommand(Close);
  }

  // -- departure --------------------------------------------------------------

  /** What the controller has after the pause on departure and the look after it. */
  lemma DepartureActsExactly(b: Binding, w: Script, s: Garage)
    ensures var s1, r := Refreshed(b, w, s), Departed(b, w, s);
            && s1.log <= r.s.log
            && (Issues(s.log, r.s.log, Pause(Departure))
                <==> && s1.robot.Outside() && !s1.door.ClosedConfirmed() && BlockedBy(s1.door).None?
                     && !w(s.tick).unloaded)
            && (r.r.Returned? ==> (r.r.value <==> s1.robot.Outside()))
            && (!s1.robot.Outside() ==> r.s == s1)
            && (s1.robot.Outside() && s1.door.ClosedConfirmed() ==> r.s == s1.(phase := ClosedOutside))
            && (s1.robot.Outside() && !s1.door.ClosedConfirmed() && BlockedBy(s1.door).Some? ==>
                  r.s == s1.(phase := Blocked))
  {
    hide Refreshed, PausedClosedResumed, BlockedBy;
    LookIsTrue(b, w, s);
    PausingActs(b, w, Refreshed(b, w, s));
  }

  lemma PausingActs(b: Binding, w: Script, s: Garage)
    ensures var r := PausedClosedResumed(b, w, s);
            && s.log <= r.s.log
            && (!w(s.tick).unloaded ==> |r.s.log| > |s.log| && r.s.log[|s.log|] == Pause(Departure))
            && (w(s.tick).unloaded ==> r.s.log == s.log && r.r == Raised(Refused(ControlUnloaded)))
  {
    hide Refreshed, DoorClosed;
    var paused := AskedRobot(w, s.(phase := PausingExit), Pause(Departure));
    LookIsTrue(b, w, paused.s);
    ClosingConfirms(b, w, Refreshed(b, w, paused.s));
  }

  /**
   How a departure that paused the robot ends: with the door closed, the flag cleared and a phase that says so
   exactly when the attempt to close succeeded; otherwise blocked, with the refusal on record.
   */
  lemma DepartureTellsOutcome(b: Binding, w: Script, s: Garage)
    requires var s1 := Refreshed(b, w, s);
             s1.robot.Outside() && !s1.door.ClosedConfirmed() && BlockedBy(s1.door).None? && Held(b, w, s1)
    requires Departed(b, w, s).r.Returned?
    ensures var r, tried := Departed(b, w, s), DoorClosed(b, w, HeldGarage(b, w, Refreshed(b, w, s)));
            && (r.s.phase == ClosedOutside <==> tried.r.Returned?)
            && (tried.r.Returned? ==> !r.s.taskInProgress && EndpointConfirmed(r.s.door, Close))
            && (tried.r.Raised? ==>
                  && r.s.phase == Blocked && r.s.taskInProgress == s.taskInProgress
                  && tried.r.error.Refused? && r.s.lastError == Some(tried.r.error.refusal))
  {
    hide Refreshed, DoorClosed, BlockedBy;
    LookIsTrue(b, w, s);
    var s1 := Refreshed(b, w, s);
    var paused := AskedRobot(w, s1.(phase := PausingExit), Pause(Departure));
    LookIsTrue(b, w, paused.s);
    ClosingConfirms(b, w, HeldGarage(b, w, s1));
  }

  /** A pause that is not seen on departure leaves a note and a blocked phase, and the flag as it was. */
  lemma UnseenPauseIsTold(b: Binding, w: Script, s: Garage)
    requires var s1 := Refreshed(b, w, s);
             && s1.robot.Outside() && !s1.door.ClosedConfirmed() && BlockedBy(s1.door).None?
             && AskedRobot(w, s1.(phase := PausingExit), Pause(Departure)).r.Returned? && !Held(b, w, s1)
    ensures var r := Departed(b, w, s);
            && r.r == Returned(true) && r.s.log == HeldGarage(b, w, Refreshed(b, w, s)).log
            && r.s.phase == Blocked && r.s.lastError == Some(PauseNotObserved)
            && r.s.taskInProgress == s.taskInProgress
  {
    hide Refreshed, BlockedBy, DoorClosed;
    LookIsTrue(b, w, s);
    var s1 := Refreshed(b, w, s);
    LookIsTrue(b, w, AskedRobot(w, s1.(phase := PausingExit), Pause(Departure)).s);
  }

  // -- the way back -----------------------------------------------------------

  /** The robot is paused on its way back exactly when it is seen returning, the door not open, the runtime loaded. */
  lemma ReturnActsExactly(b: Binding, w: Script, s: Garage)
    ensures var s1, r := Refreshed(b, w, s), CameBack(b, w, s);
            && s1.log <= r.s.log
            && (Issues(s.log, r.s.log, Pause(Return))
                <==> IsReturning(s1.robot.state) && !s1.door.OpenConfirmed() && !w(s.tick).unloaded)
            && (!(IsReturning(s1.robot.state) && !s1.door.OpenConfirmed()) ==> r.s == s1 && r.r.Returned?)
  {
    hide Refreshed, OpenedAndResumed;
    LookIsTrue(b, w, s);
    var s1 := Refreshed(b, w, s);
    var paused := AskedRobot(w, s1.(phase := PausingReturn), Pause(Return));
    LookIsTrue(b, w, paused.s);
    LettingInAdds(b, w, Refreshed(b, w, paused.s));
    if IsReturning(s1.robot.state) && !s1.door.OpenConfirmed() && !w(s.tick).unloaded {
      assert paused.s.log[|s1.log|] == Pause(Return);
      assert CameBack(b, w, s).s.log[|s1.log|] == Pause(Return);
    }
  }

  lemma LettingInAdds(b: Binding, w: Script, s: Garage)
    ensures s.log <= OpenedAndResumed(b, w, s).s.log
  {
    hide DoorOpened;
    OpeningConfirms(b, w, s.(phase := Opening));
  }

  /** The controller after it has paused a returning robot and looked. */
  function HeldOnWayBack(b: Binding, w: Script, s: Garage): Garage
  {
    Refreshed(b, w, AskedRobot(w, s.(phase := PausingReturn), Pause(Return)).s)
  }

  /** The pause on the way back was issued without failing and then seen. */
  predicate HeldBack(b: Binding, w: Script, s: Garage)
  {
    AskedRobot(w, s.(phase := PausingReturn), Pause(Return)).r.Returned? && HeldOnWayBack(b, w, s).robot.state.Paused?
  }

  /**
   A robot held on its way back is asked to go on directly after a confirmed opening if and only if the runtime
   is loaded then; after a failed opening it is not.
   */
  lemma LetInRobotGoesOnUnlessUnloaded(b: Binding, w: Script, s: Garage)
    requires var s1 := Refreshed(b, w, s);
             IsReturning(s1.robot.state) && !s1.door.OpenConfirmed() && HeldBack(b, w, s1)
    ensures var r := CameBack(b, w, s);
            var atOpen := DoorOpened(b, w, HeldOnWayBack(b, w, Refreshed(b, w, s)).(phase := Opening));
            && (atOpen.r.Returned? ==>
                  && (r.s.log == atOpen.s.log + [Resume(Return)] <==> !w(atOpen.s.tick).unloaded)
                  && (w(atOpen.s.tick).unloaded ==> r.s.log == atOpen.s.log && r.r == Raised(Refused(ControlUnloaded)))
                  && (!w(atOpen.s.tick).unloaded && w(atOpen.s.tick).failure.None? ==>
                        r.r.Returned? && r.s.phase == Outside))
            && (atOpen.r.Raised? ==> r == atOpen)
  {
    hide Refreshed, DoorOpened;
  }

  /** A pause that is not seen on the way back is refused by name. */
  lemma UnseenPauseIsRefused(b: Binding, w: Script, s: Garage)
    requires var s1 := Refreshed(b, w, s);
             && IsReturning(s1.robot.state) && !s1.door.OpenConfirmed()
             && AskedRobot(w, s1.(phase := PausingReturn), Pause(Return)).r.Returned? && !HeldBack(b, w, s1)
    ensures CameBack(b, w, s).r == Raised(Refused(PauseNotObserved))
    ensures CameBack(b, w, s).s.log == HeldOnWayBack(b, w, Refreshed(b, w, s)).log
  {
    hide Refreshed;
  }

  // -- the end-of-task table --------------------------------------------------

  /** The table ends the sequence exactly for a flagged task that is over with the robot docked; all else goes on. */
  lemma FinishAnswersExactly(b: Binding, w: Script, s: Garage)
    ensures var s1, r := Refreshed(b, w, s), Finished(b, w, s);
            && s1.log <= r.s.log
            && (r.r.Returned? ==> (r.r.value <==> s.taskInProgress && s1.robot.docked && !s1.robot.TaskRunning()))
            && (r.r.Raised? ==> r.r.error.Cancelled?)
            && (r.r.Returned? ==> (r.s.taskInProgress <==> s.taskInProgress && !r.r.value))
  {
    hide Refreshed, DoorOpened, DoorClosed, BlockedBy;
    LookIsTrue(b, w, s);
    var s1 := Refreshed(b, w, s);
    OpeningConfirms(b, w, s1);
    ClosingConfirms(b, w, s1);
    OpeningNeverFaults(b, w, s1);
    ClosingNeverFaults(b, w, s1);
  }

  lemma OpeningNeverFaults(b: Binding, w: Script, s: Garage)
    ensures DoorOpened(b, w, s).r.Raised? ==> !DoorOpened(b, w, s).r.error.Fault?
  {
    hide Refreshed, Moved, BlockedBy;
  }

  lemma ClosingNeverFaults(b: Binding, w: Script, s: Garage)
    ensures DoorClosed(b, w, s).r.Raised? ==> !DoorClosed(b, w, s).r.error.Fault?
  {
    hide Refreshed, Moved, BlockedBy;
  }

  /** Where the table attempts nothing it changes nothing but the readings, and what tells the end or the block. */
  lemma FinishLeavesTheRest(b: Binding, w: Script, s: Garage)
    ensures var s1, r := Refreshed(b, w, s), Finished(b, w, s);
            var running, blocked := s1.robot.TaskRunning(), BlockedBy(s1.door).Some?;
            && (!s.taskInProgress || !s1.robot.docked || (running && s1.door.OpenConfirmed()) ==>
                  r == Step(s1, Returned(false)))
            && (s.taskInProgress && s1.robot.docked && running && !s1.door.OpenConfirmed() && blocked ==>
                  r == Step(s1.(phase := Blocked), Returned(false)))
            && (s.taskInProgress && s1.robot.docked && !running && s1.door.ClosedConfirmed() ==>
                  r == Step(s1.(taskInProgress := false, phase := AtRest), Returned(true)))
            && (s.taskInProgress && s1.robot.docked && !running && !s1.door.ClosedConfirmed() && blocked ==>
                  r == Step(s1.(taskInProgress := false, phase := Blocked), Returned(true)))
  {
    LookIsTrue(b, w, s);
    hide Refreshed, DoorOpened, DoorClosed, BlockedBy;
  }

  /** A refused attempt of the table leaves its refusal on record and the phase blocked; a closed door, at rest. */
  lemma FinishTellsOutcome(b: Binding, w: Script, s: Garage)
    requires s.taskInProgress && Refreshed(b, w, s).robot.docked && BlockedBy(Refreshed(b, w, s).door).None?
    ensures var s1, r := Refreshed(b, w, s), Finished(b, w, s);
            && (s1.robot.TaskRunning() && !s1.door.OpenConfirmed() ==>
                  var tried := DoorOpened(b, w, s1).r;
                  && (tried.Returned? ==> r.s.phase == Outside && r.s.lastError.None?)
                  && (tried.Raised? && tried.error.Refused? ==>
                        r.s.phase == Blocked && r.s.lastError == Some(tried.error.refusal)))
            && (!s1.robot.TaskRunning() && !s1.door.ClosedConfirmed() ==>
                  var tried := DoorClosed(b, w, s1).r;
                  && (tried.Returned? ==> r.s.phase == AtRest && r.s.lastError.None?)
                  && (tried.Raised? && tried.error.Refused? ==>
                        r.s.phase == Blocked && r.s.lastError == Some(tried.error.refusal)))
  {
    hide Refreshed, DoorOpened, DoorClosed, BlockedBy;
    LookIsTrue(b, w, s);
    OpeningActsExactly(b, w, Refreshed(b, w, s));
    ClosingActsExactly(b, w, Refreshed(b, w, s));
  }

  /**
   When the first look can be read, the table opens exactly for a flagged task still running with the robot docked
   and the door not open, and closes exactly for one that is over, with permission and the door not closed.
   */
  lemma FinishActsExactly(b: Binding, w: Script, s: Garage)
    requires BlockedBy(Refreshed(b, w, s).door).None?
    ensures var s1, r := Refreshed(b, w, s), Finished(b, w, s);
            && (Issues(s.log, r.s.log, DoorCommand(Open))
                <==> s.taskInProgress && s1.robot.docked && s1.robot.TaskRunning() && !s1.door.OpenConfirmed())
            && (Issues(s.log, r.s.log, DoorCommand(Close))
                <==> && s.taskInProgress && s1.robot.docked && !s1.robot.TaskRunning() && !s1.door.ClosedConfirmed()
                     && w(s.tick).closeAllowed)
  {
    hide Refreshed, DoorOpened, DoorClosed, BlockedBy;
    LookIsTrue(b, w, s);
    LookingAgain(b, w, s);
    var s1 := Refreshed(b, w, s);
    OpeningConfirms(b, w, s1);
    ClosingConfirms(b, w, s1);
    OpeningActsExactly(b, w, s1);
    ClosingActsExactly(b, w, s1);
    IssuedLater(s.log, s1.log, DoorOpened(b, w, s1).s.log, DoorCommand(Open));
    IssuedLater(s.log, s1.log, DoorClosed(b, w, s1).s.log, DoorCommand(Close));
    hide Issues, DoorRun;
    NotIssued(s.log, s1.log, DoorCommand(Open));
    NotIssued(s.log, s1.log, DoorCommand(Close));
    RunsOneWay(s1.log, DoorOpened(b, w, s1).s.log, Open);
    RunsOneWay(s1.log, DoorClosed(b, w, s1).s.log, Close);
    IssuedLater(s.log, s1.log, DoorOpened(b, w, s1).s.log, DoorCommand(Close));
    IssuedLater(s.log, s1.log, DoorClosed(b, w, s1).s.log, DoorCommand(Open));
  }

  /** What was not issued before was issued after, and the other way round. */
  lemma IssuedLater(a: seq<Event>, b: seq<Event>, c: seq<Event>, e: Event)
    requires a <= b <= c && !Issues(a, b, e)
    ensures Issues(a, c, e) <==> Issues(b, c, e)
  {
    if k :| |a| <= k < |c| && c[k] == e {
      assert k < |b| ==> b[k] == c[k];
    }
  }

  lemma NothingIssued(a: seq<Event>, e: Event)
    ensures !Issues(a, a, e)
  {
  }

  lemma NotIssued(a: seq<Event>, b: seq<Event>, e: Event)
    requires a <= b && !e.Seen? && forall k :: |a| <= k < |b| ==> b[k].Seen?
    ensures !Issues(a, b, e)
  {
  }

  lemma RunsOneWay(before: seq<Event>, after: seq<Event>, d: Direction)
    requires DoorRun(before, after, d)
    ensures !Issues(before, after, DoorCommand(Opposite(d)))
  {
  }

  // -- a pass over the rules --------------------------------------------------

  /** All looks of a pass up to the first command are made at the same moment and see the same readable door. */
  lemma LooksOfPass(b: Binding, w: Script, s: Garage)
    requires BlockedBy(Refreshed(b, w, s).door).None?
    ensures var s1 := Refreshed(b, w, s);
            var s2 := Refreshed(b, w, s1);
            var s3 := Refreshed(b, w, s2);
            var s4 := Refreshed(b, w, s3);
            && (forall u :: u in {s2, s3, s4} ==>
                  && u.tick == s.tick && u.now == s.now && u.taskInProgress == s.taskInProgress
                  && u.robot == w(s.tick).robot && BlockedBy(u.door).None?
                  && u.door.open == s1.door.open && u.door.close == s1.door.close)
            && s.log < s1.log < s2.log < s3.log < s4.log && OnlyLooks(s4.log, |s.log|)
  {
    hide Refreshed, BlockedBy;
    LookIsTrue(b, w, s);
    LookingAgain(b, w, s);
    var s1 := Refreshed(b, w, s);
    LookIsTrue(b, w, s1);
    LookingAgain(b, w, s1);
    var s2 := Refreshed(b, w, s1);
    LookIsTrue(b, w, s2);
    LookingAgain(b, w, s2);
    LookIsTrue(b, w, Refreshed(b, w, s2));
  }

  /**
   A pass asks the table. When the door can be read and the robot is on its dock and not returning, it opens
   exactly for a flagged task still running with the door not open, closes exactly for one that is over, with
   permission and the door not closed, and answers that the sequence is over exactly in the latter case.
   */
  lemma PassObeysTable(b: Binding, w: Script, s: Garage)
    requires var s1 := Refreshed(b, w, s);
             s1.robot.docked && !IsReturning(s1.robot.state) && BlockedBy(s1.door).None?
    ensures var s1, r := Refreshed(b, w, s), Pass(b, w, s);
            && (Issues(s.log, r.s.log, DoorCommand(Open))
                <==> s.taskInProgress && s1.robot.TaskRunning() && !s1.door.OpenConfirmed())
            && (Issues(s.log, r.s.log, DoorCommand(Close))
                <==> && s.taskInProgress && !s1.robot.TaskRunning() && !s1.door.ClosedConfirmed()
                     && w(s.tick).closeAllowed)
            && (r.r.Returned? ==> (r.r.value <==> s.taskInProgress && !s1.robot.TaskRunning()))
            && (r.r.Raised? ==> r.r.error.Cancelled?)
  {
    hide Refreshed, BlockedBy, CameBack, PausedClosedResumed, Finished, Issues;
    LooksOfPass(b, w, s);
    LookIsTrue(b, w, s);
    var s1 := Refreshed(b, w, s);
    var s2 := Refreshed(b, w, s1);
    var s3 := Refreshed(b, w, s2);
    assert s2 in {s2, s3, Refreshed(b, w, s3)} && s3 in {s2, s3, Refreshed(b, w, s3)};
    assert Refreshed(b, w, s3) in {s2, s3, Refreshed(b, w, s3)};
    DepartureActsExactly(b, w, s2);
    assert Pass(b, w, s) == Finished(b, w, s3);
    FinishActsExactly(b, w, s3);
    FinishAnswersExactly(b, w, s3);
    var log := Finished(b, w, s3).s.log;
    NotIssued(s.log, s3.log, DoorCommand(Open));
    NotIssued(s.log, s3.log, DoorCommand(Close));
    IssuedLater(s.log, s3.log, log, DoorCommand(Open));
    IssuedLater(s.log, s3.log, log, DoorCommand(Close));
  }

  lemma FinishPausesNothing(b: Binding, w: Script, s: Garage, leg: Leg)
    ensures s.log <= Finished(b, w, s).s.log && !Issues(s.log, Finished(b, w, s).s.log, Pause(leg))
  {
    hide Refreshed, BlockedBy, DoorOpened, DoorClosed;
    LookIsTrue(b, w, s);
    OpeningConfirms(b, w, Refreshed(b, w, s));
    ClosingConfirms(b, w, Refreshed(b, w, s));
  }

  lemma DepartureNeverPausesForReturn(b: Binding, w: Script, s: Garage)
    ensures s.log <= Departed(b, w, s).s.log && !Issues(s.log, Departed(b, w, s).s.log, Pause(Return))
  {
    hide Refreshed, BlockedBy, PausedClosedResumed;
    LookIsTrue(b, w, s);
    PausingNeverPausesForReturn(b, w, Refreshed(b, w, s));
  }

  lemma PausingNeverPausesForReturn(b: Binding, w: Script, s: Garage)
    ensures s.log <= PausedClosedResumed(b, w, s).s.log
    ensures !Issues(s.log, PausedClosedResumed(b, w, s).s.log, Pause(Return))
  {
    hide Refreshed, DoorClosed, DoorRun, Issues;
    var paused := AskedRobot(w, s.(phase := PausingExit), Pause(Departure));
    LookIsTrue(b, w, paused.s);
    var held := Refreshed(b, w, paused.s);
    ClosingConfirms(b, w, held);
    var tried := DoorClosed(b, w, held).s.log;
    OthersIssued(s.log, paused.s.log, Pause(Return));
    OthersIssued(s.log, held.log, Pause(Return));
    RunPausesNothing(held.log, tried, Close, Return);
    NotIssuedAfter(s.log, held.log, tried, Pause(Return));
    OthersIssued(tried, tried + [Resume(Departure)], Pause(Return));
    NotIssuedAfter(s.log, tried, tried + [Resume(Departure)], Pause(Return));
  }

  lemma OthersIssued(before: seq<Event>, after: seq<Event>, e: Event)
    requires before <= after && forall k :: |before| <= k < |after| ==> after[k] != e
    ensures !Issues(before, after, e)
  {
  }

  lemma RunPausesNothing(before: seq<Event>, after: seq<Event>, d: Direction, leg: Leg)
    requires DoorRun(before, after, d)
    ensures before <= after && !Issues(before, after, Pause(leg))
  {
  }

  /** What is known of the door and the robot when a pass begins, in a loaded runtime. */
  predicate ReadyPass(b: Binding, w: Script, s: Garage)
  {
    BlockedBy(Refreshed(b, w, s).door).None? && !w(s.tick).unloaded
  }

  lemma PassOfReturning(b: Binding, w: Script, s: Garage)
    requires ReadyPass(b, w, s) && IsReturning(w(s.tick).robot.state)
    ensures var s1, r := Refreshed(b, w, s), Pass(b, w, s);
            && (Issues(s.log, r.s.log, Pause(Return)) <==> !s1.door.OpenConfirmed())
            && !Issues(s.log, r.s.log, Pause(Departure))
  {
    hide Refreshed, BlockedBy, CameBack, Departed, Finished, Issues;
    LooksOfPass(b, w, s);
    LookIsTrue(b, w, s);
    var s1 := Refreshed(b, w, s);
    var s2 := Refreshed(b, w, s1);
    var s3 := Refreshed(b, w, s2);
    assert s2 in {s2, s3, Refreshed(b, w, s3)} && s3 in {s2, s3, Refreshed(b, w, s3)};
    ReturnActsExactly(b, w, s2);
    ReturnPausesNoDeparture(b, w, s2);
    var back := CameBack(b, w, s2);
    NoPausingIssuesNone(s2.log, back.s.log);
    var log := if back.r.Raised? && !back.r.error.Refused? then back.s.log else Finished(b, w, back.s).s.log;
    forall leg
      ensures Issues(s.log, Pass(b, w, s).s.log, Pause(leg)) <==> Issues(s2.log, back.s.log, Pause(leg))
    {
      FinishPausesNothing(b, w, back.s, leg);
      NotIssued(s.log, s2.log, Pause(leg));
      IssuedLater(s.log, s2.log, log, Pause(leg));
      NothingIssued(back.s.log, Pause(leg));
      NotIssuedAfter(s2.log, back.s.log, log, Pause(leg));
    }
  }

  lemma NoPausingIssuesNone(before: seq<Event>, after: seq<Event>)
    requires NoPausing(before, after)
    ensures !Issues(before, after, Pause(Departure))
  {
  }

  lemma NotIssuedAfter(a: seq<Event>, b: seq<Event>, c: seq<Event>, e: Event)
    requires a <= b <= c && !Issues(b, c, e)
    ensures Issues(a, c, e) <==> Issues(a, b, e)
  {
    if k :| |a| <= k < |c| && c[k] == e {
      assert k < |b| ==> b[k] == c[k];
    }
    if k :| |a| <= k < |b| && b[k] == e {
      assert c[k] == e;
    }
  }

  lemma PassOfOthers(b: Binding, w: Script, s: Garage)
    requires ReadyPass(b, w, s) && !IsReturning(w(s.tick).robot.state)
    ensures var s1, r := Refreshed(b, w, s), Pass(b, w, s);
            && (Issues(s.log, r.s.log, Pause(Departure)) <==> s1.robot.Outside() && !s1.door.ClosedConfirmed())
            && !Issues(s.log, r.s.log, Pause(Return))
  {
    hide Refreshed, BlockedBy, CameBack, Departed, Finished, Issues;
    LooksOfPass(b, w, s);
    LookIsTrue(b, w, s);
    var s1 := Refreshed(b, w, s);
    var s2 := Refreshed(b, w, s1);
    var s3 := Refreshed(b, w, s2);
    assert s2 in {s2, s3, Refreshed(b, w, s3)} && s3 in {s2, s3, Refreshed(b, w, s3)};
    DepartureActsExactly(b, w, s2);
    DepartureNeverPausesForReturn(b, w, s2);
    var departed := Departed(b, w, s2);
    var log := if departed.r.Raised? then departed.s.log else Finished(b, w, departed.s).s.log;
    forall leg
      ensures Issues(s.log, Pass(b, w, s).s.log, Pause(leg)) <==> Issues(s2.log, departed.s.log, Pause(leg))
    {
      FinishPausesNothing(b, w, departed.s, leg);
      NotIssued(s.log, s2.log, Pause(leg));
      IssuedLater(s.log, s2.log, log, Pause(leg));
      NothingIssued(departed.s.log, Pause(leg));
      NotIssuedAfter(s2.log, departed.s.log, log, Pause(leg));
    }
  }

  /**
   When the first look of a pass can be read and the runtime is loaded, the pass pauses the robot for its departure
   exactly when it is outside, not returning, and the door not closed; and on its way back exactly when it is
   returning and the door not open. A returning robot is never taken for a departing one.
   */
  lemma PassPausesExactly(b: Binding, w: Script, s: Garage)
    requires ReadyPass(b, w, s)
    ensures var s1, robot, r := Refreshed(b, w, s), w(s.tick).robot, Pass(b, w, s);
            && (Issues(s.log, r.s.log, Pause(Departure))
                <==> !IsReturning(robot.state) && robot.Outside() && !s1.door.ClosedConfirmed())
            && (Issues(s.log, r.s.log, Pause(Return)) <==> IsReturning(robot.state) && !s1.door.OpenConfirmed())
  {
    hide Pass, Issues, BlockedBy;
    LookIsTrue(b, w, s);
    if IsReturning(w(s.tick).robot.state) {
      PassOfReturning(b, w, s);
    } else {
      PassOfOthers(b, w, s);
    }
  }

  // -- awaiting the start -----------------------------------------------------

  /** Looks one second apart plus the lag of each stretch, all but the last before the deadline and without work. */
  predicate StartPolls(log: seq<Event>, first: nat, deadline: real)
  {
    && (forall k :: first <= k < |log| ==> log[k].Seen?)
    && forall k :: first <= k < |log| - 1 ==>
         && log[k].now < deadline && !SawWorking(log[k])
         && log[k + 1].now == log[k].now + 1.0 + log[k].moment.lag
  }

  lemma StartPollsFromNext(log: seq<Event>, first: nat, deadline: real)
    requires first < |log| && StartPolls(log, first + 1, deadline)
    requires log[first].Seen? && log[first].now < deadline && !SawWorking(log[first])
    requires first + 1 < |log| ==> log[first + 1].now == log[first].now + 1.0 + log[first].moment.lag
    ensures StartPolls(log, first, deadline)
  {
  }

  /** The start is given up only at the deadline, after a last look without work, and is polled no longer. */
  lemma {:induction false} StartIsTimed(b: Binding, w: Script, s: Garage, deadline: real)
    ensures var r := Started(b, w, s, deadline);
            && s.log <= r.s.log && StartPolls(r.s.log, |s.log|, deadline)
            && (|r.s.log| > |s.log| ==> r.s.log[|s.log|].now == s.now)
            && (r.r == Returned(false) && !w(r.s.tick).unloaded ==>
                  |r.s.log| > |s.log| && r.s.now >= deadline && r.s.log[|r.s.log| - 1].now == r.s.now
                  && !SawWorking(r.s.log[|r.s.log| - 1]))
    decreases deadline - s.now
  {
    hide Answer, Refreshed, StartPolls;
    if !w(s.tick).unloaded {
      LookIsTrue(b, w, s);
      var s1 := Refreshed(b, w, s);
      OneStartPoll(s1.log, |s.log|, deadline);
      if !Working(s1.robot) && s1.now < deadline {
        var slept := Slept(w, s1, 1.0);
        if slept.r.Returned? {
          StartIsTimed(b, w, slept.s, deadline);
          var log := Started(b, w, slept.s, deadline).s.log;
          assert log[|s.log|] == s1.log[|s.log|];
          StartPollsFromNext(log, |s.log|, deadline);
        }
      }
    } else {
      OneStartPoll(s.log, |s.log|, deadline);
    }
  }

  lemma OneStartPoll(log: seq<Event>, first: nat, deadline: real)
    requires |log| <= first + 1 && forall k :: first <= k < |log| ==> log[k].Seen?
    ensures StartPolls(log, first, deadline)
  {
  }

  /** When stretch `t` is polled, if the polls go on until then. */
  function PollTime(w: Script, now: real, tick: nat, t: nat): real
    decreases t - tick
  {
    if t <= tick then now else PollTime(w, now + 1.0 + w(tick).lag, tick + 1, t)
  }

  lemma {:induction false} PollTimeGrows(w: Script, now: real, tick: nat, t: nat)
    ensures PollTime(w, now, tick, t) >= now
    decreases t - tick
  {
    if t > tick {
      PollTimeGrows(w, now + 1.0 + w(tick).lag, tick + 1, t);
    }
  }

  /** A robot that works at some poll before the deadline is answered yes, unless unloaded or cancelled before. */
  lemma {:induction false} WorkIsNoticed(b: Binding, w: Script, s: Garage, deadline: real, t: nat)
    requires s.tick <= t && Working(w(t).robot) && PollTime(w, s.now, s.tick, t) < deadline
    requires forall u :: s.tick <= u <= t ==> !w(u).unloaded
    requires forall u :: s.tick <= u < t ==> w(u).failure != Some(Cancelled)
    ensures Started(b, w, s, deadline).r == Returned(true)
    decreases t - s.tick
  {
    hide Answer, Refreshed;
    LookIsTrue(b, w, s);
    PollTimeGrows(w, s.now, s.tick, t);
    var s1 := Refreshed(b, w, s);
    if !Working(s1.robot) {
      WorkIsNoticed(b, w, Slept(w, s1, 1.0).s, deadline, t);
    }
  }

  /**
   The sequence waits three minutes for the robot to work: if it does at some poll before then, the sequence goes
   on to follow it, from a look that shows it working, until its own deadline.
   */
  lemma StartIsAwaited(b: Binding, w: Script, s: Garage, timeout: real, t: nat)
    requires s.tick <= t && Working(w(t).robot) && PollTime(w, s.now, s.tick, t) < s.now + 180.0
    requires forall u :: s.tick <= u <= t ==> !w(u).unloaded
    requires forall u :: s.tick <= u < t ==> w(u).failure != Some(Cancelled)
    ensures exists start: Garage ::
              && s.log < start.log && SawWorking(start.log[|start.log| - 1]) && OnlyLooks(start.log, |s.log|)
              && SequenceRun(b, w, s, timeout)
                 == Absorbed(Rounds(b, w, start, s.now + if timeout > 1.0 then timeout else 1.0))
  {
    hide Started, Rounds;
    var deadline := s.now + START_CONFIRMATION_SECONDS;
    WorkIsNoticed(b, w, s, deadline, t);
    assert Disciplined(b, s.log, |s.log|) by { NothingIsDisciplined(b, s.log); }
    hide Disciplined;
    StartOnlyLooks(b, w, s, deadline, |s.log|);
    var start := Started(b, w, s, deadline).s;
    assert s.log < start.log && SawWorking(start.log[|start.log| - 1]) && OnlyLooks(start.log, |s.log|);
  }

  // -- the whole sequence -----------------------------------------------------

  /** The rounds of a loaded runtime begin with a pass, whose record they keep. */
  lemma RoundsBeginWithPass(b: Binding, w: Script, s: Garage, deadline: real)
    requires !w(s.tick).unloaded
    ensures Pass(b, w, s).s.log <= Rounds(b, w, s, deadline).s.log
    ensures Pass(b, w, s).r == Returned(false) && Pass(b, w, s).s.now < deadline
            && w(Pass(b, w, s).s.tick).failure != Some(Cancelled) ==>
              var next := Slept(w, Pass(b, w, s).s, 1.0).s;
              && next.now == Pass(b, w, s).s.now + 1.0 + w(Pass(b, w, s).s.tick).lag
              && Rounds(b, w, s, deadline) == Rounds(b, w, next, deadline)
  {
    hide Pass;
    var pass := Pass(b, w, s);
    if pass.r == Returned(false) && pass.s.now < deadline {
      var slept := Slept(w, pass.s, 1.0);
      if slept.r.Returned? {
        RoundsOnlyAdd(b, w, slept.s, deadline);
      }
    }
  }

  lemma {:induction false} RoundsOnlyAdd(b: Binding, w: Script, s: Garage, deadline: real)
    ensures s.log <= Rounds(b, w, s, deadline).s.log
    decreases deadline - s.now
  {
    hide Pass;
    if !w(s.tick).unloaded {
      PassOnlyAdds(b, w, s);
      var pass := Pass(b, w, s);
      if pass.r == Returned(false) && pass.s.now < deadline {
        var slept := Slept(w, pass.s, 1.0);
        if slept.r.Returned? {
          RoundsOnlyAdd(b, w, slept.s, deadline);
        }
      }
    }
  }

  lemma PassOnlyAdds(b: Binding, w: Script, s: Garage)
    ensures s.log <= Pass(b, w, s).s.log
  {
    hide Pass, Disciplined;
    assert Disciplined(b, s.log, |s.log|) by { NothingIsDisciplined(b, s.log); }
    PassIsDisciplined(b, w, s, |s.log|);
  }

  lemma NothingIsDisciplined(b: Binding, log: seq<Event>)
    ensures Disciplined(b, log, |log|)
  {
  }

  /** Following the robot ends normally by unloading, by the deadline, or with the door and the flag given back. */
  lemma {:induction false} RoundsEndExactly(b: Binding, w: Script, s: Garage, deadline: real)
    ensures var r := Rounds(b, w, s, deadline);
            r.r.Returned? ==>
              || w(r.s.tick).unloaded || r.s.now >= deadline
              || (!r.s.taskInProgress
                  && (r.s.phase == Blocked || (r.s.phase == AtRest && EndpointConfirmed(r.s.door, Close))))
    decreases deadline - s.now
  {
    hide ReturnHandled, Departed, Finished;
    if !w(s.tick).unloaded {
      var pass := Pass(b, w, s);
      if pass.r == Returned(true) {
        var handled := ReturnHandled(b, w, Refreshed(b, w, s));
        var departed := if handled.r.value then handled else Departed(b, w, handled.s);
        EndGivesDoorBack(b, w, departed.s);
      } else if pass.r.Returned? && pass.s.now < deadline {
        var slept := Slept(w, pass.s, 1.0);
        if slept.r.Returned? {
          RoundsEndExactly(b, w, slept.s, deadline);
        }
      }
    }
  }

  // -- commands ---------------------------------------------------------------

  /** Which commands reach the robot: a clean exactly after a confirmed opening, the others exactly when permitted. */
  lemma SendingActsExactly(b: Binding, w: Script, s: Garage, kind: CommandKind)
    ensures var r := CommandSent(b, w, s, kind);
            && (kind.Unsupported? ==> r == Step(s, Raised(Refused(UnsupportedCommand))))
            && (kind.Direct? ==> r.s.log == s.log + [OtherSent])
            && (!kind.Unsupported? && !kind.Direct? && w(s.tick).unloaded ==>
                  r == Step(s, Raised(Refused(ControlUnloaded))))
            && (kind.Charge? && !w(s.tick).unloaded ==> r.s.log == s.log + [OtherSent])
            && (StartsSequence(kind) && !w(s.tick).unloaded ==>
                  var atOpen := DoorOpened(b, w, s);
                  && atOpen.s.log <= r.s.log
                  && (Issues(s.log, r.s.log, CleanSent) <==> atOpen.r.Returned?)
                  && (atOpen.r.Raised? ==> r == atOpen))
  {
    hide DoorOpened;
    OpeningConfirms(b, w, s);
    if StartsSequence(kind) && !w(s.tick).unloaded && DoorOpened(b, w, s).r.Returned? {
      var log := CommandSent(b, w, s, kind).s.log;
      assert log[|log| - 1] == CleanSent;
    }
  }

  /** A requested close of a door that can be read commands it exactly when nobody is in the way and it is permitted. */
  lemma RequestActsExactly(b: Binding, w: Script, s: Garage)
    requires BlockedBy(Refreshed(b, w, s).door).None?
    ensures var s1, r := Refreshed(b, w, s), CloseRequested(b, w, s);
            && (Issues(s.log, r.s.log, DoorCommand(Close))
                <==> !InDoorway(s1.robot) && w(s.tick).closeAllowed && !s1.door.ClosedConfirmed())
            && (r.r.Returned? ==> EndpointConfirmed(r.s.door, Close))
  {
    hide Refreshed, DoorClosed, BlockedBy, Issues;
    LookIsTrue(b, w, s);
    LookingAgain(b, w, s);
    var s1 := Refreshed(b, w, s);
    ClosingConfirms(b, w, s1);
    ClosingActsExactly(b, w, s1);
    NotIssued(s.log, s1.log, DoorCommand(Close));
    IssuedLater(s.log, s1.log, DoorClosed(b, w, s1).s.log, DoorCommand(Close));
  }
}
