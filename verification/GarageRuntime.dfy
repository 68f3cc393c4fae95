/**
 One cleaning sequence: open the door, release the robot, wait for proof that it works,
 follow it out and back, close the door at the end.
 */
module GarageRuntime {
  import opened Common
  import opened GarageBinding
  import opened DoorEvidence
  import opened RobotStates
  import opened GarageDoor

  const START_CONFIRMATION_SECONDS := 180.0

  /** How the runtime classifies a robot command. */
  datatype CommandKind = Unsupported | Direct | Charge | NewTask | ResumeTask

  // -- specification ----------------------------------------------------------

  /** A refusal on the way back is noted and the sequence goes on. */
  function ReturnHandled(b: Binding, w: Script, s: Garage): (r: Step<bool>)
    ensures Later(s, r.s)
  {
    var s1 := Refreshed(b, w, s);
    if !IsReturning(s1.robot.state) then Step(s1, Returned(false))
    else
      var back := CameBack(b, w, s1);
      match back.r
      case Returned(_) => Step(back.s, Returned(true))
      case Raised(Refused(_)) => Step(back.s, Returned(true))
      case Raised(e) => Step(back.s, Raised(e))
  }

  /** The robot is seen working: an active task, away from its dock. */
  predicate Working(robot: Robot)
  {
    robot.TaskRunning() && !robot.docked
  }

  function Started(b: Binding, w: Script, s: Garage, deadline: real): (r: Step<bool>)
    ensures Later(s, r.s)
    decreases deadline - s.now
  {
    if w(s.tick).unloaded then Step(s, Returned(false))
    else
      var s1 := Refreshed(b, w, s);
      if Working(s1.robot) then Step(s1, Returned(true))
      else if s1.now >= deadline then Step(s1.(taskInProgress := false), Returned(false))
      else
        var slept := Slept(w, s1, 1.0);
        if slept.r.Raised? then Step(slept.s, Raised(slept.r.error)) else Started(b, w, slept.s, deadline)
  }

  /** One pass over the rules: the way back, or else the departure, and then the end of the task. */
  function Pass(b: Binding, w: Script, s: Garage): (r: Step<bool>)
    ensures Later(s, r.s)
  {
    var handled := ReturnHandled(b, w, Refreshed(b, w, s));
    if handled.r.Raised? then handled
    else
      var departed := if handled.r.value then handled else Departed(b, w, handled.s);
      if departed.r.Raised? then departed else Finished(b, w, departed.s)
  }

  function Rounds(b: Binding, w: Script, s: Garage, deadline: real): (r: Step<()>)
    ensures Later(s, r.s)
    decreases deadline - s.now
  {
    if w(s.tick).unloaded then Step(s, Returned(()))
    else
      var pass := Pass(b, w, s);
      if pass.r.Raised? then Step(pass.s, Raised(pass.r.error))
      else if pass.r.value || pass.s.now >= deadline then Step(pass.s, Returned(()))
      else
        var slept := Slept(w, pass.s, 1.0);
        if slept.r.Raised? then slept else Rounds(b, w, slept.s, deadline)
  }

  /** Without proof that the robot works, nothing follows. */
  function Continued(b: Binding, w: Script, started: Step<bool>, deadline: real): (r: Step<()>)
    ensures Later(started.s, r.s)
  {
    if started.r.Raised? then Step(started.s, Raised(started.r.error))
    else if !started.r.value then Step(started.s, Returned(()))
    else Rounds(b, w, started.s, deadline)
  }

  /** Everything after the command was accepted. Only a cancellation leaves the sequence as a failure. */
  function SequenceRun(b: Binding, w: Script, s: Garage, timeout: real): (r: Step<()>)
    ensures Later(s, r.s)
  {
    var started := Started(b, w, s, s.now + START_CONFIRMATION_SECONDS);
    Absorbed(Continued(b, w, started, s.now + Max(1.0, timeout)))
  }

  function Absorbed(run: Step<()>): (r: Step<()>)
    ensures Later(run.s, r.s)
  {
    if run.r.Raised? && !run.r.error.Cancelled? then Step(run.s, Returned(())) else run
  }

  /** Sending a command: only a clean or a resumed clean opens the door first. */
  function CommandSent(b: Binding, w: Script, s: Garage, kind: CommandKind): (r: Step<()>)
    ensures Later(s, r.s)
  {
    if kind.Unsupported? then Step(s, Raised(Refused(UnsupportedCommand)))
    else if kind.Direct? then Called(w, s, CommandSentEvent(kind))
    else if w(s.tick).unloaded then Step(s, Raised(Refused(ControlUnloaded)))
    else if kind.Charge? then Called(w, s, CommandSentEvent(kind))
    else
      var atOpen := DoorOpened(b, w, s);
      if atOpen.r.Raised? then atOpen else Called(w, atOpen.s, CommandSentEvent(kind))
  }

  function CommandSentEvent(kind: CommandKind): Event
  {
    if StartsSequence(kind) then CleanSent else OtherSent
  }

  /** A clean or a resumed clean that the robot accepted is followed by a sequence of its own. */
  predicate StartsSequence(kind: CommandKind)
  {
    kind.NewTask? || kind.ResumeTask?
  }

  /** The robot is known to be in the doorway. */
  predicate InDoorway(robot: Robot)
  {
    robot.isFresh && robot.positionTrusted && robot.outsideDangerZone == Some(false) && !robot.docked
  }

  function CloseRequested(b: Binding, w: Script, s: Garage): (r: Step<()>)
    ensures Later(s, r.s)
  {
    var s1 := Refreshed(b, w, s);
    if InDoorway(s1.robot) then Step(s1, Raised(Refused(RobotInTheWay))) else DoorClosed(b, w, s1)
  }

  // -- the runtime ------------------------------------------------------------

  class GarageRuntime {
    const controller: GarageController
    const sequenceTimeout: real
    /** How many sequences have been started; the latest one is the one that is followed. */
    var sequencesStarted: nat

    constructor (controller: GarageController, sequenceTimeout: real)
      ensures this.controller == controller && this.sequenceTimeout == sequenceTimeout && sequencesStarted == 0
    {
      this.controller := controller;
      this.sequenceTimeout := sequenceTimeout;
      sequencesStarted := 0;
    }

    method HandleReturn() returns (r: Outcome<bool>)
      requires controller.Valid()
      modifies controller, controller.world, controller.evidence
      ensures Step(controller.Snapshot(), r)
              == ReturnHandled(controller.binding, controller.world.script, old(controller.Snapshot()))
    {
      hide Answer, CameBack;
      controller.Refresh();
      if !IsReturning(controller.robot.state) {
        return Returned(false);
      }
      var back := controller.UpdateReturning();
      if back.Raised? && !back.error.Refused? {
        return Raised(back.error);
      }
      return Returned(true);
    }

    method AwaitCleanStarted() returns (r: Outcome<bool>)
      requires controller.Valid()
      modifies controller, controller.world, controller.evidence
      ensures Step(controller.Snapshot(), r)
              == Started(controller.binding, controller.world.script, old(controller.Snapshot()),
                         old(controller.world.now) + START_CONFIRMATION_SECONDS)
    {
      hide Answer;
      var world := controller.world;
      var deadline := world.now + START_CONFIRMATION_SECONDS;
      ghost var b, w := controller.binding, world.script;
      while true
        invariant Started(b, w, controller.Snapshot(), deadline) == Started(b, w, old(controller.Snapshot()), deadline)
        decreases deadline - world.now
      {
        if world.script(world.tick).unloaded {
          return Returned(false);
        }
        controller.Refresh();
        if controller.robot.TaskRunning() && !controller.robot.docked {
          return Returned(true);
        }
        if world.now >= deadline {
          controller.taskInProgress := false;
          return Returned(false);
        }
        ghost var s := controller.Snapshot();
        var slept := world.Sleep(1.0, s);
        assert controller.Snapshot() == world.Of(s);
        if slept.Raised? {
          return Raised(slept.error);
        }
      }
    }

    method RunPass() returns (r: Outcome<bool>)
      requires controller.Valid()
      modifies controller, controller.world, controller.evidence
      ensures Step(controller.Snapshot(), r)
              == Pass(controller.binding, controller.world.script, old(controller.Snapshot()))
    {
      hide Answer, ReturnHandled, Departed, Finished;
      controller.Refresh();
      r := HandleReturn();
      if r.Raised? {
        return;
      }
      if !r.value {
        r := controller.UpdateAfterDeparture();
        if r.Raised? {
          return;
        }
      }
      r := controller.SequenceFinished();
    }

    method FinishSequence() returns (r: Outcome<()>)
      requires controller.Valid()
      modifies controller, controller.world, controller.evidence
      ensures Step(controller.Snapshot(), r)
              == SequenceRun(controller.binding, controller.world.script, old(controller.Snapshot()), sequenceTimeout)
    {
      hide Started, Rounds;
      var deadline := controller.world.now + Max(1.0, sequenceTimeout);
      var started := AwaitCleanStarted();
      if started.Raised? {
        r := Raised(started.error);
      } else if !started.value {
        r := Returned(());
      } else {
        r := FollowRobot(deadline);
      }
      if r.Raised? && !r.error.Cancelled? {
        r := Returned(());
      }
    }

    method FollowRobot(deadline: real) returns (r: Outcome<()>)
      requires controller.Valid()
      modifies controller, controller.world, controller.evidence
      ensures Step(controller.Snapshot(), r)
              == Rounds(controller.binding, controller.world.script, old(controller.Snapshot()), deadline)
    {
      hide Pass;
      var world := controller.world;
      ghost var b, w := controller.binding, world.script;
      while true
        invariant Rounds(b, w, controller.Snapshot(), deadline) == Rounds(b, w, old(controller.Snapshot()), deadline)
        decreases deadline - world.now
      {
        if world.script(world.tick).unloaded {
          return Returned(());
        }
        var done := RunPass();
        if done.Raised? {
          return Raised(done.error);
        }
        if done.value || world.now >= deadline {
          return Returned(());
        }
        ghost var s := controller.Snapshot();
        r := world.Sleep(1.0, s);
        assert controller.Snapshot() == world.Of(s);
        if r.Raised? {
          return;
        }
      }
    }

    method AsyncSend(kind: CommandKind) returns (r: Outcome<()>)
      requires controller.Valid()
      modifies this, controller, controller.world, controller.evidence
      ensures sequencesStarted == old(sequencesStarted) + if r.Returned? && StartsSequence(kind) then 1 else 0
      ensures Step(controller.Snapshot(), r)
              == CommandSent(controller.binding, controller.world.script, old(controller.Snapshot()), kind)
    {
      hide DoorOpened;
      if kind == Unsupported {
        return Raised(Refused(UnsupportedCommand));
      }
      if kind != Direct {
        if controller.world.script(controller.world.tick).unloaded {
          return Raised(Refused(ControlUnloaded));
        }
        if kind != Charge {
          r := controller.OpenDoor();
          if r.Raised? {
            return;
          }
        }
      }
      ghost var s := controller.Snapshot();
      r := controller.world.Call(CommandSentEvent(kind), s);
      assert controller.Snapshot() == controller.world.Of(s);
      if r.Returned? && StartsSequence(kind) {
        sequencesStarted := sequencesStarted + 1;
      }
    }

    method AsyncRequestClose() returns (r: Outcome<()>)
      requires controller.Valid()
      modifies controller, controller.world, controller.evidence
      ensures Step(controller.Snapshot(), r)
              == CloseRequested(controller.binding, controller.world.script, old(controller.Snapshot()))
    {
      hide Answer, DoorClosed;
      controller.Refresh();
      if InDoorway(controller.robot) {
        return Raised(Refused(RobotInTheWay));
      }
      r := controller.CloseDoor();
    }
  }
}
