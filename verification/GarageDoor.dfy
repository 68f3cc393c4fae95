/**
 The door controller: one door, one robot, and rules about physical facts.

 The outside world is a script that says, for each stretch between two suspensions,
 what the door, the robot and the household report and how the suspension that ends
 the stretch turns out. Any script is possible. Readings and the clock change only
 while the controller is suspended, and a sleep never wakes early unless it is cancelled.
 */
module GarageDoor {
  import opened Common
  import opened GarageBinding
  import opened DoorEvidence
  import opened RobotStates

  // -- the world --------------------------------------------------------------

  /** One robot reading. */
  datatype Robot = Robot(
    state: RobotState,
    docked: bool,
    isFresh: bool,
    positionTrusted: bool,
    outsideDangerZone: Option<bool>,
    taskActive: Option<bool>)
  {
    predicate Outside() {
      isFresh && positionTrusted && outsideDangerZone == Some(true) && !docked
    }

    /** When the task is not reported, only a parked state counts as its end. */
    predicate TaskRunning() {
      match taskActive
      case Some(active) => active
      case None => IsUnreported(state) || !IsParked(state)
    }
  }

  /** The reason code of a refusal. */
  datatype Refusal =
    | DoorBlocked(reason: Reason)
    | NotConfirmed(d: Direction)
    | CloseNotAllowed | DoorCommandFailed | PauseNotObserved | ControlUnloaded | RobotInTheWay | UnsupportedCommand
    | Foreign(code: string)

  /** A refusal, any other failure (which may carry a reason code of its own), or the cancellation of the task. */
  datatype Error = Refused(refusal: Refusal) | Fault(code: Option<Refusal>) | Cancelled

  datatype Moment = Moment(
    door: Reading,
    robot: Robot,
    closeAllowed: bool,
    unloaded: bool,
    failure: Option<Error>,
    lag: NonNegative)

  type Script = nat -> Moment

  // -- what is recorded -------------------------------------------------------

  /** The rule on whose behalf the robot is paused and resumed. */
  datatype Leg = Departure | Return

  datatype Event =
    | Seen(now: NonNegative, moment: Moment, open: Endpoint, close: Endpoint, coverAvailable: bool)
    | DoorCommand(d: Direction)
    | Pause(leg: Leg)
    | Resume(leg: Leg)
    | CleanSent
    | OtherSent

  datatype Phase =
    | AtRest | Blocked | Outside | Opening | Closing
    | PausingExit | PausingReturn | ResumingReturn | ClosedOutside

  datatype Garage = Garage(
    tick: nat,
    now: NonNegative,
    phase: Phase,
    lastError: Option<Refusal>,
    taskInProgress: bool,
    robot: Robot,
    door: DoorState,
    evidence: Evidence,
    log: seq<Event>)

  datatype Outcome<+T> = Returned(value: T) | Raised(error: Error)

  datatype Step<+T> = Step(s: Garage, r: Outcome<T>)

  /** Time does not go back. */
  predicate Later(s: Garage, s': Garage)
  {
    s.now <= s'.now
  }

  // -- reading ----------------------------------------------------------------

  function BlockedReason(open: Endpoint, close: Endpoint, coverAvailable: bool): Option<Reason>
  {
    var reasons := {open.reason, close.reason};
    if !coverAvailable then Some(FeedbackUnavailable)
    else if Some(EndpointConflict) in reasons then Some(EndpointConflict)
    else if Some(FeedbackUnavailable) in reasons then Some(FeedbackUnavailable)
    else if Some(RestoredSnapshot) in reasons then Some(RestoredSnapshot)
    else if Some(InvalidConfiguration) in reasons then Some(InvalidConfiguration)
    else if Some(InvalidClock) in reasons then Some(InvalidClock)
    else None
  }

  function BlockedBy(door: DoorState): Option<Reason>
  {
    BlockedReason(door.open, door.close, door.coverAvailable)
  }

  function Look(now: NonNegative, m: Moment, door: DoorState): Event
  {
    Seen(now, m, door.open, door.close, door.coverAvailable)
  }

  function Refreshed(b: Binding, w: Script, s: Garage): (s': Garage)
    ensures s'.now == s.now
  {
    var m := w(s.tick);
    var o := Answer(b, s.evidence, Number(s.now), m.door);
    s.(robot := m.robot, door := o.state, evidence := o.e, log := s.log + [Look(s.now, m, o.state)])
  }

  // -- suspending -------------------------------------------------------------

  function Suspended(w: Script, s: Garage, atLeast: NonNegative): (s': Garage)
    ensures Later(s, s') && s'.now >= s.now + atLeast
  {
    s.(tick := s.tick + 1, now := s.now + atLeast + w(s.tick).lag)
  }

  /** A sleep can only be cut short by cancellation. */
  function Slept(w: Script, s: Garage, seconds: NonNegative): (r: Step<()>)
    ensures Later(s, r.s)
    ensures r.r.Returned? ==> r.s.now >= s.now + seconds
    ensures r.r.Raised? ==> r.r.error.Cancelled?
  {
    if w(s.tick).failure == Some(Cancelled) then Step(Suspended(w, s, 0.0), Raised(Cancelled))
    else Step(Suspended(w, s, seconds), Returned(()))
  }

  /** An external call: it is recorded when it is issued and may fail afterwards. */
  function Called(w: Script, s: Garage, call: Event): (r: Step<()>)
    ensures Later(s, r.s)
  {
    var failure := w(s.tick).failure;
    Step(Suspended(w, s.(log := s.log + [call]), 0.0), if failure.Some? then Raised(failure.value) else Returned(()))
  }

  /** Pausing and resuming go through the runtime, which refuses once it is unloaded. */
  function AskedRobot(w: Script, s: Garage, call: Event): (r: Step<()>)
    ensures Later(s, r.s)
  {
    if w(s.tick).unloaded then Step(s, Raised(Refused(ControlUnloaded))) else Called(w, s, call)
  }

  // -- door actions -----------------------------------------------------------

  predicate EndpointConfirmed(door: DoorState, d: Direction)
  {
    door.At(d).ConfirmedReached()
  }

  /** The operation timeout: 90 seconds when absent; a flag counts as one or zero, anything else is a failure. */
  function OperationSeconds(b: Binding): Option<real>
  {
    if OperationTimeout !in b then Some(90.0)
    else
      match b[OperationTimeout]
      case Number(n) => Some(n)
      case Flag(f) => Some(if f then 1.0 else 0.0)
      case _ => None
  }

  /** Poll until the endpoint is confirmed; the last poll still counts after the deadline has passed. */
  function Waited(b: Binding, w: Script, s: Garage, d: Direction, deadline: real): (r: Step<()>)
    ensures Later(s, r.s)
    decreases (deadline - s.now) * 5.0
  {
    var s1 := Refreshed(b, w, s);
    if EndpointConfirmed(s1.door, d) then Step(s1, Returned(()))
    else if s1.now >= deadline then Step(s1, Raised(Refused(NotConfirmed(d))))
    else
      var slept := Slept(w, s1, 0.2);
      if slept.r.Raised? then slept else Waited(b, w, slept.s, d, deadline)
  }

  function WaitedFor(b: Binding, w: Script, s: Garage, d: Direction): (r: Step<()>)
    ensures Later(s, r.s)
  {
    var timeout := OperationSeconds(b);
    if timeout.None? then Step(s, Raised(Fault(None))) else Waited(b, w, s, d, s.now + timeout.value)
  }

  /** Command the door and wait for the endpoint. */
  function Moved(b: Binding, w: Script, s: Garage, d: Direction): (r: Step<()>)
    ensures Later(s, r.s)
  {
    var called := Called(w, s.(evidence := Invalidated(s.evidence)), DoorCommand(d));
    if called.r.Raised? then called else WaitedFor(b, w, called.s, d)
  }

  /** Anything but a refusal or a cancellation is turned into a refusal; nothing is latched. */
  function Reported(step: Step<()>): (r: Step<()>)
    ensures Later(step.s, r.s)
  {
    if step.r.Raised? && step.r.error.Fault? then
      var refusal := if step.r.error.code.Some? then step.r.error.code.value else DoorCommandFailed;
      Step(step.s.(phase := Blocked, lastError := Some(refusal)), Raised(Refused(refusal)))
    else step
  }

  function Declined(s: Garage, reason: Reason): Step<()>
  {
    Step(s.(phase := Blocked, lastError := Some(DoorBlocked(reason))), Raised(Refused(DoorBlocked(reason))))
  }

  function Released(s: Garage): Step<()>
  {
    Step(s.(taskInProgress := true, phase := Outside, lastError := None), Returned(()))
  }

  /** `DoorOpened` once the readings have been refreshed. */
  function OpenedFrom(b: Binding, w: Script, s: Garage): (r: Step<()>)
    ensures Later(s, r.s)
  {
    if BlockedBy(s.door).Some? then Declined(s, BlockedBy(s.door).value)
    else if s.door.OpenConfirmed() then Released(s)
    else
      var moved := Reported(Moved(b, w, s.(phase := Opening), Open));
      if moved.r.Raised? then moved else Released(moved.s)
  }

  function DoorOpened(b: Binding, w: Script, s: Garage): (r: Step<()>)
    ensures Later(s, r.s)
  {
    OpenedFrom(b, w, Refreshed(b, w, s))
  }

  /** `DoorClosed` once the readings have been refreshed. */
  function ClosedFrom(b: Binding, w: Script, s: Garage): (r: Step<()>)
    ensures Later(s, r.s)
  {
    if BlockedBy(s.door).Some? then Declined(s, BlockedBy(s.door).value)
    else if !w(s.tick).closeAllowed then Step(s, Raised(Refused(CloseNotAllowed)))
    else if s.door.ClosedConfirmed() then Step(s.(phase := AtRest, lastError := None), Returned(()))
    else
      var moved := Reported(Moved(b, w, s.(phase := Closing), Close));
      if moved.r.Raised? then moved else Step(moved.s.(lastError := None), Returned(()))
  }

  function DoorClosed(b: Binding, w: Script, s: Garage): (r: Step<()>)
    ensures Later(s, r.s)
  {
    ClosedFrom(b, w, Refreshed(b, w, s))
  }

  // -- the reactive rules -----------------------------------------------------

  /** A refusal is recorded and answered with false; any other failure goes on. */
  function ClosedOrNot(closed: Step<()>): (r: Step<bool>)
    ensures Later(closed.s, r.s)
  {
    match closed.r
    case Returned(_) => Step(closed.s, Returned(true))
    case Raised(Refused(x)) => Step(closed.s.(lastError := Some(x), phase := Blocked), Returned(false))
    case Raised(e) => Step(closed.s, Raised(e))
  }

  /** Whatever came of the attempt, the robot is asked to resume; only a failure of that call replaces the result. */
  function ThenResumed(w: Script, tried: Step<bool>): (r: Step<bool>)
    ensures Later(tried.s, r.s)
  {
    var resumed := AskedRobot(w, tried.s, Resume(Departure));
    if resumed.r.Raised? then Step(resumed.s, Raised(resumed.r.error)) else Step(resumed.s, tried.r)
  }

  function PausedClosedResumed(b: Binding, w: Script, s: Garage): (r: Step<bool>)
    ensures Later(s, r.s)
  {
    var paused := AskedRobot(w, s.(phase := PausingExit), Pause(Departure));
    if paused.r.Raised? then Step(paused.s, Raised(paused.r.error))
    else
      var s1 := Refreshed(b, w, paused.s);
      if !s1.robot.state.Paused? then
        Step(s1.(phase := Blocked, lastError := Some(PauseNotObserved)), Returned(false))
      else ThenResumed(w, ClosedOrNot(DoorClosed(b, w, s1)))
  }

  function Departed(b: Binding, w: Script, s: Garage): (r: Step<bool>)
    ensures Later(s, r.s)
  {
    var s1 := Refreshed(b, w, s);
    if !s1.robot.Outside() then Step(s1, Returned(false))
    else if s1.door.ClosedConfirmed() then Step(s1.(phase := ClosedOutside), Returned(true))
    else if BlockedBy(s1.door).Some? then Step(s1.(phase := Blocked), Returned(true))
    else
      var closed := PausedClosedResumed(b, w, s1);
      if closed.r.Raised? then closed
      else if closed.r.value then
        Step(closed.s.(taskInProgress := false, phase := ClosedOutside), Returned(true))
      else Step(closed.s.(phase := Blocked), Returned(true))
  }

  /** The last part of the way back: the robot waits while the door opens, and then goes on. */
  function OpenedAndResumed(b: Binding, w: Script, s: Garage): (r: Step<()>)
    ensures Later(s, r.s)
  {
    var atOpen := DoorOpened(b, w, s.(phase := Opening));
    if atOpen.r.Raised? then atOpen
    else
      var resumed := AskedRobot(w, atOpen.s.(phase := ResumingReturn), Resume(Return));
      if resumed.r.Raised? then resumed else Step(resumed.s.(phase := Outside), Returned(()))
  }

  function PausedOpenedResumed(b: Binding, w: Script, s: Garage): (r: Step<()>)
    ensures Later(s, r.s)
  {
    var paused := AskedRobot(w, s.(phase := PausingReturn), Pause(Return));
    if paused.r.Raised? then paused
    else
      var s1 := Refreshed(b, w, paused.s);
      if !s1.robot.state.Paused? then
        Step(s1.(phase := Blocked, lastError := Some(PauseNotObserved)), Raised(Refused(PauseNotObserved)))
      else OpenedAndResumed(b, w, s1)
  }

  function CameBack(b: Binding, w: Script, s: Garage): (r: Step<()>)
    ensures Later(s, r.s)
  {
    var s1 := Refreshed(b, w, s);
    if !IsReturning(s1.robot.state) || s1.door.OpenConfirmed() then Step(s1, Returned(()))
    else PausedOpenedResumed(b, w, s1)
  }

  function Finished(b: Binding, w: Script, s: Garage): (r: Step<bool>)
    ensures Later(s, r.s)
  {
    var s1 := Refreshed(b, w, s);
    if !s1.taskInProgress then Step(s1, Returned(false))
    else if s1.robot.TaskRunning() then
      if !s1.robot.docked || s1.door.OpenConfirmed() then Step(s1, Returned(false))
      else if BlockedBy(s1.door).Some? then Step(s1.(phase := Blocked), Returned(false))
      else
        var atOpen := DoorOpened(b, w, s1);
        match atOpen.r
        case Returned(_) => Step(atOpen.s, Returned(false))
        case Raised(Refused(x)) => Step(atOpen.s.(lastError := Some(x), phase := Blocked), Returned(false))
        case Raised(e) => Step(atOpen.s, Raised(e))
    else if !s1.robot.docked then Step(s1, Returned(false))
    else if s1.door.ClosedConfirmed() then Step(s1.(taskInProgress := false, phase := AtRest), Returned(true))
    else if BlockedBy(s1.door).Some? then Step(s1.(phase := Blocked, taskInProgress := false), Returned(true))
    else
      var closed := ClosedOrNot(DoorClosed(b, w, s1));
      if closed.r.Raised? then closed
      else Step(closed.s.(taskInProgress := false, phase := if closed.r.value then AtRest else Blocked), Returned(true))
  }

  // -- the controller ---------------------------------------------------------

  /** What the controller is given: readings, a clock, a sleep and calls that move things. */
  class World {
    const script: Script
    var tick: nat
    var now: NonNegative
    ghost var log: seq<Event>

    constructor (script: Script, now: NonNegative)
      ensures this.script == script && tick == 0 && this.now == now && log == []
    {
      this.script := script;
      tick, this.now := 0, now;
      log := [];
    }

    /** The given controller state, with the time and the record as they are in this world. */
    ghost function Of(s: Garage): Garage
      reads this
    {
      s.(tick := tick, now := now, log := log)
    }

    method Sleep(seconds: NonNegative, ghost s: Garage) returns (r: Outcome<()>)
      requires s == Of(s)
      modifies this
      ensures Step(Of(s), r) == Slept(script, s, seconds)
    {
      var m := script(tick);
      var short := m.failure == Some(Cancelled);
      tick, now := tick + 1, now + (if short then 0.0 else seconds) + m.lag;
      r := if short then Raised(Cancelled) else Returned(());
    }

    method Call(event: Event, ghost s: Garage) returns (r: Outcome<()>)
      requires s == Of(s)
      modifies this
      ensures Step(Of(s), r) == Called(script, s, event)
    {
      var m := script(tick);
      tick, now := tick + 1, now + m.lag;
      log := log + [event];
      r := if m.failure.Some? then Raised(m.failure.value) else Returned(());
    }

    method AskRobot(event: Event, ghost s: Garage) returns (r: Outcome<()>)
      requires s == Of(s)
      modifies this
      ensures Step(Of(s), r) == AskedRobot(script, s, event)
    {
      if script(tick).unloaded {
        return Raised(Refused(ControlUnloaded));
      }
      r := Call(event, s);
    }
  }

  class GarageController {
    const binding: Binding
    const world: World
    const evidence: EvidenceTracker
    var phase: Phase
    var lastError: Option<Refusal>
    var taskInProgress: bool
    var robot: Robot
    var state: DoorState

    predicate Valid()
    {
      evidence.binding == binding
    }

    ghost function Snapshot(): Garage
      reads this, world, evidence
    {
      Garage(world.tick, world.now, phase, lastError, taskInProgress, robot, state, evidence.State(), world.log)
    }

    constructor (binding: Binding, world: World)
      modifies world
      ensures Valid() && this.binding == binding && this.world == world && fresh(evidence)
      ensures phase == AtRest && lastError == None && !taskInProgress
      ensures forall s: Garage ::
                s.phase == AtRest && s.lastError == None && !s.taskInProgress && s.evidence == NOTHING ==>
                  Snapshot() == Refreshed(binding, world.script, old(world.Of(s)))
    {
      this.binding := binding;
      this.world := world;
      evidence := new EvidenceTracker(binding);
      phase, lastError, taskInProgress := AtRest, None, false;
      robot := world.script(world.tick).robot;
      state := UnknownState(binding, FeedbackUnavailable, false);
      new;
      Refresh();
    }

    method Refresh()
      requires Valid()
      modifies this, world, evidence
      ensures Snapshot() == Refreshed(binding, world.script, old(Snapshot()))
    {
      var m := world.script(world.tick);
      robot := m.robot;
      state := evidence.Observe(Number(world.now), m.door);
      world.log := world.log + [Look(world.now, m, state)];
    }

    method WaitFor(d: Direction) returns (r: Outcome<()>)
      requires Valid()
      modifies this, world, evidence
      ensures Step(Snapshot(), r) == WaitedFor(binding, world.script, old(Snapshot()), d)
    {
      hide Answer;
      var timeout := OperationSeconds(binding);
      if timeout.None? {
        return Raised(Fault(None));
      }
      var deadline := world.now + timeout.value;
      ghost var start := Snapshot();
      while true
        invariant Waited(binding, world.script, Snapshot(), d, deadline)
                  == Waited(binding, world.script, start, d, deadline)
        decreases (deadline - world.now) * 5.0
      {
        Refresh();
        if EndpointConfirmed(state, d) {
          return Returned(());
        }
        if world.now >= deadline {
          return Raised(Refused(NotConfirmed(d)));
        }
        ghost var s := Snapshot();
        r := world.Sleep(0.2, s);
        assert Snapshot() == world.Of(s);
        if r.Raised? {
          return;
        }
      }
    }

    method MoveDoor(d: Direction) returns (r: Outcome<()>)
      requires Valid()
      modifies this, world, evidence
      ensures Step(Snapshot(), r) == Reported(Moved(binding, world.script, old(Snapshot()), d))
    {
      evidence.Invalidate();
      ghost var s := Snapshot();
      r := world.Call(DoorCommand(d), s);
      assert Snapshot() == world.Of(s);
      if r.Returned? {
        r := WaitFor(d);
      }
      if r.Raised? && r.error.Fault? {
        phase := Blocked;
        lastError := if r.error.code.Some? then r.error.code else Some(DoorCommandFailed);
        r := Raised(Refused(lastError.value));
      }
    }

    method OpenDoor() returns (r: Outcome<()>)
      requires Valid()
      modifies this, world, evidence
      ensures Step(Snapshot(), r) == DoorOpened(binding, world.script, old(Snapshot()))
    {
      hide Answer, Moved;
      Refresh();
      var reason := BlockedBy(state);
      if reason != None {
        phase := Blocked;
        lastError := Some(DoorBlocked(reason.value));
        return Raised(Refused(DoorBlocked(reason.value)));
      }
      if state.OpenConfirmed() {
        taskInProgress, phase, lastError := true, Outside, None;
        return Returned(());
      }
      phase := Opening;
      r := MoveDoor(Open);
      if r.Returned? {
        taskInProgress, phase, lastError := true, Outside, None;
        r := Returned(());
      }
    }

    method CloseDoor() returns (r: Outcome<()>)
      requires Valid()
      modifies this, world, evidence
      ensures Step(Snapshot(), r) == DoorClosed(binding, world.script, old(Snapshot()))
    {
      hide Answer, Moved;
      Refresh();
      var reason := BlockedBy(state);
      if reason != None {
        phase := Blocked;
        lastError := Some(DoorBlocked(reason.value));
        return Raised(Refused(DoorBlocked(reason.value)));
      }
      if !world.script(world.tick).closeAllowed {
        return Raised(Refused(CloseNotAllowed));
      }
      if state.ClosedConfirmed() {
        phase, lastError := AtRest, None;
        return Returned(());
      }
      phase := Closing;
      r := MoveDoor(Close);
      if r.Returned? {
        lastError := None;
        r := Returned(());
      }
    }

    method PauseOpenCloseResume() returns (r: Outcome<bool>)
      requires Valid()
      modifies this, world, evidence
      ensures Step(Snapshot(), r) == PausedClosedResumed(binding, world.script, old(Snapshot()))
    {
      hide Answer, DoorClosed;
      phase := PausingExit;
      ghost var s := Snapshot();
      var paused := world.AskRobot(Pause(Departure), s);
      assert Snapshot() == world.Of(s);
      if paused.Raised? {
        return Raised(paused.error);
      }
      Refresh();
      if !robot.state.Paused? {
        phase, lastError := Blocked, Some(PauseNotObserved);
        return Returned(false);
      }
      var done := CloseDoor();
      match done {
        case Returned(_) => r := Returned(true);
        case Raised(Refused(x)) =>
          lastError, phase := Some(x), Blocked;
          r := Returned(false);
        case Raised(e) => r := Raised(e);
      }
      ghost var s' := Snapshot();
      var resumed := world.AskRobot(Resume(Departure), s');
      assert Snapshot() == world.Of(s');
      if resumed.Raised? {
        r := Raised(resumed.error);
      }
    }

    method UpdateAfterDeparture() returns (r: Outcome<bool>)
      requires Valid()
      modifies this, world, evidence
      ensures Step(Snapshot(), r) == Departed(binding, world.script, old(Snapshot()))
    {
      hide Answer, PausedClosedResumed;
      Refresh();
      if !robot.Outside() {
        return Returned(false);
      }
      if state.ClosedConfirmed() {
        phase := ClosedOutside;
        return Returned(true);
      }
      if BlockedBy(state) != None {
        phase := Blocked;
        return Returned(true);
      }
      r := PauseOpenCloseResume();
      if r.Raised? {
        return;
      }
      if r.value {
        taskInProgress := false;
      }
      phase := if r.value then ClosedOutside else Blocked;
      r := Returned(true);
    }

    method UpdateReturning() returns (r: Outcome<()>)
      requires Valid()
      modifies this, world, evidence
      ensures Step(Snapshot(), r) == CameBack(binding, world.script, old(Snapshot()))
    {
      hide Answer, DoorOpened;
      Refresh();
      if !IsReturning(robot.state) {
        return Returned(());
      }
      if state.OpenConfirmed() {
        return Returned(());
      }
      phase := PausingReturn;
      ghost var s := Snapshot();
      r := world.AskRobot(Pause(Return), s);
      assert Snapshot() == world.Of(s);
      if r.Raised? {
        return;
      }
      Refresh();
      if !robot.state.Paused? {
        phase, lastError := Blocked, Some(PauseNotObserved);
        return Raised(Refused(PauseNotObserved));
      }
      phase := Opening;
      r := OpenDoor();
      if r.Raised? {
        return;
      }
      phase := ResumingReturn;
      ghost var s' := Snapshot();
      r := world.AskRobot(Resume(Return), s');
      assert Snapshot() == world.Of(s');
      if r.Returned? {
        phase := Outside;
      }
    }

    method SequenceFinished() returns (r: Outcome<bool>)
      requires Valid()
      modifies this, world, evidence
      ensures Step(Snapshot(), r) == Finished(binding, world.script, old(Snapshot()))
    {
      hide Answer, DoorOpened, DoorClosed;
      Refresh();
      if !taskInProgress {
        return Returned(false);
      }
      if robot.TaskRunning() {
        if robot.docked && !state.OpenConfirmed() {
          if BlockedBy(state) != None {
            phase := Blocked;
            return Returned(false);
          }
          var done := OpenDoor();
          match done {
            case Returned(_) => return Returned(false);
            case Raised(Refused(x)) =>
              lastError, phase := Some(x), Blocked;
              return Returned(false);
            case Raised(e) => return Raised(e);
          }
        }
        return Returned(false);
      }
      if !robot.docked {
        return Returned(false);
      }
      if state.ClosedConfirmed() {
        taskInProgress, phase := false, AtRest;
        return Returned(true);
      }
      if BlockedBy(state) != None {
        phase, taskInProgress := Blocked, false;
        return Returned(true);
      }
      var done := CloseDoor();
      match done {
        case Returned(_) =>
          taskInProgress, phase := false, AtRest;
          return Returned(true);
        case Raised(Refused(x)) =>
          lastError, phase := Some(x), Blocked;
          taskInProgress := false;
          return Returned(true);
        case Raised(e) => return Raised(e);
      }
    }
  }
}
