/**
 Whole sequences in worlds that can happen, after which the robot stands before a closed door: in mid-task
 on its dock, or held on its way back. For every accepted binding with a contact at each endpoint.
 */
module GarageStranding {
  import opened Common
  import opened GarageBinding
  import opened GarageConfig
  import opened DoorEvidence
  import opened DoorHistory
  import opened RobotStates
  import opened GarageDoor
  import opened GarageRuntime
  import opened GarageSafety
  import opened GarageOutcomes
  import opened WaitSucceeds
  import opened StandingDoor

  ghost predicate ByContacts(b: Binding, supported: bool)
  {
    IsEnabled(b) && Acceptable(b, supported) && Is(b, Source(Open), "contact") && Is(b, Source(Close), "contact")
  }

  /** What was commanded: the record without the looks. */
  function Issued(log: seq<Event>): seq<Event>
  {
    if log == [] then []
    else
      var last := log[|log| - 1];
      Issued(log[..|log| - 1]) + if last.Seen? then [] else [last]
  }

  lemma CommandAdded(log: seq<Event>, e: Event)
    ensures Issued(log + [e]) == Issued(log) + if e.Seen? then [] else [e]
  {
    assert (log + [e])[..|log|] == log;
  }

  /** From `s` to `s'` the commands `cs` were issued, in this order and no others. */
  predicate Adds(s: Garage, s': Garage, cs: seq<Event>)
  {
    Issued(s'.log) == Issued(s.log) + cs
  }

  /** A moment in which nothing fails, with the door standing at `d`; it lasts `lag` longer than asked. */
  function Still(b: Binding, d: Direction, robot: Robot, lag: NonNegative): Moment
  {
    Moment(Standing(b, d), robot, true, false, None, lag)
  }

  /** A look at the moment `m` that shows a readable door at `d` and not at the other endpoint. */
  predicate LooksAt(e: Event, m: Moment, d: Direction)
  {
    && e.Seen? && e.moment == m && Shows(e, d) && !Shows(e, Opposite(d))
    && BlockedReason(e.open, e.close, e.coverAvailable).None?
  }

  /** A look at a door whose contacts say where it stands. */
  lemma LookAtStanding(b: Binding, supported: bool, w: Script, s: Garage, d: Direction)
    requires ByContacts(b, supported) && Sound(s.evidence, s.now) && w(s.tick).door == Standing(b, d)
    ensures var s1 := Refreshed(b, w, s);
            && Sound(s1.evidence, s1.now) && BlockedBy(s1.door).None?
            && EndpointConfirmed(s1.door, d) && !EndpointConfirmed(s1.door, Opposite(d))
            && LooksAt(Look(s.now, w(s.tick), s1.door), w(s.tick), d)
            && s1 == s.(robot := w(s.tick).robot, door := s1.door, evidence := s1.evidence,
                        log := s.log + [Look(s.now, w(s.tick), s1.door)])
            && Adds(s, s1, [])
  {
    CommandAdded(s.log, Look(s.now, w(s.tick), Refreshed(b, w, s).door));
    hide Answer, Standing, BlockedReason, Acceptable;
    StandingIsAtEndpoint(b, supported, d);
    ValidSourcesAreConfigured(b, supported, d);
    ContactConfirmsAtOnce(b, s.evidence, s.now, w(s.tick).door, d);
    StandingIsReadable(b, supported, s.evidence, s.now, d);
    AnswerStaysSound(b, s.evidence, s.now, w(s.tick).door);
    LookIsTrue(b, w, s);
  }

  // -- one operation at a time ------------------------------------------------

  /** Where an operation leads: so many stretches and seconds on, with this flag, and having commanded this. */
  predicate Leads(s: Garage, s': Garage, ticks: nat, seconds: real, flag: bool, cs: seq<Event>)
  {
    && s'.tick == s.tick + ticks && s'.now == s.now + seconds && s'.taskInProgress == flag
    && Sound(s'.evidence, s'.now) && Adds(s, s', cs)
  }

  /** The door stands at the other endpoint now, and at `d` as soon as it has been commanded. */
  predicate Obeys(b: Binding, w: Script, t: nat, d: Direction)
  {
    && w(t) == Still(b, Opposite(d), w(t).robot, w(t).lag)
    && w(t + 1).door == Standing(b, d)
  }

  lemma MovesAsTold(b: Binding, supported: bool, w: Script, s: Garage, d: Direction)
    requires ByContacts(b, supported) && Sound(s.evidence, s.now) && Obeys(b, w, s.tick, d)
    ensures var r := Reported(Moved(b, w, s, d));
            && r.r.Returned? && Leads(s, r.s, 1, w(s.tick).lag, s.taskInProgress, [DoorCommand(d)])
            && EndsWith(r.s.log, d)
  {
    hide Refreshed, Standing, Issued;
    CommandAdded(s.log, DoorCommand(d));
    var called := Called(w, s.(evidence := Invalidated(s.evidence)), DoorCommand(d));
    LookAtStanding(b, supported, w, called.s, d);
    ValidTimings(b, supported, OperationTimeout);
    hide ByContacts, BlockedReason;
  }

  lemma OpensAsTold(b: Binding, supported: bool, w: Script, s: Garage)
    requires ByContacts(b, supported) && Sound(s.evidence, s.now) && Obeys(b, w, s.tick, Open)
    ensures var r := DoorOpened(b, w, s);
            r.r.Returned? && Leads(s, r.s, 1, w(s.tick).lag, true, [DoorCommand(Open)])
  {
    hide Refreshed, Moved, BlockedBy, Standing, Issued, ByContacts;
    LookAtStanding(b, supported, w, s, Close);
    MovesAsTold(b, supported, w, Refreshed(b, w, s).(phase := Opening), Open);
  }

  lemma ClosesAsTold(b: Binding, supported: bool, w: Script, s: Garage)
    requires ByContacts(b, supported) && Sound(s.evidence, s.now) && Obeys(b, w, s.tick, Close)
    ensures var r := DoorClosed(b, w, s);
            && r.r.Returned? && Leads(s, r.s, 1, w(s.tick).lag, s.taskInProgress, [DoorCommand(Close)])
            && EndsWith(r.s.log, Close)
  {
    hide Refreshed, Moved, BlockedBy, Standing, Issued, ByContacts;
    LookAtStanding(b, supported, w, s, Open);
    MovesAsTold(b, supported, w, Refreshed(b, w, s).(phase := Closing), Close);
  }

  // -- passes that only look --------------------------------------------------

  /** A robot that asks nothing of a controller whose task flag is not set. */
  predicate AsksNothing(robot: Robot)
  {
    !IsReturning(robot.state) && !robot.Outside()
  }

  lemma PassOnlyLooks(b: Binding, supported: bool, w: Script, s: Garage, d: Direction)
    requires ByContacts(b, supported) && Sound(s.evidence, s.now) && w(s.tick).door == Standing(b, d)
    requires !s.taskInProgress && AsksNothing(w(s.tick).robot)
    ensures var r := Pass(b, w, s);
            && r.r == Returned(false) && r.s.tick == s.tick && r.s.now == s.now && !r.s.taskInProgress
            && Sound(r.s.evidence, r.s.now)
            && s.log < r.s.log && forall k :: |s.log| <= k < |r.s.log| ==> LooksAt(r.s.log[k], w(s.tick), d)
  {
    hide Refreshed, BlockedBy, Standing, ByContacts, CameBack, PausedClosedResumed, DoorOpened, DoorClosed, LooksAt;
    hide Issued, Adds;
    LookAtStanding(b, supported, w, s, d);
    var s1 := Refreshed(b, w, s);
    LookAtStanding(b, supported, w, s1, d);
    var s2 := Refreshed(b, w, s1);
    LookAtStanding(b, supported, w, s2, d);
    var s3 := Refreshed(b, w, s2);
    LookAtStanding(b, supported, w, s3, d);
  }

  /** If nothing changes any more, nothing but such looks follows until the deadline. */
  lemma {:induction false} RoundsOnlyLook(
      b: Binding, supported: bool, w: Script, s: Garage, m: Moment, d: Direction, deadline: real)
    requires ByContacts(b, supported) && Sound(s.evidence, s.now) && !s.taskInProgress
    requires forall t: nat :: t >= s.tick ==> w(t) == m
    requires m == Still(b, d, m.robot, m.lag) && AsksNothing(m.robot)
    ensures var r := Rounds(b, w, s, deadline);
            && r.r.Returned? && r.s.now >= deadline
            && (s.now < deadline + 1.0 + m.lag ==> r.s.now < deadline + 1.0 + m.lag)
            && s.log < r.s.log && forall k :: |s.log| <= k < |r.s.log| ==> LooksAt(r.s.log[k], m, d)
    decreases deadline - s.now
  {
    hide Pass, ByContacts, LooksAt, Standing;
    PassOnlyLooks(b, supported, w, s, d);
    var pass := Pass(b, w, s);
    if pass.s.now < deadline {
      RoundsOnlyLook(b, supported, w, Slept(w, pass.s, 1.0).s, m, d, deadline);
    }
  }

  // -- closing behind the robot -----------------------------------------------

  const CLEANING := Robot(Cleaning, false, true, true, Some(true), Some(true))

  const PAUSED := CLEANING.(state := Paused)

  const HOMING := CLEANING.(state := ReturningHome)

  /** From stretch `start` on the robot works outside, is paused, and the door closes behind it. */
  predicate ClosesBehind(b: Binding, w: Script, start: nat)
  {
    && w(start) == Still(b, Open, CLEANING, 0.0)
    && w(start + 1) == Still(b, Open, PAUSED, 0.0)
    && w(start + 2) == Still(b, Close, PAUSED, 0.0)
    && w(start + 3) == Still(b, Close, CLEANING, w(start + 3).lag)
  }

  /** The attempt to close behind the paused robot. */
  lemma ClosingSucceeds(b: Binding, supported: bool, w: Script, s: Garage, start: nat)
    requires ByContacts(b, supported) && Sound(s.evidence, s.now) && ClosesBehind(b, w, start) && s.tick == start + 1
    ensures var r := DoorClosed(b, w, s);
            && r.r.Returned? && r.s.tick == start + 2 && r.s.now == s.now && Sound(r.s.evidence, r.s.now)
            && Adds(s, r.s, [DoorCommand(Close)])
  {
    ClosesAsTold(b, supported, w, s);
    hide Standing, ByContacts, Issued, DoorClosed;
  }

  lemma DepartureSucceeds(b: Binding, supported: bool, w: Script, s: Garage)
    requires ByContacts(b, supported) && Sound(s.evidence, s.now) && ClosesBehind(b, w, s.tick)
    ensures var r := Departed(b, w, s);
            && r.r == Returned(true) && r.s.tick == s.tick + 3 && r.s.now == s.now && !r.s.taskInProgress
            && Sound(r.s.evidence, r.s.now)
            && s.log < r.s.log && r.s.log[|r.s.log| - 1] == Resume(Departure)
            && Adds(s, r.s, [Pause(Departure), DoorCommand(Close), Resume(Departure)])
  {
    hide Refreshed, BlockedBy, Standing, ByContacts, DoorClosed, Issued;
    LookAtStanding(b, supported, w, s, Open);
    var s1 := Refreshed(b, w, s);
    CommandAdded(s1.log, Pause(Departure));
    CommandAdded(DoorClosed(b, w, HeldGarage(b, w, s1)).s.log, Resume(Departure));
    var paused := AskedRobot(w, s1.(phase := PausingExit), Pause(Departure));
    LookAtStanding(b, supported, w, paused.s, Open);
    var held := Refreshed(b, w, paused.s);
    ClosingSucceeds(b, supported, w, held, s.tick);
    ClosingConfirms(b, w, held);
  }

  lemma FirstPass(b: Binding, supported: bool, w: Script, s: Garage)
    requires ByContacts(b, supported) && Sound(s.evidence, s.now) && ClosesBehind(b, w, s.tick)
    ensures var r := Pass(b, w, s);
            && r.r == Returned(false) && r.s.tick == s.tick + 3 && r.s.now == s.now && !r.s.taskInProgress
            && Sound(r.s.evidence, r.s.now)
            && |r.s.log| >= |s.log| + 2 && s.log < r.s.log
            && r.s.log[|r.s.log| - 2] == Resume(Departure) && LooksAt(r.s.log[|r.s.log| - 1], w(s.tick + 3), Close)
            && Adds(s, r.s, [Pause(Departure), DoorCommand(Close), Resume(Departure)])
  {
    hide Issued, Refreshed, BlockedBy, Standing, ByContacts, CameBack, Departed, DoorOpened, DoorClosed, LooksAt;
    LookAtStanding(b, supported, w, s, Open);
    var s1 := Refreshed(b, w, s);
    LookAtStanding(b, supported, w, s1, Open);
    var s2 := Refreshed(b, w, s1);
    DepartureSucceeds(b, supported, w, s2);
    LookAtStanding(b, supported, w, Departed(b, w, s2).s, Close);
  }

  /** A whole sequence up to its second pass; the rest of it is what `Rounds` does from there. */
  lemma SequenceClosesBehind(b: Binding, supported: bool, w: Script, s: Garage, timeout: real) returns (after: Garage)
    requires ByContacts(b, supported) && Sound(s.evidence, s.now) && ClosesBehind(b, w, s.tick)
    ensures SequenceRun(b, w, s, timeout) == Absorbed(Rounds(b, w, after, s.now + Max(1.0, timeout)))
    ensures after.tick == s.tick + 4 && after.now == s.now + 1.0 + w(s.tick + 3).lag && !after.taskInProgress
    ensures Sound(after.evidence, after.now)
    ensures |after.log| >= |s.log| + 2 && s.log < after.log
    ensures after.log[|after.log| - 2] == Resume(Departure) && LooksAt(after.log[|after.log| - 1], w(s.tick + 3), Close)
  {
    hide Refreshed, Pass, Standing, ByContacts, LooksAt, BlockedBy;
    LookAtStanding(b, supported, w, s, Open);
    var started := Refreshed(b, w, s);
    assert Started(b, w, s, s.now + START_CONFIRMATION_SECONDS) == Step(started, Returned(true));
    FirstPass(b, supported, w, started);
    after := Slept(w, Pass(b, w, started).s, 1.0).s;
  }

  // -- on the dock in mid-task ------------------------------------------------

  const IN_DOORWAY := CLEANING.(outsideDangerZone := Some(false))

  const RECHARGING := Robot(Charging, true, true, true, Some(false), Some(true))

  /** The household lets the robot in while it still cleans, and shuts the door behind it. */
  function Stranding(b: Binding, start: nat): Script
  {
    (t: nat) =>
      if t == start then Still(b, Open, CLEANING, 0.0)
      else if t == start + 1 then Still(b, Open, PAUSED, 0.0)
      else if t == start + 2 then Still(b, Close, PAUSED, 0.0)
      else if t == start + 3 then Still(b, Close, CLEANING, 29.0)
      else if t == start + 4 then Still(b, Open, IN_DOORWAY, 29.0)
      else Still(b, Close, RECHARGING, 0.0)
  }

  lemma StrandingUnfolds(b: Binding, start: nat)
    ensures var w := Stranding(b, start);
            && ClosesBehind(b, w, start) && w(start + 3).lag == 29.0
            && w(start + 4) == Still(b, Open, IN_DOORWAY, 29.0)
            && forall t: nat :: t >= start + 5 ==> w(t) == Still(b, Close, RECHARGING, 0.0)
  {
    hide Standing;
    var w := Stranding(b, start);
    assert w(start) == Still(b, Open, CLEANING, 0.0) && w(start + 1) == Still(b, Open, PAUSED, 0.0);
    assert w(start + 2) == Still(b, Close, PAUSED, 0.0);
    assert w(start + 3) == Still(b, Close, CLEANING, 29.0);
  }

  /** Event `n` shows the robot in the open doorway, and all later ones show it on its dock before the closed door. */
  predicate LeftAfter(log: seq<Event>, n: nat)
  {
    && n < |log| - 1 && log[n].Seen? && InDoorway(log[n].moment.robot) && Shows(log[n], Open)
    && forall k :: n < k < |log| ==> SawDockedMidTask(Some(log[k])) && Shows(log[k], Close)
  }

  lemma StrandedRounds(b: Binding, supported: bool, w: Script, s: Garage, start: nat, deadline: real)
    requires ByContacts(b, supported) && Sound(s.evidence, s.now) && !s.taskInProgress
    requires w == Stranding(b, start) && s.tick == start + 4 && s.now + 30.0 <= deadline
    ensures var r := Rounds(b, w, s, deadline);
            && r.r.Returned? && r.s.now >= deadline && s.log <= r.s.log
            && (forall k :: |s.log| <= k < |r.s.log| ==> r.s.log[k].Seen?)
            && exists n :: |s.log| <= n && LeftAfter(r.s.log, n)
  {
    hide Pass, Standing, ByContacts, Rounds, Stranding, ClosesBehind, BlockedReason;
    StrandingUnfolds(b, start);
    PassOnlyLooks(b, supported, w, s, Open);
    var pass := Pass(b, w, s).s;
    var slept := Slept(w, pass, 1.0).s;
    NextRound(b, w, s, deadline);
    RoundsOnlyLook(b, supported, w, slept, Still(b, Close, RECHARGING, 0.0), Close, deadline);
    var log := Rounds(b, w, s, deadline).s.log;
    assert forall k :: 0 <= k < |pass.log| ==> log[k] == pass.log[k];
    assert LeftAfter(log, |pass.log| - 1);
  }

  /**
   It happens: the sequence closes the door behind the robot and lets it go on; the household lets the robot
   in and shuts the door; and then the sequence only looks, at a robot on its dock in mid-task before the
   closed door, until it ends by its deadline.
   */
  lemma RobotIsLeftBeforeClosedDoor(b: Binding, supported: bool, s: Garage, timeout: real)
    requires ByContacts(b, supported) && Sound(s.evidence, s.now) && timeout >= 60.0
    ensures var r := SequenceRun(b, Stranding(b, s.tick), s, timeout);
            && r.r.Returned? && r.s.now >= s.now + timeout
            && exists m, n ::
                 && |s.log| <= m < n && LeftAfter(r.s.log, n) && r.s.log[m] == Resume(Departure)
                 && forall k :: m < k < |r.s.log| ==> r.s.log[k].Seen?
  {
    hide Rounds, Stranding, ClosesBehind, SequenceRun, Standing, ByContacts, LeftAfter, LooksAt;
    var w, deadline := Stranding(b, s.tick), s.now + Max(1.0, timeout);
    StrandingUnfolds(b, s.tick);
    var after := SequenceClosesBehind(b, supported, w, s, timeout);
    StrandedRounds(b, supported, w, after, s.tick, deadline);
    var log := Rounds(b, w, after, deadline).s.log;
    var n :| |after.log| <= n && LeftAfter(log, n);
    var m := |after.log| - 2;
    LookIsSeen(after.log[m + 1], w(s.tick + 3), Close);
    assert log[m] == after.log[m] && log[m + 1] == after.log[m + 1];
  }

  lemma LookIsSeen(e: Event, m: Moment, d: Direction)
    requires LooksAt(e, m, d)
    ensures e.Seen? && Shows(e, d)
  {
  }

  /** A pass that does not end the sequence, and the sleep after it. */
  lemma NextRound(b: Binding, w: Script, s: Garage, deadline: real)
    requires !w(s.tick).unloaded && Pass(b, w, s).r == Returned(false) && Pass(b, w, s).s.now < deadline
    requires Slept(w, Pass(b, w, s).s, 1.0).r.Returned?
    ensures Rounds(b, w, s, deadline) == Rounds(b, w, Slept(w, Pass(b, w, s).s, 1.0).s, deadline)
  {
    hide Pass;
  }
}
