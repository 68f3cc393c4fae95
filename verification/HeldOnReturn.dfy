/**
 A robot held on its way back. One failed attempt to open leaves it paused, and from then on good looks
 alone change nothing: it goes on only if it is read outside before a door that is not closed.
 */
module HeldOnReturn {
  import opened Common
  import opened GarageBinding
  import opened GarageConfig
  import opened DoorEvidence
  import opened DoorHistory
  import opened RobotStates
  import opened GarageDoor
  import opened GarageRuntime
  import opened GarageSafety
  import opened GarageOutcomes
  import opened StandingDoor
  import opened GarageStranding

  /** Paused away from its dock, with its task still running. */
  predicate StandsHeld(robot: Robot)
  {
    robot.state.Paused? && !robot.docked && robot.TaskRunning()
  }

  // -- how it comes to be held ------------------------------------------------

  /** Nothing can be read of the door. */
  predicate Unreadable(r: Reading)
  {
    !r.coverAvailable || r.restored
  }

  lemma UnreadableBlocks(b: Binding, w: Script, s: Garage)
    requires Unreadable(w(s.tick).door)
    ensures BlockedBy(Refreshed(b, w, s).door).Some?
  {
    hide JudgeBoth, ContactsConflict;
  }

  /** One unreadable stretch right after the pause, and the way back ends with a refusal and no resume. */
  lemma OneBadLookHolds(b: Binding, w: Script, s: Garage)
    requires var s1 := Refreshed(b, w, s);
             IsReturning(s1.robot.state) && !s1.door.OpenConfirmed()
    requires !w(s.tick).unloaded && w(s.tick).failure.None?
    requires w(s.tick + 1).robot.state.Paused? && Unreadable(w(s.tick + 1).door)
    ensures var r := CameBack(b, w, s);
            && r.r.Raised? && r.r.error.Refused? && r.s.tick == s.tick + 1
            && |r.s.log| == |s.log| + 4 && s.log <= r.s.log
            && r.s.log[|s.log|].Seen? && r.s.log[|s.log| + 1] == Pause(Return)
            && r.s.log[|s.log| + 2].Seen? && r.s.log[|s.log| + 3].Seen?
  {
    hide Answer, Refreshed, BlockedBy, Unreadable;
    LookIsTrue(b, w, s);
    var paused := AskedRobot(w, Refreshed(b, w, s).(phase := PausingReturn), Pause(Return));
    LookIsTrue(b, w, paused.s);
    var held := Refreshed(b, w, paused.s).(phase := Opening);
    LookIsTrue(b, w, held);
    UnreadableBlocks(b, w, held);
  }

  // -- what it takes to go on -------------------------------------------------

  /** The third look of a pass over the rules, on which the departure rule decides. */
  function ThirdLook(b: Binding, w: Script, s: Garage): Garage
  {
    Refreshed(b, w, Refreshed(b, w, Refreshed(b, w, s)))
  }

  /** The departure rule takes the held robot for one that has just left. */
  predicate TakenForDeparted(b: Binding, w: Script, s: Garage)
  {
    var door := ThirdLook(b, w, s).door;
    w(s.tick).robot.Outside() && BlockedBy(door).None? && !door.ClosedConfirmed()
  }

  /** A pass that leaves a held robot alone is four looks. */
  lemma PassLeavesHeld(b: Binding, w: Script, s: Garage)
    requires StandsHeld(w(s.tick).robot) && !TakenForDeparted(b, w, s)
    ensures var r := Pass(b, w, s);
            && r.r == Returned(false) && r.s.tick == s.tick && r.s.now == s.now
            && s.log < r.s.log && OnlyLooks(r.s.log, |s.log|)
  {
    hide Answer, Refreshed, BlockedBy, CameBack, PausedClosedResumed, DoorOpened, DoorClosed;
    LookIsTrue(b, w, s);
    var s1 := Refreshed(b, w, s);
    LookIsTrue(b, w, s1);
    var s2 := Refreshed(b, w, s1);
    LookIsTrue(b, w, s2);
    LookIsTrue(b, w, Departed(b, w, s2).s);
  }

  lemma PausingBegins(b: Binding, w: Script, s: Garage)
    requires !w(s.tick).unloaded
    ensures s.log + [Pause(Departure)] <= PausedClosedResumed(b, w, s).s.log
  {
    hide Answer, Refreshed, DoorClosed;
    var paused := AskedRobot(w, s.(phase := PausingExit), Pause(Departure));
    LookIsTrue(b, w, paused.s);
    ClosingConfirms(b, w, Refreshed(b, w, paused.s));
  }

  lemma DepartureBegins(b: Binding, w: Script, s: Garage)
    requires !w(s.tick).unloaded
    requires var s1 := Refreshed(b, w, s);
             s1.robot.Outside() && BlockedBy(s1.door).None? && !s1.door.ClosedConfirmed()
    ensures Refreshed(b, w, s).log + [Pause(Departure)] <= Departed(b, w, s).s.log
  {
    hide Refreshed, BlockedBy, PausedClosedResumed;
    LookIsTrue(b, w, s);
    PausingBegins(b, w, Refreshed(b, w, s));
  }

  /** A pass that takes it for departed pauses it once more, to close the door on its way back. */
  lemma PassClosesOnHeld(b: Binding, w: Script, s: Garage)
    requires StandsHeld(w(s.tick).robot) && !w(s.tick).unloaded && TakenForDeparted(b, w, s)
    ensures var log := Pass(b, w, s).s.log;
            |log| > |s.log| + 3 && s.log <= log && log[|s.log| + 3] == Pause(Departure)
  {
    hide Answer, Refreshed, BlockedBy, CameBack, Departed, Finished;
    LookIsTrue(b, w, s);
    var s1 := Refreshed(b, w, s);
    LookIsTrue(b, w, s1);
    var s2 := Refreshed(b, w, s1);
    LookIsTrue(b, w, s2);
    DepartureBegins(b, w, s2);
    var departed := Departed(b, w, s2).s;
    FinishOnlyAdds(b, w, departed);
    var log := Refreshed(b, w, s2).log + [Pause(Departure)];
    assert log[|s.log| + 3] == Pause(Departure) && s.log <= log <= departed.log;
    assert departed.log[|s.log| + 3] == log[|s.log| + 3];
  }

  lemma FinishOnlyAdds(b: Binding, w: Script, s: Garage)
    ensures s.log <= Finished(b, w, s).s.log
  {
    hide Answer, Refreshed, BlockedBy, DoorOpened, DoorClosed;
    LookIsTrue(b, w, s);
    OpeningConfirms(b, w, Refreshed(b, w, s));
    ClosingConfirms(b, w, Refreshed(b, w, s));
  }

  /**
   Exactly: with the runtime loaded, a pass does more than look at a held robot if and only if the robot is
   read outside and the third look shows a door that is readable and not closed.
   */
  lemma PassActsExactly(b: Binding, w: Script, s: Garage)
    requires StandsHeld(w(s.tick).robot) && !w(s.tick).unloaded
    ensures !OnlyLooks(Pass(b, w, s).s.log, |s.log|) <==> TakenForDeparted(b, w, s)
  {
    hide Pass, TakenForDeparted;
    if TakenForDeparted(b, w, s) {
      PassClosesOnHeld(b, w, s);
    } else {
      PassLeavesHeld(b, w, s);
    }
  }

  /** From now on the robot stands held and is never read outside. */
  ghost predicate StaysHeld(w: Script, from: nat)
  {
    forall t: nat :: t >= from ==> StandsHeld(w(t).robot) && !w(t).robot.Outside()
  }

  /**
   In every world, for every binding and whatever the door shows: a held robot that is not read outside stays
   held, for the whole rest of the sequence only looks.
   */
  lemma {:induction false} HeldStaysHeld(b: Binding, w: Script, s: Garage, deadline: real)
    requires StaysHeld(w, s.tick)
    ensures var r := Rounds(b, w, s, deadline);
            && s.log <= r.s.log && OnlyLooks(r.s.log, |s.log|)
            && (r.r.Returned? ==> w(r.s.tick).unloaded || r.s.now >= deadline)
            && (r.r.Raised? ==> r.r.error.Cancelled?)
    decreases deadline - s.now
  {
    hide Pass, StandsHeld;
    if !w(s.tick).unloaded {
      PassLeavesHeld(b, w, s);
      var pass := Pass(b, w, s);
      if pass.s.now < deadline {
        var slept := Slept(w, pass.s, 1.0);
        if slept.r.Returned? {
          HeldStaysHeld(b, w, slept.s, deadline);
        }
      }
    }
  }

  // -- a whole run ------------------------------------------------------------

  const HELD := Robot(Paused, false, true, false, None, Some(true))

  /** After the door has closed behind it the robot comes home; the one command to open fails, nothing else does. */
  function Faltering(b: Binding, start: nat): Script
  {
    (t: nat) =>
      if t == start then Still(b, Open, CLEANING, 0.0)
      else if t == start + 1 then Still(b, Open, PAUSED, 0.0)
      else if t == start + 2 then Still(b, Close, PAUSED, 0.0)
      else if t == start + 3 then Still(b, Close, CLEANING, 0.0)
      else if t == start + 4 then Still(b, Close, HOMING, 0.0)
      else if t == start + 5 then Still(b, Close, HELD, 0.0).(failure := Some(Fault(None)))
      else Still(b, Close, HELD, 0.0)
  }

  lemma FalteringUnfolds(b: Binding, start: nat)
    ensures var w := Faltering(b, start);
            && ClosesBehind(b, w, start) && w(start + 3).lag == 0.0
            && w(start + 4) == Still(b, Close, HOMING, 0.0)
            && w(start + 5) == Still(b, Close, HELD, 0.0).(failure := Some(Fault(None)))
            && forall t: nat :: t >= start + 6 ==> w(t) == Still(b, Close, HELD, 0.0)
  {
    hide Standing;
    var w := Faltering(b, start);
    assert w(start) == Still(b, Open, CLEANING, 0.0) && w(start + 1) == Still(b, Open, PAUSED, 0.0);
    assert w(start + 2) == Still(b, Close, PAUSED, 0.0);
    assert w(start + 3) == Still(b, Close, CLEANING, 0.0);
  }

  /** A look at the held robot before a door that is closed and readable. */
  predicate HeldLook(e: Event)
  {
    && e.Seen? && StandsHeld(e.moment.robot) && Shows(e, Close) && !Shows(e, Open)
    && BlockedReason(e.open, e.close, e.coverAvailable).None?
  }

  /** From event `m` on: the pause on the way back, two looks, the one command to open, and then only looks. */
  predicate HeldFrom(log: seq<Event>, m: nat)
  {
    && m + 4 < |log| && log[m] == Pause(Return) && log[m + 3] == DoorCommand(Open)
    && forall k :: m < k < |log| && k != m + 3 ==> HeldLook(log[k])
  }

  lemma OpeningFails(b: Binding, supported: bool, w: Script, s: Garage)
    requires ByContacts(b, supported) && Sound(s.evidence, s.now)
    requires w(s.tick) == Still(b, Close, HELD, 0.0).(failure := Some(Fault(None)))
    ensures var r := DoorOpened(b, w, s);
            && r.r == Raised(Refused(DoorCommandFailed)) && r.s.tick == s.tick + 1 && r.s.now == s.now
            && Sound(r.s.evidence, r.s.now) && r.s.taskInProgress == s.taskInProgress
            && |r.s.log| == |s.log| + 2 && s.log <= r.s.log
            && HeldLook(r.s.log[|s.log|]) && r.s.log[|s.log| + 1] == DoorCommand(Open)
  {
    hide Refreshed, BlockedBy, Standing, ByContacts, WaitedFor;
    LookAtStanding(b, supported, w, s, Close);
  }

  lemma WayBackFails(b: Binding, supported: bool, w: Script, s: Garage)
    requires ByContacts(b, supported) && Sound(s.evidence, s.now)
    requires w(s.tick) == Still(b, Close, HOMING, 0.0)
    requires w(s.tick + 1) == Still(b, Close, HELD, 0.0).(failure := Some(Fault(None)))
    ensures var r := CameBack(b, w, s);
            && r.r == Raised(Refused(DoorCommandFailed)) && r.s.tick == s.tick + 2 && r.s.now == s.now
            && Sound(r.s.evidence, r.s.now) && r.s.taskInProgress == s.taskInProgress
            && |r.s.log| == |s.log| + 5 && s.log <= r.s.log
            && r.s.log[|s.log| + 1] == Pause(Return)
            && HeldLook(r.s.log[|s.log| + 2]) && HeldLook(r.s.log[|s.log| + 3])
            && r.s.log[|s.log| + 4] == DoorCommand(Open)
  {
    hide Refreshed, BlockedBy, Standing, ByContacts, DoorOpened;
    LookAtStanding(b, supported, w, s, Close);
    var paused := AskedRobot(w, Refreshed(b, w, s).(phase := PausingReturn), Pause(Return));
    LookAtStanding(b, supported, w, paused.s, Close);
    OpeningFails(b, supported, w, Refreshed(b, w, paused.s).(phase := Opening));
  }

  lemma SecondPass(b: Binding, supported: bool, w: Script, s: Garage)
    requires ByContacts(b, supported) && Sound(s.evidence, s.now) && !s.taskInProgress
    requires w(s.tick) == Still(b, Close, HOMING, 0.0)
    requires w(s.tick + 1) == Still(b, Close, HELD, 0.0).(failure := Some(Fault(None)))
    requires w(s.tick + 2) == Still(b, Close, HELD, 0.0)
    ensures var r := Pass(b, w, s);
            && r.r == Returned(false) && r.s.tick == s.tick + 2 && r.s.now == s.now && !r.s.taskInProgress
            && Sound(r.s.evidence, r.s.now)
            && s.log <= r.s.log && HeldFrom(r.s.log, |s.log| + 3)
  {
    hide Refreshed, BlockedBy, Standing, ByContacts, CameBack, Departed, DoorOpened, DoorClosed, HeldLook;
    LookAtStanding(b, supported, w, s, Close);
    var s1 := Refreshed(b, w, s);
    LookAtStanding(b, supported, w, s1, Close);
    var s2 := Refreshed(b, w, s1);
    WayBackFails(b, supported, w, s2);
    var back := CameBack(b, w, s2).s;
    LookAtStanding(b, supported, w, back, Close);
    SteadyLookIsHeld(b, Look(back.now, w(back.tick), Refreshed(b, w, back).door));
  }

  lemma SteadyLookIsHeld(b: Binding, e: Event)
    requires LooksAt(e, Still(b, Close, HELD, 0.0), Close)
    ensures HeldLook(e)
  {
  }

  /** The rounds after the second pass add only looks at the held robot. */
  lemma HeldRounds(b: Binding, supported: bool, w: Script, s: Garage, deadline: real)
    requires ByContacts(b, supported) && Sound(s.evidence, s.now) && !s.taskInProgress
    requires forall t: nat :: t >= s.tick ==> w(t) == Still(b, Close, HELD, 0.0)
    ensures var r := Rounds(b, w, s, deadline);
            && r.r.Returned? && r.s.now >= deadline
            && s.log < r.s.log && forall k :: |s.log| <= k < |r.s.log| ==> HeldLook(r.s.log[k])
  {
    hide Rounds, ByContacts, Standing, HeldLook, LooksAt;
    RoundsOnlyLook(b, supported, w, s, Still(b, Close, HELD, 0.0), Close, deadline);
    var log := Rounds(b, w, s, deadline).s.log;
    forall k | |s.log| <= k < |log|
      ensures HeldLook(log[k])
    {
      SteadyLookIsHeld(b, log[k]);
    }
  }

  lemma FalteringRounds(b: Binding, supported: bool, w: Script, s: Garage, start: nat, deadline: real)
    requires ByContacts(b, supported) && Sound(s.evidence, s.now) && !s.taskInProgress
    requires w == Faltering(b, start) && s.tick == start + 4
    ensures var r := Rounds(b, w, s, deadline);
            && r.r.Returned? && r.s.now >= deadline && s.log <= r.s.log
            && HeldFrom(r.s.log, |s.log| + 3)
  {
    hide Pass, Standing, ByContacts, Faltering, ClosesBehind, HeldLook;
    FalteringUnfolds(b, start);
    SecondPass(b, supported, w, s);
    var pass := Pass(b, w, s).s;
    if pass.now < deadline {
      var slept := Slept(w, pass, 1.0).s;
      NextRound(b, w, s, deadline);
      HeldRounds(b, supported, w, slept, deadline);
      var log := Rounds(b, w, slept, deadline).s.log;
      assert forall k :: 0 <= k < |pass.log| ==> log[k] == pass.log[k];
    }
  }

  /**
   It happens: for every accepted binding with two contacts and every timeout there is a world in which one
   command to open fails, once, and although the door is readable in every look after it and the runtime stays
   loaded, the sequence only looks at the paused robot before the closed door until it ends by its deadline.
   */
  lemma OneFailureHoldsTheRobot(b: Binding, supported: bool, s: Garage, timeout: real)
    requires ByContacts(b, supported) && Sound(s.evidence, s.now)
    ensures var r := SequenceRun(b, Faltering(b, s.tick), s, timeout);
            && r.r.Returned? && r.s.now >= s.now + Max(1.0, timeout)
            && exists m :: |s.log| <= m && HeldFrom(r.s.log, m)
  {
    hide Rounds, Faltering, ClosesBehind, SequenceRun, Standing, ByContacts, HeldFrom, LooksAt;
    var w := Faltering(b, s.tick);
    FalteringUnfolds(b, s.tick);
    var after := SequenceClosesBehind(b, supported, w, s, timeout);
    FalteringRounds(b, supported, w, after, s.tick, s.now + Max(1.0, timeout));
    assert HeldFrom(SequenceRun(b, w, s, timeout).s.log, |after.log| + 3);
  }
}
