/**
 One whole trip that goes well, for every accepted binding with a contact at each endpoint: the door is opened
 and the clean sent, the door closes behind the robot, opens when it comes home, opens once more for a visit to
 the dock in mid-task, and closes at the end.
 */
module GarageTrip {
  import opened Common
  import opened GarageBinding
  import opened GarageConfig
  import opened DoorEvidence
  import opened DoorHistory
  import opened RobotStates
  import opened GarageDoor
  import opened GarageRuntime
  import opened GarageSafety
  import opened GarageOutcomes
  import opened StandingDoor
  import opened GarageStranding

  // -- one pass at a time -----------------------------------------------------

  /** The robot is away from its dock and works, inside: nothing is to be done. */
  lemma PassWaits(b: Binding, supported: bool, w: Script, s: Garage)
    requires ByContacts(b, supported) && Sound(s.evidence, s.now) && w(s.tick) == Still(b, Open, IN_DOORWAY, 0.0)
    ensures var r := Pass(b, w, s);
            r.r == Returned(false) && Leads(s, r.s, 0, 0.0, s.taskInProgress, [])
  {
    hide Refreshed, BlockedBy, Standing, ByContacts, CameBack, PausedClosedResumed, DoorOpened, DoorClosed, Issued;
    LookAtStanding(b, supported, w, s, Open);
    var s1 := Refreshed(b, w, s);
    LookAtStanding(b, supported, w, s1, Open);
    var s2 := Refreshed(b, w, s1);
    LookAtStanding(b, supported, w, s2, Open);
    var s3 := Refreshed(b, w, s2);
    LookAtStanding(b, supported, w, s3, Open);
  }

  /** From stretch `t` on the robot comes home, is paused, and the door opens before it. */
  predicate OpensBefore(b: Binding, w: Script, t: nat)
  {
    && w(t) == Still(b, Close, HOMING, 0.0)
    && w(t + 1) == Still(b, Close, PAUSED, 0.0)
    && w(t + 2) == Still(b, Open, PAUSED, 0.0)
    && w(t + 3) == Still(b, Open, HOMING, 0.0)
  }

  lemma ReturnSucceeds(b: Binding, supported: bool, w: Script, s: Garage)
    requires ByContacts(b, supported) && Sound(s.evidence, s.now) && OpensBefore(b, w, s.tick)
    ensures var r := CameBack(b, w, s);
            r.r.Returned? && Leads(s, r.s, 3, 0.0, true, [Pause(Return), DoorCommand(Open), Resume(Return)])
  {
    hide Refreshed, BlockedBy, Standing, ByContacts, DoorOpened, Issued;
    LookAtStanding(b, supported, w, s, Close);
    var s1 := Refreshed(b, w, s);
    CommandAdded(s1.log, Pause(Return));
    var paused := AskedRobot(w, s1.(phase := PausingReturn), Pause(Return));
    LookAtStanding(b, supported, w, paused.s, Close);
    var held := Refreshed(b, w, paused.s).(phase := Opening);
    OpensAsTold(b, supported, w, held);
    CommandAdded(DoorOpened(b, w, held).s.log, Resume(Return));
  }

  lemma PassLetsRobotIn(b: Binding, supported: bool, w: Script, s: Garage)
    requires ByContacts(b, supported) && Sound(s.evidence, s.now) && OpensBefore(b, w, s.tick)
    ensures var r := Pass(b, w, s);
            && r.r == Returned(false)
            && Leads(s, r.s, 3, 0.0, true, [Pause(Return), DoorCommand(Open), Resume(Return)])
  {
    hide Refreshed, BlockedBy, Standing, ByContacts, CameBack, Departed, DoorOpened, DoorClosed, Issued;
    LookAtStanding(b, supported, w, s, Close);
    var s1 := Refreshed(b, w, s);
    LookAtStanding(b, supported, w, s1, Close);
    var s2 := Refreshed(b, w, s1);
    ReturnSucceeds(b, supported, w, s2);
    LookAtStanding(b, supported, w, CameBack(b, w, s2).s, Open);
  }

  /** The robot is on its dock in the middle of its task, and the door has been shut. */
  lemma PassReopens(b: Binding, supported: bool, w: Script, s: Garage)
    requires ByContacts(b, supported) && Sound(s.evidence, s.now) && s.taskInProgress
    requires w(s.tick) == Still(b, Close, RECHARGING, 0.0) && w(s.tick + 1).door == Standing(b, Open)
    ensures var r := Pass(b, w, s);
            r.r == Returned(false) && Leads(s, r.s, 1, 0.0, true, [DoorCommand(Open)])
  {
    hide Refreshed, BlockedBy, Standing, ByContacts, CameBack, PausedClosedResumed, DoorOpened, DoorClosed, Issued;
    LookAtStanding(b, supported, w, s, Close);
    var s1 := Refreshed(b, w, s);
    LookAtStanding(b, supported, w, s1, Close);
    var s2 := Refreshed(b, w, s1);
    LookAtStanding(b, supported, w, s2, Close);
    var s3 := Refreshed(b, w, s2);
    LookAtStanding(b, supported, w, s3, Close);
    OpensAsTold(b, supported, w, Refreshed(b, w, s3));
  }

  const DOCKED := Robot(Charging, true, true, true, Some(false), Some(false))

  /** The robot is on its dock with its task over, and the door is open. */
  lemma PassCloses(b: Binding, supported: bool, w: Script, s: Garage)
    requires ByContacts(b, supported) && Sound(s.evidence, s.now) && s.taskInProgress
    requires w(s.tick) == Still(b, Open, DOCKED, 0.0) && w(s.tick + 1).door == Standing(b, Close)
    ensures var r := Pass(b, w, s);
            && r.r == Returned(true) && Leads(s, r.s, 1, 0.0, false, [DoorCommand(Close)])
            && r.s.phase == AtRest && EndsWith(r.s.log, Close)
  {
    hide Refreshed, BlockedBy, Standing, ByContacts, CameBack, PausedClosedResumed, DoorOpened, DoorClosed, Issued;
    LookAtStanding(b, supported, w, s, Open);
    var s1 := Refreshed(b, w, s);
    LookAtStanding(b, supported, w, s1, Open);
    var s2 := Refreshed(b, w, s1);
    LookAtStanding(b, supported, w, s2, Open);
    var s3 := Refreshed(b, w, s2);
    LookAtStanding(b, supported, w, s3, Open);
    ClosesAsTold(b, supported, w, Refreshed(b, w, s3));
  }

  // -- the trip ---------------------------------------------------------------

  /** The robot leaves its dock twenty seconds after the command; someone shuts the door when it comes to recharge. */
  function TripAt(b: Binding, start: nat, t: nat): Moment
  {
    if t == start then Still(b, Close, DOCKED, 0.0)
    else if t == start + 1 then Still(b, Open, DOCKED, 0.0)
    else if t == start + 2 then Still(b, Open, RECHARGING, 19.0)
    else if t == start + 3 then Still(b, Open, IN_DOORWAY, 0.0)
    else if t == start + 4 then Still(b, Open, CLEANING, 0.0)
    else if t == start + 5 then Still(b, Open, PAUSED, 0.0)
    else if t == start + 6 then Still(b, Close, PAUSED, 0.0)
    else if t == start + 7 then Still(b, Close, CLEANING, 0.0)
    else if t == start + 8 then Still(b, Close, HOMING, 0.0)
    else if t == start + 9 then Still(b, Close, PAUSED, 0.0)
    else if t == start + 10 then Still(b, Open, PAUSED, 0.0)
    else if t == start + 11 then Still(b, Open, HOMING, 0.0)
    else if t == start + 12 then Still(b, Close, RECHARGING, 0.0)
    else if t == start + 13 then Still(b, Open, RECHARGING, 0.0)
    else if t == start + 14 then Still(b, Open, DOCKED, 0.0)
    else Still(b, Close, DOCKED, 0.0)
  }

  function Trip(b: Binding, start: nat): Script
  {
    (t: nat) => TripAt(b, start, t)
  }

  lemma TripUnfolds(b: Binding, start: nat)
    ensures var w := Trip(b, start);
            && w(start) == Still(b, Close, DOCKED, 0.0) && w(start + 1) == Still(b, Open, DOCKED, 0.0)
            && w(start + 2) == Still(b, Open, RECHARGING, 19.0) && w(start + 3) == Still(b, Open, IN_DOORWAY, 0.0)
            && ClosesBehind(b, w, start + 4) && w(start + 7).lag == 0.0
            && OpensBefore(b, w, start + 8)
            && w(start + 12) == Still(b, Close, RECHARGING, 0.0) && w(start + 13) == Still(b, Open, RECHARGING, 0.0)
            && w(start + 14) == Still(b, Open, DOCKED, 0.0) && w(start + 15) == Still(b, Close, DOCKED, 0.0)
  {
    hide Standing;
    var w := Trip(b, start);
    assert w(start + 4) == Still(b, Open, CLEANING, 0.0) && w(start + 5) == Still(b, Open, PAUSED, 0.0);
    assert w(start + 6) == Still(b, Close, PAUSED, 0.0) && w(start + 7) == Still(b, Close, CLEANING, 0.0);
    assert w(start + 8) == Still(b, Close, HOMING, 0.0) && w(start + 9) == Still(b, Close, PAUSED, 0.0);
    assert w(start + 10) == Still(b, Open, PAUSED, 0.0) && w(start + 11) == Still(b, Open, HOMING, 0.0);
  }

  lemma TripIsQuiet(b: Binding, start: nat, t: nat)
    ensures var w := Trip(b, start);
            !w(t).unloaded && w(t).failure.None? && (t != start + 2 ==> w(t).lag == 0.0)
  {
    hide Standing;
    assert Trip(b, start)(t) == TripAt(b, start, t);
  }

  lemma LeadsOn(a: Garage, b: Garage, c: Garage, t: nat, t': nat, x: real, x': real,
                f: bool, f': bool, cs: seq<Event>, cs': seq<Event>)
    requires Leads(a, b, t, x, f, cs) && Leads(b, c, t', x', f', cs')
    ensures Leads(a, c, t + t', x + x', f', cs + cs')
  {
    hide Issued;
    assert Issued(a.log) + (cs + cs') == Issued(a.log) + cs + cs';
  }

  /** A pass that goes on, and the sleep after it: the next round starts where they lead. */
  lemma RoundLeads(b: Binding, w: Script, s: Garage, ticks: nat, flag: bool, cs: seq<Event>, deadline: real)
    requires !w(s.tick).unloaded && Pass(b, w, s).r == Returned(false)
    requires Leads(s, Pass(b, w, s).s, ticks, 0.0, flag, cs) && s.now < deadline
    requires w(s.tick + ticks).failure.None? && w(s.tick + ticks).lag == 0.0
    ensures var next := Slept(w, Pass(b, w, s).s, 1.0).s;
            Leads(s, next, ticks + 1, 1.0, flag, cs) && Rounds(b, w, s, deadline) == Rounds(b, w, next, deadline)
  {
    hide Pass, Issued;
    NextRound(b, w, s, deadline);
  }

  lemma SendingSucceeds(b: Binding, supported: bool, w: Script, s: Garage)
    requires ByContacts(b, supported) && Sound(s.evidence, s.now) && w == Trip(b, s.tick)
    ensures var r := CommandSent(b, w, s, NewTask);
            r.r.Returned? && Leads(s, r.s, 2, 0.0, true, [DoorCommand(Open), CleanSent])
  {
    hide DoorOpened, Standing, Issued, ByContacts, Trip, ClosesBehind, OpensBefore;
    TripUnfolds(b, s.tick);
    TripIsQuiet(b, s.tick, s.tick);
    TripIsQuiet(b, s.tick, s.tick + 1);
    OpensAsTold(b, supported, w, s);
    CommandAdded(DoorOpened(b, w, s).s.log, CleanSent);
  }

  lemma StartSucceeds(b: Binding, supported: bool, w: Script, s: Garage, start: nat)
    requires ByContacts(b, supported) && Sound(s.evidence, s.now)
    requires w == Trip(b, start) && s.tick == start + 2
    ensures var r := Started(b, w, s, s.now + START_CONFIRMATION_SECONDS);
            r.r == Returned(true) && Leads(s, r.s, 1, 20.0, s.taskInProgress, [])
  {
    hide Refreshed, Standing, Issued, ByContacts, Trip, ClosesBehind, OpensBefore, BlockedBy;
    TripUnfolds(b, start);
    TripIsQuiet(b, start, start + 2);
    TripIsQuiet(b, start, start + 3);
    LookAtStanding(b, supported, w, s, Open);
    var slept := Slept(w, Refreshed(b, w, s), 1.0).s;
    LookAtStanding(b, supported, w, slept, Open);
  }

  /** The commands of the sequence, in order. */
  const FOLLOWING := [
    Pause(Departure), DoorCommand(Close), Resume(Departure),
    Pause(Return), DoorCommand(Open), Resume(Return), DoorCommand(Open), DoorCommand(Close)]

  const GONE := [Pause(Departure), DoorCommand(Close), Resume(Departure)]

  const HOME := [Pause(Return), DoorCommand(Open), Resume(Return)]

  /** The first two rounds: the robot works inside, and then it goes. */
  lemma GoingOut(b: Binding, supported: bool, w: Script, s: Garage, start: nat, deadline: real) returns (s2: Garage)
    requires ByContacts(b, supported) && Sound(s.evidence, s.now) && s.taskInProgress
    requires w == Trip(b, start) && s.tick == start + 3 && s.now + 10.0 <= deadline
    ensures Leads(s, s2, 5, 2.0, false, GONE) && Rounds(b, w, s, deadline) == Rounds(b, w, s2, deadline)
  {
    hide Pass, Rounds, Standing, ByContacts, Trip, ClosesBehind, OpensBefore, Leads;
    TripUnfolds(b, start);
    TripIsQuiet(b, start, start + 3);
    PassWaits(b, supported, w, s);
    RoundLeads(b, w, s, 0, true, [], deadline);
    var s1 := Slept(w, Pass(b, w, s).s, 1.0).s;
    LeadsTo(s, s1, 1, 1.0, true, []);
    FirstPass(b, supported, w, s1);
    LeadsFlag(s1, Pass(b, w, s1).s, 3, 0.0, false, GONE);
    TripIsQuiet(b, start, start + 4);
    TripIsQuiet(b, start, start + 7);
    RoundLeads(b, w, s1, 3, false, GONE, deadline);
    s2 := Slept(w, Pass(b, w, s1).s, 1.0).s;
    LeadsOn(s, s1, s2, 1, 4, 1.0, 1.0, true, false, [], GONE);
    assert [] + GONE == GONE;
  }

  /** The third and fourth round: it comes home, is let in, and the door is reopened while it recharges. */
  lemma ComingHome(b: Binding, supported: bool, w: Script, s: Garage, start: nat, deadline: real) returns (s4: Garage)
    requires ByContacts(b, supported) && Sound(s.evidence, s.now)
    requires w == Trip(b, start) && s.tick == start + 8 && s.now + 5.0 <= deadline
    ensures Leads(s, s4, 6, 2.0, true, HOME + [DoorCommand(Open)])
    ensures Rounds(b, w, s, deadline) == Rounds(b, w, s4, deadline)
  {
    hide Pass, Rounds, Standing, ByContacts, Trip, ClosesBehind, OpensBefore, Leads;
    TripUnfolds(b, start);
    TripIsQuiet(b, start, start + 8);
    TripIsQuiet(b, start, start + 11);
    PassLetsRobotIn(b, supported, w, s);
    RoundLeads(b, w, s, 3, true, HOME, deadline);
    var s3 := Slept(w, Pass(b, w, s).s, 1.0).s;
    LeadsTo(s, s3, 4, 1.0, true, HOME);
    PassReopens(b, supported, w, s3);
    RoundLeads(b, w, s3, 1, true, [DoorCommand(Open)], deadline);
    s4 := Slept(w, Pass(b, w, s3).s, 1.0).s;
    LeadsOn(s, s3, s4, 4, 2, 1.0, 1.0, true, true, HOME, [DoorCommand(Open)]);
  }

  lemma FollowingSucceeds(b: Binding, supported: bool, w: Script, s: Garage, start: nat, deadline: real)
    requires ByContacts(b, supported) && Sound(s.evidence, s.now) && s.taskInProgress
    requires w == Trip(b, start) && s.tick == start + 3 && s.now + 10.0 <= deadline
    ensures var r := Rounds(b, w, s, deadline);
            && r.r.Returned? && Leads(s, r.s, 12, 4.0, false, FOLLOWING)
            && r.s.phase == AtRest && EndsWith(r.s.log, Close)
  {
    hide Pass, Rounds, Standing, ByContacts, Trip, ClosesBehind, OpensBefore, Leads, EndsWith;
    var s2 := GoingOut(b, supported, w, s, start, deadline);
    LeadsTo(s, s2, 5, 2.0, false, GONE);
    var s4 := ComingHome(b, supported, w, s2, start, deadline);
    LeadsTo(s2, s4, 6, 2.0, true, HOME + [DoorCommand(Open)]);
    LeadsOn(s, s2, s4, 5, 6, 2.0, 2.0, false, true, GONE, HOME + [DoorCommand(Open)]);
    TripUnfolds(b, start);
    TripIsQuiet(b, start, start + 14);
    PassCloses(b, supported, w, s4);
    LeadsOn(s, s4, Pass(b, w, s4).s, 11, 1, 4.0, 0.0, true, false,
            GONE + (HOME + [DoorCommand(Open)]), [DoorCommand(Close)]);
    assert GONE + (HOME + [DoorCommand(Open)]) + [DoorCommand(Close)] == FOLLOWING;
    LastRound(b, w, s4, deadline);
  }

  lemma LeadsTo(s: Garage, s': Garage, ticks: nat, seconds: real, flag: bool, cs: seq<Event>)
    requires Leads(s, s', ticks, seconds, flag, cs)
    ensures s'.tick == s.tick + ticks && s'.now == s.now + seconds && s'.taskInProgress == flag
    ensures Sound(s'.evidence, s'.now)
  {
  }

  lemma LeadsFlag(s: Garage, s': Garage, ticks: nat, seconds: real, flag: bool, cs: seq<Event>)
    requires s'.tick == s.tick + ticks && s'.now == s.now + seconds && s'.taskInProgress == flag
    requires Sound(s'.evidence, s'.now) && Adds(s, s', cs)
    ensures Leads(s, s', ticks, seconds, flag, cs)
  {
  }

  lemma LastRound(b: Binding, w: Script, s: Garage, deadline: real)
    requires !w(s.tick).unloaded && Pass(b, w, s).r == Returned(true)
    ensures Rounds(b, w, s, deadline) == Step(Pass(b, w, s).s, Returned(()))
  {
    hide Pass;
  }

  /**
   It goes well: for every accepted binding with two contacts, from every sound state and for every timeout of at
   least a minute, there is a world in which sending a clean and following it issues exactly these ten commands in
   this order, and ends before its deadline, with the flag cleared, at rest, and a last look at the closed door.
   */
  lemma WholeTripSucceeds(b: Binding, supported: bool, s: Garage, timeout: real)
    requires ByContacts(b, supported) && Sound(s.evidence, s.now) && timeout >= 60.0
    ensures var w := Trip(b, s.tick);
            var sent := CommandSent(b, w, s, NewTask);
            var r := SequenceRun(b, w, sent.s, timeout);
            && sent.r.Returned? && r.r.Returned?
            && Issued(r.s.log) == Issued(s.log) + [DoorCommand(Open), CleanSent] + FOLLOWING
            && r.s.now == s.now + 24.0 && !r.s.taskInProgress && r.s.phase == AtRest && EndsWith(r.s.log, Close)
  {
    hide CommandSent, Started, Rounds, Standing, ByContacts, Trip, Issued;
    var w := Trip(b, s.tick);
    SendingSucceeds(b, supported, w, s);
    var sent := CommandSent(b, w, s, NewTask).s;
    StartSucceeds(b, supported, w, sent, s.tick);
    var started := Started(b, w, sent, sent.now + START_CONFIRMATION_SECONDS).s;
    FollowingSucceeds(b, supported, w, started, s.tick, sent.now + Max(1.0, timeout));
  }
}
