/** Consequences of the discipline for single operations and for whole runs. */
module GarageOutcomes {
  import opened Common
  import opened GarageBinding
  import opened DoorEvidence
  import opened DoorHistory
  import opened RobotStates
  import opened GarageDoor
  import opened GarageRuntime
  import opened GarageSafety

  // -- pauses and resumes over a whole run ------------------------------------

  /** Directly after a pause there is a look, never a command: the pause is observed first. */
  lemma PauseIsObservedFirst(b: Binding, w: Script, s: Garage, timeout: real, i: nat)
    requires |s.log| <= i && i + 1 < |SequenceRun(b, w, s, timeout).s.log|
    requires SequenceRun(b, w, s, timeout).s.log[i].Pause?
    ensures SequenceRun(b, w, s, timeout).s.log[i + 1].Seen?
  {
    hide SequenceRun;
    SequenceIsDisciplined(b, w, s, timeout);
    assert Permitted(b, SequenceRun(b, w, s, timeout).s.log, |s.log|, i + 1);
  }

  /** A resume always has its own pause: between two resumes the robot was paused again. */
  lemma ResumesAreMatched(b: Binding, w: Script, s: Garage, timeout: real, i: nat, j: nat)
    requires |s.log| <= i < j < |SequenceRun(b, w, s, timeout).s.log|
    requires SequenceRun(b, w, s, timeout).s.log[i].Resume? && SequenceRun(b, w, s, timeout).s.log[j].Resume?
    ensures exists p :: i < p < j && SequenceRun(b, w, s, timeout).s.log[p]
                        == Pause(SequenceRun(b, w, s, timeout).s.log[j].leg)
  {
    hide SequenceRun;
    SequenceIsDisciplined(b, w, s, timeout);
    var log := SequenceRun(b, w, s, timeout).s.log;
    assert Permitted(b, log, |s.log|, j);
    var p :| HeldSince(log, |s.log|, p, j, log[j].leg);
  }

  /** The door is opened on the way back only for a robot that was seen paused after it was seen returning. */
  lemma EveryOpenIsJustified(b: Binding, w: Script, s: Garage, timeout: real, i: nat)
    requires |s.log| <= i < |SequenceRun(b, w, s, timeout).s.log|
    requires SequenceRun(b, w, s, timeout).s.log[i] == DoorCommand(Open)
    ensures var log, from := SequenceRun(b, w, s, timeout).s.log, |s.log|;
            && Movable(EventAt(log, from, i - 1), Open) && Readable(b, log[i - 1].moment.door)
            && (|| SawDockedMidTask(EventAt(log, from, i - 2))
                || (&& SawReturning(EventAt(log, from, i - 4))
                    && EventAt(log, from, i - 3) == Some(Pause(Return))
                    && SawPaused(EventAt(log, from, i - 2))))
  {
    hide SequenceRun, Readable, Physical;
    SequenceIsDisciplined(b, w, s, timeout);
    var log := SequenceRun(b, w, s, timeout).s.log;
    assert Permitted(b, log, |s.log|, i) && Permitted(b, log, |s.log|, i - 1);
  }

  /** The controller after it has paused a departing robot and looked. */
  function HeldGarage(b: Binding, w: Script, s: Garage): Garage
  {
    Refreshed(b, w, AskedRobot(w, s.(phase := PausingExit), Pause(Departure)).s)
  }

  /** Where the attempt to close behind it ends. */
  function AttemptEnd(b: Binding, w: Script, s: Garage): Garage
  {
    DoorClosed(b, w, HeldGarage(b, w, s)).s
  }

  /** The pause was issued without failing and then seen. */
  predicate Held(b: Binding, w: Script, s: Garage)
  {
    var paused := AskedRobot(w, s.(phase := PausingExit), Pause(Departure));
    paused.r.Returned? && Refreshed(b, w, paused.s).robot.state.Paused?
  }

  /**
   A held robot is asked to go on exactly when the runtime is still loaded at the end of the attempt to
   close. However that attempt went, nothing else keeps the robot waiting.
   */
  lemma HeldRobotGoesOnUnlessUnloaded(b: Binding, w: Script, s: Garage)
    requires Held(b, w, s)
    ensures var end, tried := PausedClosedResumed(b, w, s), AttemptEnd(b, w, s);
            && (end.s.log == tried.log + [Resume(Departure)] <==> !w(tried.tick).unloaded)
            && (w(tried.tick).unloaded ==> end.s.log == tried.log && end.r == Raised(Refused(ControlUnloaded)))
            && (forall k :: |s.log| <= k < |tried.log| ==> !tried.log[k].Resume?)
  {
    hide Answer, Refreshed, DoorClosed;
    var paused := AskedRobot(w, s.(phase := PausingExit), Pause(Departure));
    LookIsTrue(b, w, paused.s);
    ClosingConfirms(b, w, Refreshed(b, w, paused.s));
  }

  // -- releasing the robot ----------------------------------------------------

  /** What opening does when nothing is known about the events before it. */
  lemma OpeningConfirms(b: Binding, w: Script, s: Garage)
    ensures var r := DoorOpened(b, w, s);
            && DoorRun(s.log, r.s.log, Open)
            && (r.r.Returned? ==> EndsWith(r.s.log, Open) && TrueLook(b, r.s.log[|r.s.log| - 1]) && r.s.taskInProgress)
            && (r.r.Raised? ==> r.s.taskInProgress == s.taskInProgress)
  {
    hide Answer, Refreshed, Permitted, Moved, BlockedReason, Physical;
    LookIsTrue(b, w, s);
    var s1 := Refreshed(b, w, s);
    if BlockedBy(s1.door).None? && !s1.door.OpenConfirmed() {
      MovingShows(b, w, s1.(phase := Opening), Open);
    }
  }

  /** A clean or a resumed clean is sent only directly after a look at a physically open door. */
  lemma CleanIsSentThroughOpenDoor(b: Binding, w: Script, s: Garage, kind: CommandKind, i: nat)
    requires |s.log| <= i < |CommandSent(b, w, s, kind).s.log|
    requires CommandSent(b, w, s, kind).s.log[i] == CleanSent
    ensures var log := CommandSent(b, w, s, kind).s.log;
            && |s.log| < i == |log| - 1 && Shows(log[i - 1], Open) && Physical(b, Open, log[i - 1].moment.door)
            && (forall k :: |s.log| <= k < i ==> log[k].Seen? || log[k] == DoorCommand(Open))
    ensures CommandSent(b, w, s, kind).s.taskInProgress
  {
    hide DoorOpened, Physical;
    OpeningConfirms(b, w, s);
  }

  /** Commands that start no clean never touch the door. */
  lemma OtherCommandsLeaveDoorAlone(b: Binding, w: Script, s: Garage, kind: CommandKind)
    requires !StartsSequence(kind)
    ensures CommandSent(b, w, s, kind).s.log == s.log || CommandSent(b, w, s, kind).s.log == s.log + [OtherSent]
    ensures CommandSent(b, w, s, kind).s.evidence == s.evidence
  {
  }

  /** With an open endpoint that is only timed or estimated, no clean is ever released. */
  lemma EstimatedDoorNeverReleases(b: Binding, w: Script, s: Garage, kind: CommandKind)
    requires !Is(b, Source(Open), "contact") && !MeasuredSource(b, Open)
    requires StartsSequence(kind)
    ensures CommandSent(b, w, s, kind).r.Raised?
    ensures forall i :: |s.log| <= i < |CommandSent(b, w, s, kind).s.log| ==>
              CommandSent(b, w, s, kind).s.log[i] != CleanSent
  {
    hide DoorOpened;
    OpeningConfirms(b, w, s);
  }

  // -- the end of a sequence --------------------------------------------------

  lemma ClosingConfirms(b: Binding, w: Script, s: Garage)
    ensures var r := DoorClosed(b, w, s);
            && DoorRun(s.log, r.s.log, Close)
            && (r.r.Returned? ==> EndpointConfirmed(r.s.door, Close))
            && r.s.taskInProgress == s.taskInProgress
  {
    hide Answer, Refreshed, Moved, BlockedReason;
    LookIsTrue(b, w, s);
    var s1 := Refreshed(b, w, s);
    if BlockedBy(s1.door).None? && w(s1.tick).closeAllowed && !s1.door.ClosedConfirmed() {
      MovingShows(b, w, s1.(phase := Closing), Close);
    }
  }

  lemma PausingKeepsFlag(b: Binding, w: Script, s: Garage)
    ensures PausedClosedResumed(b, w, s).s.taskInProgress == s.taskInProgress
  {
    hide Answer, Refreshed, DoorClosed;
    var paused := AskedRobot(w, s.(phase := PausingExit), Pause(Departure));
    LookIsTrue(b, w, paused.s);
    ClosingConfirms(b, w, Refreshed(b, w, paused.s));
  }

  /** A sequence that reports its end has given the door back: closed and confirmed, or declared unusable. */
  lemma EndGivesDoorBack(b: Binding, w: Script, s: Garage)
    requires Finished(b, w, s).r == Returned(true)
    ensures var end := Finished(b, w, s).s;
            && !end.taskInProgress
            && (end.phase == Blocked || (end.phase == AtRest && EndpointConfirmed(end.door, Close)))
    ensures s.taskInProgress
  {
    hide Answer, Refreshed, DoorOpened, DoorClosed, BlockedReason;
    LookIsTrue(b, w, s);
    var s1 := Refreshed(b, w, s);
    ClosingConfirms(b, w, s1);
  }

  /** Looking twice at the same moment shows the same door, unless something blocks it. */
  lemma LookingAgain(b: Binding, w: Script, s: Garage)
    requires BlockedBy(Refreshed(b, w, s).door).None?
    ensures var s1 := Refreshed(b, w, s);
            var s2 := Refreshed(b, w, s1);
            s2.door.open == s1.door.open && s2.door.close == s1.door.close && BlockedBy(s2.door).None?
  {
    hide Answer, Clean;
    UnblockedIsClean(b, s.evidence, s.now, w(s.tick).door);
    SecondLookSeesTheSame(b, s.evidence, s.now, w(s.tick).door);
  }

  /**
   The table of rules applies only while the task flag is set: a robot on its dock in the middle of a
   task with the door not open, or on its dock with its task over and the door not closed, has the
   door moved exactly when the flag is set (and, for closing, the household permits it).
   */
  lemma RulesNeedTheFlag(b: Binding, w: Script, s: Garage)
    requires var s1 := Refreshed(b, w, s);
             && BlockedBy(s1.door).None? && s1.robot.docked
             && if s1.robot.TaskRunning() then !s1.door.OpenConfirmed()
                else !s1.door.ClosedConfirmed() && w(s.tick).closeAllowed
    ensures var log := Finished(b, w, s).s.log;
            (exists k :: |s.log| <= k < |log| && log[k].DoorCommand?) <==> s.taskInProgress
  {
    hide Answer, Refreshed, Moved, BlockedReason;
    LookIsTrue(b, w, s);
    var s1 := Refreshed(b, w, s);
    LookIsTrue(b, w, s1);
    LookingAgain(b, w, s);
    var s2 := Refreshed(b, w, s1);
    var log := Finished(b, w, s).s.log;
    if s.taskInProgress {
      var d := if s1.robot.TaskRunning() then Open else Close;
      MovingShows(b, w, s2.(phase := if d == Open then Opening else Closing), d);
      assert log[|s2.log|] == DoorCommand(d);
    } else {
      assert log == s1.log;
    }
  }

  /**
   Closing behind a departed robot clears the flag. From then on the end-of-task table does nothing,
   although the sequence is still running, until the door has been opened and confirmed again.
   */
  lemma ClosedBehindEndsTheTable(b: Binding, w: Script, s: Garage)
    requires Departed(b, w, s).r == Returned(true)
    requires Departed(b, w, s).s.phase == ClosedOutside && |Departed(b, w, s).s.log| > |s.log| + 1
    ensures var s1 := Departed(b, w, s).s;
            && !s1.taskInProgress
            && Finished(b, w, s1).r == Returned(false)
            && Finished(b, w, s1).s.log == s1.log + [Look(s1.now, w(s1.tick), Refreshed(b, w, s1).door)]
  {
    hide Answer, Refreshed, DoorClosed, BlockedReason;
    LookIsTrue(b, w, s);
    LookIsTrue(b, w, Departed(b, w, s).s);
  }

  // -- a close on request -----------------------------------------------------

  /** A requested close moves the door only past a look that does not place the robot in the doorway. */
  lemma RequestedCloseSparesDoorway(b: Binding, w: Script, s: Garage, i: nat)
    requires |s.log| <= i < |CloseRequested(b, w, s).s.log|
    requires CloseRequested(b, w, s).s.log[i].DoorCommand?
    ensures var log := CloseRequested(b, w, s).s.log;
            && i == |s.log| + 2 && log[i] == DoorCommand(Close)
            && log[i - 1].Seen? && log[i - 2].Seen?
            && !InDoorway(log[i - 1].moment.robot) && log[i - 1].moment.closeAllowed && !Shows(log[i - 1], Close)
  {
    hide Answer, Refreshed, Moved, BlockedReason;
    LookIsTrue(b, w, s);
    var s1 := Refreshed(b, w, s);
    LookIsTrue(b, w, s1);
    var s2 := Refreshed(b, w, s1);
    if !InDoorway(s1.robot) {
      MovingShows(b, w, s2.(phase := Closing), Close);
    }
  }

  /** And it is refused for the robot's sake exactly when the robot is known to be in the doorway. */
  lemma RequestRefusedExactlyInDoorway(b: Binding, w: Script, s: Garage)
    ensures InDoorway(w(s.tick).robot)
            <==> && CloseRequested(b, w, s).r == Raised(Refused(RobotInTheWay))
                 && |CloseRequested(b, w, s).s.log| == |s.log| + 1
  {
    hide Answer, Refreshed, DoorClosed, BlockedReason;
    LookIsTrue(b, w, s);
    ClosingConfirms(b, w, Refreshed(b, w, s));
  }
}
