/**
 Nothing latches. If no endpoint has to settle, what the controller does next depends only on what the
 world reports from now on: not on its phase, its last error, its task flag or its evidence.
 */
module NothingLatches {
  import opened Common
  import opened GarageBinding
  import opened GarageConfig
  import opened DoorEvidence
  import opened DoorHistory
  import opened RobotStates
  import opened GarageDoor
  import opened GarageRuntime
  import opened GarageSafety
  import opened GarageOutcomes
  import opened WaitSucceeds
  import opened StandingDoor

  /** Two controllers in the same world at the same time, with the same record; all else may differ. */
  predicate Alike(s: Garage, s': Garage)
  {
    s.tick == s'.tick && s.now == s'.now && s.log == s'.log
    && Sound(s.evidence, s.now) && Sound(s'.evidence, s'.now)
  }

  /** After a look they also agree on the readings. */
  predicate AlikeAfterLook(s: Garage, s': Garage)
  {
    && Alike(s, s')
    && s.robot == s'.robot
    && s.door.open == s'.door.open && s.door.close == s'.door.close && s.door.coverAvailable == s'.door.coverAvailable
  }

  predicate SameStep<T(==)>(r: Step<T>, r': Step<T>)
  {
    Alike(r.s, r'.s) && r.r == r'.r
  }

  lemma LooksAlike(b: Binding, w: Script, s: Garage, s': Garage)
    requires Memoryless(b) && Alike(s, s')
    ensures AlikeAfterLook(Refreshed(b, w, s), Refreshed(b, w, s'))
  {
    AnswerForgets(b, s.evidence, s'.evidence, s.now, w(s.tick).door);
    AnswerStaysSound(b, s.evidence, s.now, w(s.tick).door);
    AnswerStaysSound(b, s'.evidence, s.now, w(s.tick).door);
    hide Answer, Memoryless;
  }

  lemma {:induction false} WaitsAlike(b: Binding, w: Script, s: Garage, s': Garage, d: Direction, deadline: real)
    requires Memoryless(b) && Alike(s, s')
    ensures SameStep(Waited(b, w, s, d, deadline), Waited(b, w, s', d, deadline))
    ensures Waited(b, w, s, d, deadline).r.Returned? ==>
              EndpointConfirmed(Waited(b, w, s, d, deadline).s.door, d)
    decreases (deadline - s.now) * 5.0
  {
    hide Answer, Refreshed;
    LooksAlike(b, w, s, s');
    var s1, s1' := Refreshed(b, w, s), Refreshed(b, w, s');
    if !EndpointConfirmed(s1.door, d) && s1.now < deadline {
      var slept, slept' := Slept(w, s1, 0.2), Slept(w, s1', 0.2);
      if slept.r.Returned? {
        WaitsAlike(b, w, slept.s, slept'.s, d, deadline);
      }
    }
  }

  lemma MovesAlike(b: Binding, w: Script, s: Garage, s': Garage, d: Direction)
    requires Memoryless(b) && Alike(s, s')
    ensures SameStep(Reported(Moved(b, w, s, d)), Reported(Moved(b, w, s', d)))
  {
    hide Waited;
    var called := Called(w, s.(evidence := Invalidated(s.evidence)), DoorCommand(d));
    var called' := Called(w, s'.(evidence := Invalidated(s'.evidence)), DoorCommand(d));
    var timeout := OperationSeconds(b);
    if called.r.Returned? && timeout.Some? {
      WaitsAlike(b, w, called.s, called'.s, d, called.s.now + timeout.value);
    }
  }

  /** Readings that agree block alike and confirm alike. */
  lemma VerdictsAlike(s: Garage, s': Garage)
    requires AlikeAfterLook(s, s')
    ensures BlockedBy(s.door) == BlockedBy(s'.door)
    ensures s.door.OpenConfirmed() == s'.door.OpenConfirmed() && s.door.ClosedConfirmed() == s'.door.ClosedConfirmed()
  {
  }

  lemma OpensFromAlike(b: Binding, w: Script, s: Garage, s': Garage)
    requires Memoryless(b) && AlikeAfterLook(s, s')
    ensures SameStep(OpenedFrom(b, w, s), OpenedFrom(b, w, s'))
  {
    VerdictsAlike(s, s');
    MovesAlike(b, w, s.(phase := Opening), s'.(phase := Opening), Open);
    hide Moved, Reported, BlockedBy;
  }

  lemma ClosesFromAlike(b: Binding, w: Script, s: Garage, s': Garage)
    requires Memoryless(b) && AlikeAfterLook(s, s')
    ensures SameStep(ClosedFrom(b, w, s), ClosedFrom(b, w, s'))
  {
    VerdictsAlike(s, s');
    MovesAlike(b, w, s.(phase := Closing), s'.(phase := Closing), Close);
    hide Moved, Reported, BlockedBy;
  }

  lemma OpensAlike(b: Binding, w: Script, s: Garage, s': Garage)
    requires Memoryless(b) && Alike(s, s')
    ensures SameStep(DoorOpened(b, w, s), DoorOpened(b, w, s'))
  {
    hide Refreshed, OpenedFrom;
    LooksAlike(b, w, s, s');
    OpensFromAlike(b, w, Refreshed(b, w, s), Refreshed(b, w, s'));
  }

  lemma ClosesAlike(b: Binding, w: Script, s: Garage, s': Garage)
    requires Memoryless(b) && Alike(s, s')
    ensures SameStep(DoorClosed(b, w, s), DoorClosed(b, w, s'))
  {
    hide Refreshed, ClosedFrom;
    LooksAlike(b, w, s, s');
    ClosesFromAlike(b, w, Refreshed(b, w, s), Refreshed(b, w, s'));
  }

  /** From a seen pause on: one attempt to close and the resume that follows it. */
  lemma HeldAlike(b: Binding, w: Script, s: Garage, s': Garage)
    requires Memoryless(b) && Alike(s, s')
    ensures SameStep(ThenResumed(w, ClosedOrNot(DoorClosed(b, w, s))),
                     ThenResumed(w, ClosedOrNot(DoorClosed(b, w, s'))))
  {
    hide DoorClosed;
    ClosesAlike(b, w, s, s');
  }

  lemma PausesAlike(b: Binding, w: Script, s: Garage, s': Garage)
    requires Memoryless(b) && Alike(s, s')
    ensures SameStep(PausedClosedResumed(b, w, s), PausedClosedResumed(b, w, s'))
  {
    hide Answer, Refreshed, DoorClosed, ThenResumed, ClosedOrNot;
    var paused := AskedRobot(w, s.(phase := PausingExit), Pause(Departure));
    var paused' := AskedRobot(w, s'.(phase := PausingExit), Pause(Departure));
    if paused.r.Returned? {
      LooksAlike(b, w, paused.s, paused'.s);
      HeldAlike(b, w, Refreshed(b, w, paused.s), Refreshed(b, w, paused'.s));
    }
  }

  lemma DepartsAlike(b: Binding, w: Script, s: Garage, s': Garage)
    requires Memoryless(b) && Alike(s, s')
    ensures SameStep(Departed(b, w, s), Departed(b, w, s'))
  {
    hide Answer, Refreshed, PausedClosedResumed, BlockedBy;
    LooksAlike(b, w, s, s');
    VerdictsAlike(Refreshed(b, w, s), Refreshed(b, w, s'));
    PausesAlike(b, w, Refreshed(b, w, s), Refreshed(b, w, s'));
  }

  lemma LetInAlike(b: Binding, w: Script, s: Garage, s': Garage)
    requires Memoryless(b) && Alike(s, s')
    ensures SameStep(OpenedAndResumed(b, w, s), OpenedAndResumed(b, w, s'))
  {
    hide DoorOpened;
    OpensAlike(b, w, s.(phase := Opening), s'.(phase := Opening));
  }

  lemma PausesAlikeOnReturn(b: Binding, w: Script, s: Garage, s': Garage)
    requires Memoryless(b) && Alike(s, s')
    ensures SameStep(PausedOpenedResumed(b, w, s), PausedOpenedResumed(b, w, s'))
  {
    hide Answer, Refreshed, OpenedAndResumed;
    var paused := AskedRobot(w, s.(phase := PausingReturn), Pause(Return));
    var paused' := AskedRobot(w, s'.(phase := PausingReturn), Pause(Return));
    if paused.r.Returned? {
      LooksAlike(b, w, paused.s, paused'.s);
      LetInAlike(b, w, Refreshed(b, w, paused.s), Refreshed(b, w, paused'.s));
    }
  }

  lemma ReturnsAlike(b: Binding, w: Script, s: Garage, s': Garage)
    requires Memoryless(b) && Alike(s, s')
    ensures SameStep(CameBack(b, w, s), CameBack(b, w, s'))
  {
    hide Answer, Refreshed, PausedOpenedResumed, BlockedBy;
    LooksAlike(b, w, s, s');
    VerdictsAlike(Refreshed(b, w, s), Refreshed(b, w, s'));
    PausesAlikeOnReturn(b, w, Refreshed(b, w, s), Refreshed(b, w, s'));
  }

  /**
   The two-run statement: same world, same moment, same record, but an arbitrary past. Every operation
   on the door issues the same commands after the same looks and succeeds or is refused alike.
   */
  lemma PastDoesNotMatter(b: Binding, w: Script, s: Garage, s': Garage)
    requires Memoryless(b) && Alike(s, s')
    ensures SameStep(DoorOpened(b, w, s), DoorOpened(b, w, s'))
    ensures SameStep(DoorClosed(b, w, s), DoorClosed(b, w, s'))
    ensures SameStep(Departed(b, w, s), Departed(b, w, s'))
    ensures SameStep(CameBack(b, w, s), CameBack(b, w, s'))
  {
    hide Answer, Refreshed, DoorOpened, DoorClosed, Departed, CameBack;
    OpensAlike(b, w, s, s');
    ClosesAlike(b, w, s, s');
    DepartsAlike(b, w, s, s');
    ReturnsAlike(b, w, s, s');
  }

  // -- whole sequences --------------------------------------------------------

  /** The one thing a sequence remembers is whether its task is in progress. */
  predicate Agree(s: Garage, s': Garage)
  {
    Alike(s, s') && s.taskInProgress == s'.taskInProgress
  }

  predicate AgreeStep<T(==)>(r: Step<T>, r': Step<T>)
  {
    Agree(r.s, r'.s) && r.r == r'.r
  }

  lemma DepartureAgrees(b: Binding, w: Script, s: Garage, s': Garage)
    requires Memoryless(b) && Agree(s, s')
    ensures AgreeStep(Departed(b, w, s), Departed(b, w, s'))
  {
    hide Answer, Refreshed, PausedClosedResumed, BlockedBy;
    LooksAlike(b, w, s, s');
    VerdictsAlike(Refreshed(b, w, s), Refreshed(b, w, s'));
    LookIsTrue(b, w, s);
    LookIsTrue(b, w, s');
    PausesAlike(b, w, Refreshed(b, w, s), Refreshed(b, w, s'));
    PausingKeepsFlag(b, w, Refreshed(b, w, s));
    PausingKeepsFlag(b, w, Refreshed(b, w, s'));
  }

  /** What the flag is after the way back: set by a confirmed opening, otherwise as before. */
  lemma ReturnSetsFlag(b: Binding, w: Script, s: Garage)
    ensures CameBack(b, w, s).s.taskInProgress
            == (s.taskInProgress || EndedByOpening(b, w, s))
  {
    hide Answer, Refreshed, DoorOpened, BlockedReason;
    LookIsTrue(b, w, s);
    var s1 := Refreshed(b, w, s);
    var paused := AskedRobot(w, s1.(phase := PausingReturn), Pause(Return));
    LookIsTrue(b, w, paused.s);
    OpeningConfirms(b, w, Refreshed(b, w, paused.s).(phase := Opening));
  }

  /** The way back got as far as a confirmed opening. */
  predicate EndedByOpening(b: Binding, w: Script, s: Garage)
  {
    var s1 := Refreshed(b, w, s);
    var paused := AskedRobot(w, s1.(phase := PausingReturn), Pause(Return));
    var s2 := Refreshed(b, w, paused.s);
    && IsReturning(s1.robot.state) && !s1.door.OpenConfirmed()
    && paused.r.Returned? && s2.robot.state.Paused?
    && DoorOpened(b, w, s2.(phase := Opening)).r.Returned?
  }

  lemma ReturnAgrees(b: Binding, w: Script, s: Garage, s': Garage)
    requires Memoryless(b) && Agree(s, s')
    ensures AgreeStep(CameBack(b, w, s), CameBack(b, w, s'))
  {
    hide Answer, Refreshed, DoorOpened, CameBack, BlockedReason;
    ReturnsAlike(b, w, s, s');
    ReturnSetsFlag(b, w, s);
    ReturnSetsFlag(b, w, s');
    LooksAlike(b, w, s, s');
    var s1, s1' := Refreshed(b, w, s), Refreshed(b, w, s');
    var paused := AskedRobot(w, s1.(phase := PausingReturn), Pause(Return));
    var paused' := AskedRobot(w, s1'.(phase := PausingReturn), Pause(Return));
    LooksAlike(b, w, paused.s, paused'.s);
    OpensAlike(b, w, Refreshed(b, w, paused.s).(phase := Opening), Refreshed(b, w, paused'.s).(phase := Opening));
  }

  /** The table while the task is still running. */
  lemma FinishRunningAgrees(b: Binding, w: Script, s: Garage, s': Garage)
    requires Memoryless(b) && Agree(s, s')
    requires s.taskInProgress && Refreshed(b, w, s).robot.TaskRunning()
    ensures AgreeStep(Finished(b, w, s), Finished(b, w, s'))
  {
    hide Answer, Refreshed, DoorOpened, DoorClosed, BlockedBy;
    LookAgrees(b, w, s, s');
    var s1, s1' := Refreshed(b, w, s), Refreshed(b, w, s');
    LooksAlike(b, w, s, s');
    VerdictsAlike(s1, s1');
    OpensAlike(b, w, s1, s1');
    OpeningConfirms(b, w, s1);
    OpeningConfirms(b, w, s1');
  }

  /** The table once the task is over. */
  lemma FinishOverAgrees(b: Binding, w: Script, s: Garage, s': Garage)
    requires Memoryless(b) && Agree(s, s')
    requires s.taskInProgress && !Refreshed(b, w, s).robot.TaskRunning()
    ensures AgreeStep(Finished(b, w, s), Finished(b, w, s'))
  {
    hide Answer, Refreshed, DoorOpened, DoorClosed, BlockedBy;
    LookAgrees(b, w, s, s');
    var s1, s1' := Refreshed(b, w, s), Refreshed(b, w, s');
    LooksAlike(b, w, s, s');
    VerdictsAlike(s1, s1');
    ClosesAlike(b, w, s1, s1');
    ClosingConfirms(b, w, s1);
    ClosingConfirms(b, w, s1');
  }

  lemma FinishAgrees(b: Binding, w: Script, s: Garage, s': Garage)
    requires Memoryless(b) && Agree(s, s')
    ensures AgreeStep(Finished(b, w, s), Finished(b, w, s'))
  {
    LookAgrees(b, w, s, s');
    if !s.taskInProgress {
      hide Refreshed;
    } else if Refreshed(b, w, s).robot.TaskRunning() {
      FinishRunningAgrees(b, w, s, s');
    } else {
      FinishOverAgrees(b, w, s, s');
    }
  }

  lemma LookAgrees(b: Binding, w: Script, s: Garage, s': Garage)
    requires Memoryless(b) && Agree(s, s')
    ensures Agree(Refreshed(b, w, s), Refreshed(b, w, s')) && Refreshed(b, w, s).robot == Refreshed(b, w, s').robot
  {
    hide Answer, Refreshed;
    LooksAlike(b, w, s, s');
    LookIsTrue(b, w, s);
    LookIsTrue(b, w, s');
  }

  lemma HandlingAgrees(b: Binding, w: Script, s: Garage, s': Garage)
    requires Memoryless(b) && Agree(s, s')
    ensures AgreeStep(ReturnHandled(b, w, s), ReturnHandled(b, w, s'))
  {
    hide Refreshed, CameBack;
    LookAgrees(b, w, s, s');
    ReturnAgrees(b, w, Refreshed(b, w, s), Refreshed(b, w, s'));
  }

  lemma PassAgrees(b: Binding, w: Script, s: Garage, s': Garage)
    requires Memoryless(b) && Agree(s, s')
    ensures AgreeStep(Pass(b, w, s), Pass(b, w, s'))
  {
    hide Refreshed, ReturnHandled, Departed, Finished;
    LookAgrees(b, w, s, s');
    var s1, s1' := Refreshed(b, w, s), Refreshed(b, w, s');
    HandlingAgrees(b, w, s1, s1');
    var handled, handled' := ReturnHandled(b, w, s1), ReturnHandled(b, w, s1');
    DepartureAgrees(b, w, handled.s, handled'.s);
    var departed := if handled.r == Returned(true) then handled else Departed(b, w, handled.s);
    var departed' := if handled'.r == Returned(true) then handled' else Departed(b, w, handled'.s);
    FinishAgrees(b, w, departed.s, departed'.s);
  }

  lemma {:induction false} RoundsAgree(b: Binding, w: Script, s: Garage, s': Garage, deadline: real)
    requires Memoryless(b) && Agree(s, s')
    ensures AgreeStep(Rounds(b, w, s, deadline), Rounds(b, w, s', deadline))
    decreases deadline - s.now
  {
    hide Pass;
    PassAgrees(b, w, s, s');
    var pass, pass' := Pass(b, w, s), Pass(b, w, s');
    if !w(s.tick).unloaded && pass.r == Returned(false) && pass.s.now < deadline {
      var slept, slept' := Slept(w, pass.s, 1.0), Slept(w, pass'.s, 1.0);
      if slept.r.Returned? {
        RoundsAgree(b, w, slept.s, slept'.s, deadline);
      }
    }
  }

  lemma {:induction false} StartAgrees(b: Binding, w: Script, s: Garage, s': Garage, deadline: real)
    requires Memoryless(b) && Agree(s, s')
    ensures AgreeStep(Started(b, w, s, deadline), Started(b, w, s', deadline))
    decreases deadline - s.now
  {
    hide Refreshed;
    LookAgrees(b, w, s, s');
    var s1, s1' := Refreshed(b, w, s), Refreshed(b, w, s');
    if !w(s.tick).unloaded && !Working(s1.robot) && s1.now < deadline {
      var slept, slept' := Slept(w, s1, 1.0), Slept(w, s1', 1.0);
      if slept.r.Returned? {
        StartAgrees(b, w, slept.s, slept'.s, deadline);
      }
    }
  }

  /** Whole sequences: two pasts that agree on the task flag lead to the same record and the same end. */
  lemma SequencesAgree(b: Binding, w: Script, s: Garage, s': Garage, timeout: real)
    requires Memoryless(b) && Agree(s, s')
    ensures AgreeStep(SequenceRun(b, w, s, timeout), SequenceRun(b, w, s', timeout))
  {
    hide Started, Rounds;
    StartAgrees(b, w, s, s', s.now + START_CONFIRMATION_SECONDS);
    var started := Started(b, w, s, s.now + START_CONFIRMATION_SECONDS);
    var started' := Started(b, w, s', s.now + START_CONFIRMATION_SECONDS);
    RoundsAgree(b, w, started.s, started'.s, s.now + Max(1.0, timeout));
  }

  /**
   From the command on not even the task flag of the past matters, because a confirmed opening sets it: two
   pasts send the same, and after an accepted clean the whole sequence is the same.
   */
  lemma TripsAgree(b: Binding, w: Script, s: Garage, s': Garage, kind: CommandKind, timeout: real)
    requires Memoryless(b) && Alike(s, s')
    ensures var sent, sent' := CommandSent(b, w, s, kind), CommandSent(b, w, s', kind);
            && SameStep(sent, sent')
            && (sent.r.Returned? && StartsSequence(kind) ==>
                  AgreeStep(SequenceRun(b, w, sent.s, timeout), SequenceRun(b, w, sent'.s, timeout)))
  {
    hide DoorOpened, SequenceRun, Memoryless;
    var sent, sent' := CommandSent(b, w, s, kind), CommandSent(b, w, s', kind);
    if StartsSequence(kind) {
      OpensAlike(b, w, s, s');
      OpeningConfirms(b, w, s);
      OpeningConfirms(b, w, s');
      if sent.r.Returned? {
        SequencesAgree(b, w, sent.s, sent'.s, timeout);
      }
    } else {
      OtherCommandsLeaveDoorAlone(b, w, s, kind);
      OtherCommandsLeaveDoorAlone(b, w, s', kind);
    }
  }

  // -- exactly when the past matters ------------------------------------------

  /** Every operation does the same from both states. */
  predicate ActAlike(b: Binding, w: Script, s: Garage, s': Garage)
  {
    && SameStep(DoorOpened(b, w, s), DoorOpened(b, w, s')) && SameStep(DoorClosed(b, w, s), DoorClosed(b, w, s'))
    && SameStep(Departed(b, w, s), Departed(b, w, s')) && SameStep(CameBack(b, w, s), CameBack(b, w, s'))
  }

  /** What is done depends on the present alone, for all sound pasts in all worlds. */
  ghost predicate IgnoresPast(b: Binding)
  {
    forall w: Script, s: Garage, s': Garage :: Alike(s, s') ==> ActAlike(b, w, s, s')
  }

  /** A controller at the end of the settle time that has seen what `h` says. */
  function Having(b: Binding, d: Direction, h: seq<Input>): Garage
    requires MeasuredSource(b, d)
  {
    var robot := AtRestAt(b, d).robot;
    var unread := UnknownState(b, FeedbackUnavailable, false);
    Garage(0, Get(b, PositionSettle).n, AtRest, None, false, robot, unread, Run(b, h), [])
  }

  /** The door was seen at `d` at time `t`. */
  function SeenAt(b: Binding, d: Direction, t: real): seq<Input>
  {
    [Input.Seen(Number(t), Standing(b, d))]
  }

  /** A controller made just now: it has looked once, at this very moment. */
  function NewComer(b: Binding, d: Direction): Garage
    requires MeasuredSource(b, d)
  {
    Having(b, d, SeenAt(b, d, Get(b, PositionSettle).n))
  }

  /** A controller that looked when the settle time began. */
  function OldHand(b: Binding, d: Direction): Garage
    requires MeasuredSource(b, d)
  {
    Having(b, d, SeenAt(b, d, 0.0))
  }

  lemma SeenAtIsSound(b: Binding, supported: bool, d: Direction, t: NonNegative)
    requires IsEnabled(b) && Acceptable(b, supported) && MeasuredSource(b, d) && t <= Get(b, PositionSettle).n
    ensures var e := Run(b, SeenAt(b, d, t));
            Sound(e, Get(b, PositionSettle).n) && d in e.stableSince && e.stableSince[d] == t
  {
    var r := Standing(b, d);
    StandingIsAtEndpoint(b, supported, d);
    RunSnoc(b, [], Input.Seen(Number(t), r));
    assert SeenAt(b, d, t) == [] + [Input.Seen(Number(t), r)];
    PositionConfirmsOnceSettled(b, NOTHING, t, r, d);
    AnswerStaysSound(b, NOTHING, t, r);
    hide Answer, Standing;
  }

  /** What a look at the end of the settle time shows to a controller that has looked at time `t`. */
  lemma LookAfterSettling(b: Binding, supported: bool, d: Direction, w: Script, t: NonNegative)
    requires IsEnabled(b) && Acceptable(b, supported) && MeasuredSource(b, d) && t <= Get(b, PositionSettle).n
    requires w(0) == AtRestAt(b, d)
    ensures var s := Refreshed(b, w, Having(b, d, SeenAt(b, d, t)));
            BlockedBy(s.door) == None && (EndpointConfirmed(s.door, d) <==> t <= 0.0)
  {
    hide Answer, Standing, BlockedReason, Clean, Acceptable, IsEnabled, Physical;
    var e, r, settle := Run(b, SeenAt(b, d, t)), Standing(b, d), Get(b, PositionSettle).n;
    SeenAtIsSound(b, supported, d, t);
    StandingIsAtEndpoint(b, supported, d);
    StandingIsReadable(b, supported, e, settle, d);
    PositionConfirmsOnceSettled(b, e, settle, r, d);
    MeasuredAnswer(b, e, Input.Seen(Number(settle), r), d);
  }

  /** With a settle time, two pasts that both can happen make the controller act differently in the same world. */
  lemma SettlingRemembers(b: Binding, supported: bool, d: Direction, w: Script)
    requires IsEnabled(b) && Acceptable(b, supported) && MeasuredSource(b, d) && Get(b, PositionSettle).n > 0.0
    requires w(0) == AtRestAt(b, d)
    ensures var s, s' := NewComer(b, d), OldHand(b, d);
            && Alike(s, s')
            && if d == Open then DoorOpened(b, w, s).s.log != DoorOpened(b, w, s').s.log
               else DoorClosed(b, w, s).s.log != DoorClosed(b, w, s').s.log
  {
    var s, s' := NewComer(b, d), OldHand(b, d);
    var settle := Get(b, PositionSettle).n;
    SeenAtIsSound(b, supported, d, settle);
    SeenAtIsSound(b, supported, d, 0.0);
    LookAfterSettling(b, supported, d, w, settle);
    LookAfterSettling(b, supported, d, w, 0.0);
    var s1, s1' := Refreshed(b, w, s), Refreshed(b, w, s');
    LookIsTrue(b, w, s);
    LookIsTrue(b, w, s');
    MovingShows(b, w, s1.(phase := if d == Open then Opening else Closing), d);
    hide Answer, Refreshed, Moved, BlockedBy, Run, AtRestAt, Physical;
    assert |s1.log| == |s1'.log| == 1;
  }

  lemma MemorylessIgnoresPast(b: Binding)
    requires Memoryless(b)
    ensures IgnoresPast(b)
  {
    hide DoorOpened, DoorClosed, Departed, CameBack, Memoryless, Alike, SameStep;
    forall w: Script, s: Garage, s': Garage | Alike(s, s')
      ensures ActAlike(b, w, s, s')
    {
      PastDoesNotMatter(b, w, s, s');
    }
  }

  lemma SettlingDoesNot(b: Binding, supported: bool, d: Direction)
    requires IsEnabled(b) && Acceptable(b, supported) && MeasuredSource(b, d) && Get(b, PositionSettle).n > 0.0
    ensures !IgnoresPast(b)
  {
    hide DoorOpened, DoorClosed, AtRestAt, NewComer, OldHand, MeasuredSource, Acceptable;
    var w: Script := t => AtRestAt(b, d);
    SettlingRemembers(b, supported, d, w);
    var s, s' := NewComer(b, d), OldHand(b, d);
    assert Alike(s, s') && !ActAlike(b, w, s, s');
  }

  /** Exactly: the operations ignore the past if and only if no measured endpoint has a settle time. */
  lemma PastIgnoredExactly(b: Binding, supported: bool)
    requires IsEnabled(b) && Acceptable(b, supported)
    ensures IgnoresPast(b) <==> Memoryless(b)
  {
    hide IgnoresPast, Acceptable;
    if Memoryless(b) {
      MemorylessIgnoresPast(b);
    } else {
      var d :| MeasuredSource(b, d) && Get(b, PositionSettle).n > 0.0;
      SettlingDoesNot(b, supported, d);
    }
  }
}
