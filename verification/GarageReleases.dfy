/** Over whole runs: a robot that was paused on departure and seen paused is asked to go on. */
module GarageReleases {
  import opened Common
  import opened GarageBinding
  import opened DoorEvidence
  import opened DoorHistory
  import opened RobotStates
  import opened GarageDoor
  import opened GarageRuntime
  import opened GarageSafety
  import opened GarageOutcomes

  /** Event `i` pauses a departing robot, and the look after it shows it paused. */
  predicate PausedAt(log: seq<Event>, i: nat)
  {
    i + 1 < |log| && log[i] == Pause(Departure) && SawPaused(Some(log[i + 1]))
  }

  /** The resume for the pause at `i` comes at `j`, and the robot is not paused again before it. */
  predicate ResumedAt(log: seq<Event>, i: nat, j: nat)
  {
    i + 1 < j < |log| && log[j] == Resume(Departure) && forall k :: i < k < j ==> !log[k].Pause? && !log[k].Resume?
  }

  ghost predicate AllReleased(log: seq<Event>, from: nat)
  {
    forall i :: from <= i < |log| && PausedAt(log, i) ==> exists j :: ResumedAt(log, i, j)
  }

  /** All released, and no pause is waiting to be seen. */
  ghost predicate NoneHeld(log: seq<Event>, from: nat)
  {
    from <= |log| && AllReleased(log, from) && (from < |log| ==> log[|log| - 1] != Pause(Departure))
  }

  /** From `before` to `after` no departing robot was paused. */
  predicate NoPausing(before: seq<Event>, after: seq<Event>)
  {
    before <= after && forall k :: |before| <= k < |after| ==> after[k] != Pause(Departure)
  }

  lemma ResumedStays(log: seq<Event>, more: seq<Event>, i: nat)
    requires log <= more && i + 1 < |log|
    ensures PausedAt(more, i) <==> PausedAt(log, i)
    ensures (exists j :: ResumedAt(log, i, j)) ==> exists j :: ResumedAt(more, i, j)
  {
    assert log[i] == more[i] && log[i + 1] == more[i + 1];
    if j :| ResumedAt(log, i, j) {
      assert ResumedAt(more, i, j);
    }
  }

  lemma NoneHeldGoesOn(log: seq<Event>, more: seq<Event>, from: nat)
    requires NoneHeld(log, from) && NoPausing(log, more)
    ensures NoneHeld(more, from)
  {
    forall i | from <= i < |more| && PausedAt(more, i)
      ensures exists j :: ResumedAt(more, i, j)
    {
      assert i < |log| && log[i] == more[i];
      ResumedStays(log, more, i);
    }
  }

  /** A pause was added last: nothing is known of it yet, and all before it are released. */
  lemma PauseIsAdded(log: seq<Event>, from: nat)
    requires NoneHeld(log, from)
    ensures AllReleased(log + [Pause(Departure)], from)
  {
    var more := log + [Pause(Departure)];
    forall i | from <= i < |more| && PausedAt(more, i)
      ensures exists j :: ResumedAt(more, i, j)
    {
      assert log[i] == more[i];
      ResumedStays(log, more, i);
    }
  }

  /** A pause that was not seen needs no resume. */
  lemma UnseenPauseIsAdded(log: seq<Event>, look: Event, from: nat)
    requires NoneHeld(log, from) && look.Seen? && !SawPaused(Some(look))
    ensures NoneHeld(log + [Pause(Departure), look], from)
  {
    var more := log + [Pause(Departure), look];
    forall i | from <= i < |more| && PausedAt(more, i)
      ensures exists j :: ResumedAt(more, i, j)
    {
      assert more[|log|] == Pause(Departure) && more[|log| + 1] == look;
      assert i + 1 < |log| || i == |log| - 1 || i == |log| || i == |log| + 1;
      assert i < |log| ==> log[i] == more[i];
      ResumedStays(log, more, i);
    }
  }

  /** A seen pause, one attempt to close, and the resume. */
  lemma HeldAndReleased(log: seq<Event>, look: Event, tried: seq<Event>, from: nat)
    requires NoneHeld(log, from) && look.Seen?
    requires DoorRun(log + [Pause(Departure), look], tried, Close)
    ensures NoneHeld(tried + [Resume(Departure)], from)
  {
    var held := log + [Pause(Departure), look];
    var more := tried + [Resume(Departure)];
    assert held[|log|] == Pause(Departure) && held[|log| + 1] == look;
    assert forall k :: 0 <= k < |held| ==> more[k] == held[k];
    forall i | from <= i < |more| && PausedAt(more, i)
      ensures exists j :: ResumedAt(more, i, j)
    {
      if i < |log| {
        assert log[i] == more[i];
        assert i + 1 < |log|;
        assert log <= more;
        ResumedStays(log, more, i);
      } else {
        assert i == |log|;
        assert ResumedAt(more, i, |tried|);
      }
    }
  }

  // -- the operations ---------------------------------------------------------

  /** What each operation keeps: if it returns, nobody is held; and at its end all are released or it is unloaded. */
  ghost predicate Keeps(w: Script, s: Garage, returned: bool, from: nat)
  {
    && (returned ==> NoneHeld(s.log, from))
    && (AllReleased(s.log, from) || w(s.tick).unloaded)
  }

  lemma PausingReleases(b: Binding, w: Script, s: Garage, from: nat)
    requires NoneHeld(s.log, from)
    ensures var r := PausedClosedResumed(b, w, s);
            Keeps(w, r.s, r.r.Returned?, from)
  {
    hide Answer, Refreshed, DoorClosed, NoneHeld, AllReleased, DoorRun;
    NoneHeldIsReleased(s.log, from);
    var paused := AskedRobot(w, s.(phase := PausingExit), Pause(Departure));
    PauseIsAdded(s.log, from);
    if paused.r.Returned? {
      LookIsTrue(b, w, paused.s);
      var held := Refreshed(b, w, paused.s);
      var look := Look(paused.s.now, w(paused.s.tick), held.door);
      assert held.log == s.log + [Pause(Departure), look];
      if !held.robot.state.Paused? {
        UnseenPauseIsAdded(s.log, look, from);
        NoneHeldIsReleased(held.log, from);
      } else {
        ClosingConfirms(b, w, held);
        var tried := DoorClosed(b, w, held).s;
        HeldAndReleased(s.log, look, tried.log, from);
        NoneHeldIsReleased(tried.log + [Resume(Departure)], from);
      }
    }
  }

  lemma NoneHeldIsReleased(log: seq<Event>, from: nat)
    requires NoneHeld(log, from)
    ensures AllReleased(log, from)
  {
  }

  lemma LookKeepsNoneHeld(b: Binding, w: Script, s: Garage, from: nat)
    requires NoneHeld(s.log, from)
    ensures NoneHeld(Refreshed(b, w, s).log, from) && AllReleased(Refreshed(b, w, s).log, from)
  {
    hide Answer, AllReleased;
    LookIsTrue(b, w, s);
    NoneHeldGoesOn(s.log, Refreshed(b, w, s).log, from);
  }

  lemma DepartureReleases(b: Binding, w: Script, s: Garage, from: nat)
    requires NoneHeld(s.log, from)
    ensures var r := Departed(b, w, s);
            Keeps(w, r.s, r.r.Returned?, from)
  {
    hide Refreshed, BlockedBy, PausedClosedResumed, NoneHeld, AllReleased;
    LookKeepsNoneHeld(b, w, s, from);
    PausingReleases(b, w, Refreshed(b, w, s), from);
  }

  lemma ReturnPausesNoDeparture(b: Binding, w: Script, s: Garage)
    ensures NoPausing(s.log, CameBack(b, w, s).s.log)
  {
    hide Refreshed, OpenedAndResumed, BlockedBy;
    LookIsTrue(b, w, s);
    var s1 := Refreshed(b, w, s);
    var paused := AskedRobot(w, s1.(phase := PausingReturn), Pause(Return));
    LookIsTrue(b, w, paused.s);
    LettingInPausesNoDeparture(b, w, Refreshed(b, w, paused.s));
  }

  lemma LettingInPausesNoDeparture(b: Binding, w: Script, s: Garage)
    ensures NoPausing(s.log, OpenedAndResumed(b, w, s).s.log)
  {
    hide DoorOpened;
    OpeningConfirms(b, w, s.(phase := Opening));
  }

  lemma FinishPausesNoDeparture(b: Binding, w: Script, s: Garage)
    ensures NoPausing(s.log, Finished(b, w, s).s.log)
  {
    hide Refreshed, BlockedBy, DoorOpened, DoorClosed;
    LookIsTrue(b, w, s);
    OpeningConfirms(b, w, Refreshed(b, w, s));
    ClosingConfirms(b, w, Refreshed(b, w, s));
  }

  lemma PassReleases(b: Binding, w: Script, s: Garage, from: nat)
    requires NoneHeld(s.log, from)
    ensures var r := Pass(b, w, s);
            Keeps(w, r.s, r.r.Returned?, from)
  {
    hide Refreshed, CameBack, Departed, Finished, NoneHeld, AllReleased;
    LookKeepsNoneHeld(b, w, s, from);
    var s1 := Refreshed(b, w, s);
    LookKeepsNoneHeld(b, w, s1, from);
    var s2 := Refreshed(b, w, s1);
    ReturnPausesNoDeparture(b, w, s2);
    NoneHeldGoesOn(s2.log, CameBack(b, w, s2).s.log, from);
    var handled := ReturnHandled(b, w, s1);
    NoneHeldIsReleased(handled.s.log, from);
    if handled.r.Returned? {
      DepartureReleases(b, w, handled.s, from);
      var departed := if handled.r.value then handled else Departed(b, w, handled.s);
      if departed.r.Returned? {
        FinishPausesNoDeparture(b, w, departed.s);
        NoneHeldGoesOn(departed.s.log, Finished(b, w, departed.s).s.log, from);
        NoneHeldIsReleased(Finished(b, w, departed.s).s.log, from);
      }
    }
  }

  lemma {:induction false} RoundsRelease(b: Binding, w: Script, s: Garage, deadline: real, from: nat)
    requires NoneHeld(s.log, from)
    ensures var r := Rounds(b, w, s, deadline);
            AllReleased(r.s.log, from) || w(r.s.tick).unloaded
    decreases deadline - s.now
  {
    hide Pass, NoneHeld, AllReleased;
    if !w(s.tick).unloaded {
      PassReleases(b, w, s, from);
      var pass := Pass(b, w, s);
      if pass.r.Returned? {
        NoneHeldIsReleased(pass.s.log, from);
        if !pass.r.value && pass.s.now < deadline {
          var slept := Slept(w, pass.s, 1.0);
          if slept.r.Returned? {
            RoundsRelease(b, w, slept.s, deadline, from);
          }
        }
      }
    }
  }

  /**
   In every run: every pause on departure that the next look shows as paused has its own later resume, with no
   pause and no other resume in between, unless the run ends because the runtime was unloaded.
   */
  lemma EveryHeldRobotGoesOn(b: Binding, w: Script, s: Garage, timeout: real)
    ensures var r := SequenceRun(b, w, s, timeout);
            AllReleased(r.s.log, |s.log|) || w(r.s.tick).unloaded
  {
    hide Started, Rounds;
    var from := |s.log|;
    var started := Started(b, w, s, s.now + START_CONFIRMATION_SECONDS);
    StartOnlyLooks(b, w, s, s.now + START_CONFIRMATION_SECONDS, from);
    assert NoneHeld(started.s.log, from);
    hide NoneHeld, AllReleased;
    NoneHeldIsReleased(started.s.log, from);
    if started.r == Returned(true) {
      RoundsRelease(b, w, started.s, s.now + Max(1.0, timeout), from);
    }
  }
}
