/** Over whole runs: a robot that was paused on its way back and seen paused is let in, or the record says why not. */
module GarageLettingIn {
  import opened Common
  import opened GarageBinding
  import opened DoorEvidence
  import opened DoorHistory
  import opened RobotStates
  import opened GarageDoor
  import opened GarageRuntime
  import opened GarageSafety
  import opened GarageOutcomes
  import opened GarageReleases
  import opened GarageActions

  /** Event `i` pauses a returning robot without failing, and the look after it shows it paused. */
  predicate HeldBackAt(log: seq<Event>, i: nat)
  {
    && 0 < i && i + 1 < |log| && log[i - 1].Seen? && log[i - 1].moment.failure.None?
    && log[i] == Pause(Return) && SawPaused(Some(log[i + 1]))
  }

  /** From `n` up to `k` there is one attempt to open: a look, at most one command, and then only looks. */
  predicate Attempt(log: seq<Event>, n: nat, k: nat)
  {
    && n < k <= |log| && log[n].Seen?
    && forall x :: n < x < k ==> log[x].Seen? || (x == n + 1 && log[x] == DoorCommand(Open))
  }

  predicate Blocks(e: Event)
  {
    e.Seen? && BlockedReason(e.open, e.close, e.coverAvailable).Some?
  }

  /** The attempt from `n` to `k` failed: not readable, the command failed, or the endpoint did not come in time. */
  predicate Failed(b: Binding, log: seq<Event>, n: nat, k: nat)
  {
    var timeout := OperationSeconds(b);
    && Attempt(log, n, k)
    && (|| (k == n + 1 && Blocks(log[n]))
       || (k == n + 2 && log[n + 1] == DoorCommand(Open) && (log[n].moment.failure.Some? || timeout.None?))
       || (k > n + 2 && log[n + 1] == DoorCommand(Open) && !Shows(log[k - 1], Open)
           && timeout.Some? && log[k - 1].now >= log[n + 2].now + timeout.value))
  }

  /** The attempt from `n` to `k` succeeded, and the resume is the next event unless the runtime was unloaded then. */
  predicate Resumed(log: seq<Event>, n: nat, k: nat)
  {
    && Attempt(log, n, k) && Shows(log[k - 1], Open)
    && (log[k - 1].moment.unloaded || (k < |log| && log[k] == Resume(Return)))
  }

  /** The robot held by the two events before `n` was let in, or the record says why not. */
  ghost predicate LetIn(b: Binding, log: seq<Event>, n: nat)
  {
    exists k :: Resumed(log, n, k) || Failed(b, log, n, k)
  }

  ghost predicate AllLetIn(b: Binding, log: seq<Event>, from: nat)
  {
    forall i :: from <= i < |log| && HeldBackAt(log, i) ==> LetIn(b, log, i + 2)
  }

  /** All let in, and the last event is not a pause that has still to be seen. */
  ghost predicate NoneHeldBack(b: Binding, log: seq<Event>, from: nat)
  {
    && from <= |log| && AllLetIn(b, log, from)
    && (from < |log| && log[|log| - 1] == Pause(Return) ==>
          2 <= |log| && log[|log| - 2].Seen? && log[|log| - 2].moment.failure.Some?)
  }

  lemma LetInStays(b: Binding, log: seq<Event>, more: seq<Event>, n: nat)
    requires log <= more && LetIn(b, log, n)
    ensures LetIn(b, more, n)
  {
    var k :| Resumed(log, n, k) || Failed(b, log, n, k);
    assert forall x :: 0 <= x < |log| ==> more[x] == log[x];
    assert Resumed(more, n, k) || Failed(b, more, n, k);
  }

  lemma HeldBackStays(log: seq<Event>, more: seq<Event>, i: nat)
    requires log <= more && i + 1 < |log|
    ensures HeldBackAt(more, i) <==> HeldBackAt(log, i)
  {
    assert log[i] == more[i] && log[i + 1] == more[i + 1] && (i > 0 ==> log[i - 1] == more[i - 1]);
  }

  lemma NoneHeldBackGoesOn(b: Binding, log: seq<Event>, more: seq<Event>, from: nat)
    requires NoneHeldBack(b, log, from) && log <= more && !Issues(log, more, Pause(Return))
    ensures NoneHeldBack(b, more, from)
  {
    forall i | from <= i < |more| && HeldBackAt(more, i)
      ensures LetIn(b, more, i + 2)
    {
      assert i < |log|;
      assert log[i] == more[i] && log[i - 1] == more[i - 1];
      HeldBackStays(log, more, i);
      LetInStays(b, log, more, i + 2);
    }
    if |log| < |more| {
      assert more[|more| - 1] != Pause(Return);
    }
  }

  // -- the way back -----------------------------------------------------------

  /** The record ends with a look at the open door, made in the stretch `m`. */
  predicate EndsOpenAt(log: seq<Event>, m: Moment)
  {
    EndsWith(log, Open) && log[|log| - 1].moment == m
  }

  /** The record of an attempt to open: how it succeeded, or why it failed. */
  lemma OpeningIsRecorded(b: Binding, w: Script, s: Garage)
    ensures var r := DoorOpened(b, w, s);
            var n := |s.log|;
            && s.log < r.s.log && Attempt(r.s.log, n, |r.s.log|)
            && (r.r.Returned? ==> EndsOpenAt(r.s.log, w(r.s.tick)))
            && (r.r.Raised? && !r.r.error.Cancelled? ==> Failed(b, r.s.log, n, |r.s.log|))
  {
    hide Refreshed, Moved, Polls;
    LookIsTrue(b, w, s);
    var s1 := Refreshed(b, w, s);
    OpeningConfirms(b, w, s);
    MovingShows(b, w, s1.(phase := Opening), Open);
    MoveExactly(b, w, s1.(phase := Opening), Open);
    hide Answer;
    var moved := Reported(Moved(b, w, s1.(phase := Opening), Open)).s.log;
    assert moved[|s.log|] == s1.log[|s.log|] && moved[|s1.log|] == DoorCommand(Open);
    if w(s.tick).failure.None? && OperationSeconds(b).Some? {
      PollsAreSeen(moved, |s1.log| + 1, Open, s.now + w(s.tick).lag + OperationSeconds(b).value);
    }
  }

  lemma PollsAreSeen(log: seq<Event>, first: nat, d: Direction, deadline: real)
    requires Polls(log, first, d, deadline)
    ensures first < |log| && forall k :: first <= k < |log| ==> log[k].Seen?
  {
  }

  /** Letting in a robot that was paused and seen paused: `s` is the controller after that look. */
  lemma LettingInIsRecorded(b: Binding, w: Script, s: Garage)
    ensures var r := OpenedAndResumed(b, w, s);
            && s.log < r.s.log
            && ((r.r.Raised? && r.r.error.Cancelled?) || LetIn(b, r.s.log, |s.log|))
            && r.s.log[|r.s.log| - 1] != Pause(Return)
            && forall k :: |s.log| <= k < |r.s.log| ==> r.s.log[k] != Pause(Return)
  {
    hide DoorOpened, Failed, Attempt;
    var atOpen := DoorOpened(b, w, s.(phase := Opening));
    OpeningIsRecorded(b, w, s.(phase := Opening));
    OpeningConfirms(b, w, s.(phase := Opening));
    var log := OpenedAndResumed(b, w, s).s.log;
    if atOpen.r.Returned? {
      AttemptStays(atOpen.s.log, log, |s.log|, |atOpen.s.log|);
      assert log[|atOpen.s.log| - 1] == atOpen.s.log[|atOpen.s.log| - 1];
      assert Resumed(log, |s.log|, |atOpen.s.log|);
    } else if !atOpen.r.error.Cancelled? {
      assert Failed(b, log, |s.log|, |log|);
    }
  }

  lemma AttemptStays(log: seq<Event>, more: seq<Event>, n: nat, k: nat)
    requires log <= more && Attempt(log, n, k)
    ensures Attempt(more, n, k)
  {
    assert forall x :: 0 <= x < |log| ==> more[x] == log[x];
  }

  lemma ReturnLetsIn(b: Binding, w: Script, s: Garage, from: nat)
    requires NoneHeldBack(b, s.log, from)
    ensures var r := CameBack(b, w, s);
            s.log < r.s.log && ((r.r.Raised? && r.r.error.Cancelled?) || NoneHeldBack(b, r.s.log, from))
  {
    hide Answer, Refreshed, OpenedAndResumed, NoneHeldBack, LetIn;
    LookIsTrue(b, w, s);
    var s1 := Refreshed(b, w, s);
    OthersIssued(s.log, s1.log, Pause(Return));
    NoneHeldBackGoesOn(b, s.log, s1.log, from);
    var asked := s1.(phase := PausingReturn);
    var paused := AskedRobot(w, asked, Pause(Return));
    LookIsTrue(b, w, paused.s);
    var held := Refreshed(b, w, paused.s);
    LettingInIsRecorded(b, w, held);
    if IsReturning(s1.robot.state) && !s1.door.OpenConfirmed() && !w(s.tick).unloaded {
      var look := Look(s.now, w(s.tick), s1.door);
      assert s1.log == s.log + [look];
      if paused.r.Raised? {
        FailedPauseAdded(b, s1.log, look, from);
      } else if !held.robot.state.Paused? {
        UnseenReturnAdded(b, s1.log, Look(paused.s.now, w(paused.s.tick), held.door), from);
      } else {
        HeldBackAdded(b, s1.log, held.log, OpenedAndResumed(b, w, held).s.log, from,
                      OpenedAndResumed(b, w, held).r.Raised? && OpenedAndResumed(b, w, held).r.error.Cancelled?);
      }
    }
  }

  lemma FailedPauseAdded(b: Binding, log: seq<Event>, look: Event, from: nat)
    requires NoneHeldBack(b, log, from) && log != [] && log[|log| - 1] == look
    requires look.Seen? && look.moment.failure.Some?
    ensures NoneHeldBack(b, log + [Pause(Return)], from)
  {
    var more := log + [Pause(Return)];
    forall i | from <= i < |more| && HeldBackAt(more, i)
      ensures LetIn(b, more, i + 2)
    {
      assert i + 1 < |more| && more[i] == log[i] && more[i - 1] == log[i - 1];
      if i + 1 < |log| {
        HeldBackStays(log, more, i);
        LetInStays(b, log, more, i + 2);
      }
    }
  }

  lemma UnseenReturnAdded(b: Binding, log: seq<Event>, look: Event, from: nat)
    requires NoneHeldBack(b, log, from) && look.Seen? && !SawPaused(Some(look))
    requires log != [] && log[|log| - 1].Seen?
    ensures NoneHeldBack(b, log + [Pause(Return)] + [look], from)
  {
    var more := log + [Pause(Return)] + [look];
    forall i | from <= i < |more| && HeldBackAt(more, i)
      ensures LetIn(b, more, i + 2)
    {
      assert more[|log|] == Pause(Return) && more[|log| + 1] == look;
      assert i < |log| ==> more[i] == log[i];
      assert i + 1 < |log|;
      HeldBackStays(log, more, i);
      LetInStays(b, log, more, i + 2);
    }
  }

  lemma HeldBackAdded(b: Binding, log: seq<Event>, held: seq<Event>, more: seq<Event>, from: nat, cancelled: bool)
    requires NoneHeldBack(b, log, from) && log != [] && log[|log| - 1].Seen?
    requires |held| == |log| + 2 && log <= held && held[|log|] == Pause(Return) && held[|log| + 1].Seen?
    requires held < more && forall k :: |held| <= k < |more| ==> more[k] != Pause(Return)
    requires cancelled || LetIn(b, more, |held|)
    ensures cancelled || NoneHeldBack(b, more, from)
  {
    assert forall k :: 0 <= k < |held| ==> more[k] == held[k];
    if !cancelled {
      forall i | from <= i < |more| && HeldBackAt(more, i)
        ensures LetIn(b, more, i + 2)
      {
        assert i < |log| ==> more[i] == log[i];
        if i < |log| {
          assert i + 1 < |log|;
          HeldBackStays(log, more, i);
          LetInStays(b, log, more, i + 2);
        } else {
          assert i == |log|;
        }
      }
    }
  }

  // -- whole runs -------------------------------------------------------------

  lemma PassLetsIn(b: Binding, w: Script, s: Garage, from: nat)
    requires NoneHeldBack(b, s.log, from)
    ensures var r := Pass(b, w, s);
            (r.r.Raised? && r.r.error.Cancelled?) || NoneHeldBack(b, r.s.log, from)
  {
    hide Refreshed, CameBack, Departed, Finished, NoneHeldBack, Issues;
    LookIsTrue(b, w, s);
    var s1 := Refreshed(b, w, s);
    OthersIssued(s.log, s1.log, Pause(Return));
    NoneHeldBackGoesOn(b, s.log, s1.log, from);
    LookIsTrue(b, w, s1);
    var s2 := Refreshed(b, w, s1);
    OthersIssued(s1.log, s2.log, Pause(Return));
    NoneHeldBackGoesOn(b, s1.log, s2.log, from);
    ReturnLetsIn(b, w, s2, from);
    var handled := ReturnHandled(b, w, s1);
    if !(handled.r.Raised? && handled.r.error.Cancelled?) {
      DepartureNeverPausesForReturn(b, w, handled.s);
      NoneHeldBackGoesOn(b, handled.s.log, Departed(b, w, handled.s).s.log, from);
      var departed := if handled.r.Raised? || handled.r.value then handled else Departed(b, w, handled.s);
      FinishPausesNothing(b, w, departed.s, Return);
      NoneHeldBackGoesOn(b, departed.s.log, Finished(b, w, departed.s).s.log, from);
    }
  }

  lemma {:induction false} RoundsLetIn(b: Binding, w: Script, s: Garage, deadline: real, from: nat)
    requires NoneHeldBack(b, s.log, from)
    ensures var r := Rounds(b, w, s, deadline);
            r.r == Raised(Cancelled) || NoneHeldBack(b, r.s.log, from)
    decreases deadline - s.now
  {
    hide Pass, NoneHeldBack;
    if !w(s.tick).unloaded {
      PassLetsIn(b, w, s, from);
      var pass := Pass(b, w, s);
      if pass.r == Returned(false) && pass.s.now < deadline {
        var slept := Slept(w, pass.s, 1.0);
        if slept.r.Returned? {
          RoundsLetIn(b, w, slept.s, deadline, from);
        }
      }
    }
  }

  /**
   In every run that is not cancelled: every pause on the way back that did not fail and was seen is followed by
   one attempt to open. If that succeeds, the resume is the next event unless the runtime was unloaded at that
   moment; otherwise the record shows the reading, the failed command or the time that made it fail.
   */
  lemma EveryReturningRobotIsLetIn(b: Binding, w: Script, s: Garage, timeout: real)
    ensures var r := SequenceRun(b, w, s, timeout);
            r.r == Raised(Cancelled) || AllLetIn(b, r.s.log, |s.log|)
  {
    hide Started, Rounds;
    var from := |s.log|;
    var started := Started(b, w, s, s.now + START_CONFIRMATION_SECONDS);
    assert Disciplined(b, s.log, from) by { NothingIsDisciplined(b, s.log); }
    hide Disciplined;
    StartOnlyLooks(b, w, s, s.now + START_CONFIRMATION_SECONDS, from);
    assert NoneHeldBack(b, started.s.log, from);
    if started.r == Returned(true) {
      RoundsLetIn(b, w, started.s, s.now + Max(1.0, timeout), from);
    }
  }
}
