/** Readings of a door that stands at one endpoint, for every binding that validation accepts. */
module StandingDoor {
  import opened Common
  import opened GarageBinding
  import opened GarageConfig
  import opened DoorEvidence
  import opened DoorHistory
  import opened RobotStates
  import opened GarageDoor
  import opened GarageSafety
  import opened WaitSucceeds

  /** What the contact of endpoint `x` reports when the door stands at `d`. */
  function ContactShowing(b: Binding, x: Direction, d: Direction): Value
  {
    if x == d then Get(b, ContactState(x))
    else if Get(b, ContactState(x)) == Text("on") then Text("off") else Text("on")
  }

  function Standing(b: Binding, d: Direction): Reading
  {
    Reading(true, Get(b, Position(d)), ContactShowing(b, Open, d), ContactShowing(b, Close, d), false)
  }

  /** A moment in which the door stands at `d`, nothing fails and closing is permitted. */
  function AtRestAt(b: Binding, d: Direction): Moment
  {
    Moment(Standing(b, d), Robot(Idle, false, false, false, None, None), true, false, None, 0.0)
  }

  lemma ValidContacts(b: Binding, supported: bool, d: Direction)
    requires IsEnabled(b) && Acceptable(b, supported) && Is(b, Source(d), "contact")
    ensures Get(b, Contact(d)).Text? && BINARY_SENSOR + "." <= Get(b, Contact(d)).s && OnOrOff(Get(b, ContactState(d)))
  {
    assert !Present(b, supported, InvalidContact(d)) && !Present(b, supported, InvalidEntity(Contact(d)));
    assert ENTITY_KEYS[2] == Contact(Open) && ENTITY_KEYS[3] == Contact(Close);
    assert NamesEntity(b, Contact(d));
  }

  lemma StandingContact(b: Binding, supported: bool, x: Direction, d: Direction)
    requires IsEnabled(b) && Acceptable(b, supported) && Is(b, Source(x), "contact")
    ensures ContactReached(b, x, Standing(b, d).Contact(x)) == Some(x == d)
  {
    ValidContacts(b, supported, x);
  }

  lemma StandingPosition(b: Binding, x: Direction, d: Direction)
    requires PositionConfigured(b)
    ensures NumberWithin(Standing(b, d).position, 0.0, 100.0).Some?
    ensures PastThreshold(b, x, Standing(b, d).position) <==> x == d
  {
  }

  // -- readable is unblocked --------------------------------------------------

  lemma ReadableContact(b: Binding, supported: bool, x: Direction, r: Reading)
    requires IsEnabled(b) && Acceptable(b, supported) && Readable(b, r) && Is(b, Source(x), "contact")
    ensures ContactReached(b, x, r.Contact(x)) == Some(r.Contact(x) == Get(b, ContactState(x)))
  {
    ValidContacts(b, supported, x);
    assert r.Contact(x) == Text("on") || r.Contact(x) == Text("off");
  }

  lemma ReadablePositionJudged(b: Binding, e: Evidence, x: Direction, now: real, position: Value)
    requires PositionConfigured(b) && e.command.None? && (Is(b, PositionKind, "estimated") ==> EstimateConfigured(b, x))
    requires NumberWithin(position, 0.0, 100.0).Some?
    ensures var q := JudgePosition(b, e, x, now, position).endpoint;
            && Unblocking(q.reason)
            && (q.reached == Some(true) ==> Is(b, PositionKind, "measured") && PastThreshold(b, x, position))
  {
    hide NumberWithin, PastThreshold;
  }

  lemma ReadableJudged(b: Binding, supported: bool, e: Evidence, x: Direction, now: real, r: Reading)
    requires IsEnabled(b) && Acceptable(b, supported) && e.command.None? && Readable(b, r)
    ensures var q := Judge(b, e, x, now, r.position, r.Contact(x)).endpoint;
            Unblocking(q.reason) && (q.reached == Some(true) ==> Physical(b, x, r))
  {
    ValidSourcesAreConfigured(b, supported, x);
    if Is(b, Source(x), "contact") {
      ReadableContact(b, supported, x, r);
    } else if Is(b, Source(x), "position") {
      assert NumberWithin(r.position, 0.0, 100.0).Some?;
      ReadablePositionJudged(b, e, x, now, r.position);
    }
    hide JudgePosition, ContactReached, Acceptable, PastThreshold, PositionConfigured;
  }

  lemma ReadableBothJudged(b: Binding, supported: bool, e: Evidence, now: real, r: Reading)
    requires IsEnabled(b) && Acceptable(b, supported) && e.command.None? && Readable(b, r)
    ensures var both := JudgeBoth(b, e, now, r);
            && Unblocking(both.0.reason) && (both.0.reached == Some(true) ==> Physical(b, Open, r))
            && Unblocking(both.1.reason) && (both.1.reached == Some(true) ==> Physical(b, Close, r))
  {
    ReadableJudged(b, supported, e, Open, now, r);
    JudgingTouches(b, e, Open, now, r.position, r.openContact);
    ReadableJudged(b, supported, Judge(b, e, Open, now, r.position, r.openContact).e, Close, now, r);
    hide Judge, Acceptable, Physical, Readable;
  }

  lemma ReadableHasNoConflict(b: Binding, supported: bool, r: Reading)
    requires IsEnabled(b) && Acceptable(b, supported) && Readable(b, r)
    ensures !ContactsConflict(b, r)
  {
    if ContactsConflict(b, r) {
      ReadableContact(b, supported, Open, r);
      ReadableContact(b, supported, Close, r);
    }
  }

  /** A door that can be read never blocks the controller, and what it shows is physical. */
  lemma ReadableIsUnblocked(b: Binding, supported: bool, e: Evidence, now: NonNegative, r: Reading)
    requires IsEnabled(b) && Acceptable(b, supported) && Quiet(e, now)
    requires Readable(b, r) && !(Physical(b, Open, r) && Physical(b, Close, r))
    ensures BlockedBy(Answer(b, e, Number(now), r).state) == None
  {
    var e1 := AfterClock(e, Number(now));
    ReadableBothJudged(b, supported, e1, now, r);
    ReadableHasNoConflict(b, supported, r);
    JudgedAnswer(b, e, now, r);
    var both := JudgeBoth(b, e1, now, r);
    UnblockedReasons(both.0, both.1, true);
    hide JudgeBoth, ContactsConflict, Acceptable, Answer, BlockedReason, Unblocking, Physical;
  }

  /**
   Exactly: for an accepted binding and quiet evidence, a door that is not physically at both endpoints
   leaves the controller free to act if and only if everything the binding relies on can be read.
   */
  lemma UnblockedExactlyWhenReadable(b: Binding, supported: bool, e: Evidence, now: NonNegative, r: Reading)
    requires IsEnabled(b) && Acceptable(b, supported) && Quiet(e, now)
    requires !(Physical(b, Open, r) && Physical(b, Close, r))
    ensures BlockedBy(Answer(b, e, Number(now), r).state) == None <==> Readable(b, r)
  {
    hide Answer, Readable, Acceptable, Physical, BlockedReason, Unblocking;
    var state := Answer(b, e, Number(now), r).state;
    if Readable(b, r) {
      ReadableIsUnblocked(b, supported, e, now, r);
    } else if BlockedBy(state) == None {
      UnblockedReasons(state.open, state.close, state.coverAvailable);
      UnblockedIsReadable(b, e, Number(now), r);
    }
  }

  // -- a standing door --------------------------------------------------------

  lemma StandingReads(b: Binding, supported: bool, d: Direction)
    requires IsEnabled(b) && Acceptable(b, supported)
    ensures Readable(b, Standing(b, d))
  {
    forall x | Is(b, Source(x), "contact")
      ensures Standing(b, d).Contact(x) == Text("on") || Standing(b, d).Contact(x) == Text("off")
    {
      ValidContacts(b, supported, x);
    }
    forall x | Is(b, Source(x), "position")
      ensures NumberWithin(Standing(b, d).position, 0.0, 100.0).Some?
    {
      assert x == Open || x == Close;
      ValidPositions(b, supported);
    }
    if Is(b, Source(Opposite(d)), "contact") {
      ValidContacts(b, supported, Opposite(d));
    }
  }

  /** A door standing at an endpoint never blocks the controller and never looks as if it stood at the other one. */
  lemma StandingIsReadable(b: Binding, supported: bool, e: Evidence, now: NonNegative, d: Direction)
    requires IsEnabled(b) && Acceptable(b, supported) && Quiet(e, now)
    ensures var state := Answer(b, e, Number(now), Standing(b, d)).state;
            BlockedBy(state) == None && !state.At(Opposite(d)).ConfirmedReached()
  {
    hide Answer, Standing, Readable, Acceptable, Physical, BlockedReason;
    StandingReads(b, supported, d);
    StandingIsNotAtOther(b, supported, d);
    ReadableIsUnblocked(b, supported, e, now, Standing(b, d));
    if Answer(b, e, Number(now), Standing(b, d)).state.At(Opposite(d)).ConfirmedReached() {
      ConfirmedIsPhysical(b, e, Number(now), Standing(b, d), Opposite(d));
    }
  }

  lemma StandingIsAtEndpoint(b: Binding, supported: bool, d: Direction)
    requires IsEnabled(b) && Acceptable(b, supported) && (Is(b, Source(d), "contact") || MeasuredSource(b, d))
    ensures AtEndpoint(b, d, Standing(b, d))
  {
    if Is(b, Source(d), "contact") {
      StandingContact(b, supported, d, d);
    } else {
      StandingPosition(b, d, d);
    }
    StandingIsNotAtOther(b, supported, d);
    hide PastThreshold, ContactReached, Acceptable;
  }

  lemma StandingIsNotAtOther(b: Binding, supported: bool, d: Direction)
    requires IsEnabled(b) && Acceptable(b, supported)
    ensures !Physical(b, Opposite(d), Standing(b, d))
  {
    var x := Opposite(d);
    if Is(b, Source(x), "contact") {
      StandingContact(b, supported, x, d);
    } else if PositionConfigured(b) {
      StandingPosition(b, x, d);
    }
  }
}
