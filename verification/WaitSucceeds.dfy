/** Configuration, evidence and the waiting loop together: a door that arrives is always recognised in time. */
module WaitSucceeds {
  import opened Common
  import opened GarageBinding
  import opened GarageConfig
  import opened DoorEvidence
  import opened DoorHistory
  import opened GarageDoor

  /** The cover is live, the wanted endpoint is physically there, and the other one is not. */
  predicate AtEndpoint(b: Binding, d: Direction, r: Reading)
  {
    r.coverAvailable && !r.restored && Physical(b, d, r) && !Physical(b, Opposite(d), r)
  }

  /** No command is being timed and no clock value lies ahead. */
  predicate Settling(s: Garage)
  {
    s.evidence.command.None? && (s.evidence.lastNow.None? || s.evidence.lastNow.value <= s.now)
  }

  /** The other endpoint can only be reached physically while no command is being timed. */
  lemma OtherEndpointNeedsProof(b: Binding, e: Evidence, d: Direction, now: real, r: Reading)
    requires e.command.None? && !Physical(b, d, r)
    ensures Judge(b, e, d, now, r.position, r.Contact(d)).endpoint.reached != Some(true)
  {
  }

  /** An observation at the endpoint is clean. */
  lemma AtEndpointIsClean(b: Binding, e: Evidence, now: NonNegative, r: Reading, d: Direction)
    requires AtEndpoint(b, d, r) && e.command.None? && (e.lastNow.None? || e.lastNow.value <= now)
    ensures Clean(b, e, Input.Seen(Number(now), r))
  {
    var e1 := e.(lastNow := Some(now));
    var atOpen := Judge(b, e1, Open, now, r.position, r.openContact);
    JudgingTheOther(b, e1, Close, now, r.position, r.openContact);
    OtherEndpointNeedsProof(b, if d == Open then atOpen.e else e1, Opposite(d), now, r);
    JudgeNeverNamesConflict(b, e1, Open, now, r.position, r.openContact);
  }

  /** A contact at the endpoint is confirmed by a single look. */
  lemma ContactConfirmsAtOnce(b: Binding, e: Evidence, now: NonNegative, r: Reading, d: Direction)
    requires AtEndpoint(b, d, r) && e.command.None? && (e.lastNow.None? || e.lastNow.value <= now)
    requires Is(b, Source(d), "contact") && Truthy(Get(b, Contact(d)))
    ensures Answer(b, e, Number(now), r).state.At(d).ConfirmedReached()
  {
    AtEndpointIsClean(b, e, now, r, d);
    CleanAnswer(b, e, Input.Seen(Number(now), r));
  }

  /** A measured position is confirmed as soon as it has been stable for the settle time. */
  lemma PositionConfirmsOnceSettled(b: Binding, e: Evidence, now: NonNegative, r: Reading, d: Direction)
    requires AtEndpoint(b, d, r) && e.command.None? && (e.lastNow.None? || e.lastNow.value <= now)
    requires MeasuredSource(b, d)
    ensures var o := Answer(b, e, Number(now), r);
            && o.e.command.None? && o.e.lastNow == Some(now)
            && d in o.e.stableSince
            && o.e.stableSince[d] == (if d in e.stableSince then e.stableSince[d] else now)
            && (now - o.e.stableSince[d] >= Get(b, PositionSettle).n ==> o.state.At(d).ConfirmedReached())
  {
    var i := Input.Seen(Number(now), r);
    AtEndpointIsClean(b, e, now, r, d);
    MeasuredStep(b, e, i, d);
    MeasuredAnswer(b, e, i, d);
    CommandStep(b, e, i);
  }

  /** Either the endpoint is being timed since no later than `since`, or this is that first moment. */
  predicate TimedFrom(s: Garage, d: Direction, since: real)
  {
    if d in s.evidence.stableSince then s.evidence.stableSince[d] <= since else s.now == since
  }

  lemma {:induction false} MeasuredWaitEnds(b: Binding, w: Script, s: Garage, d: Direction, since: real, timeout: real)
    requires MeasuredSource(b, d) && Get(b, PositionSettle).n <= timeout
    requires forall t :: s.tick <= t ==> AtEndpoint(b, d, w(t).door)
    requires Settling(s) && TimedFrom(s, d, since)
    ensures var r := Waited(b, w, s, d, since + timeout).r;
            r.Returned? || r.error.Cancelled?
    decreases (since + timeout - s.now) * 5.0
  {
    hide Answer, AtEndpoint;
    PositionConfirmsOnceSettled(b, s.evidence, s.now, w(s.tick).door, d);
    var s1 := Refreshed(b, w, s);
    if !EndpointConfirmed(s1.door, d) {
      assert s1.now < since + timeout;
      var slept := Slept(w, s1, 0.2);
      if slept.r.Returned? {
        MeasuredWaitEnds(b, w, slept.s, d, since, timeout);
      }
    }
  }

  /**
   For every binding that validation accepts: if at every poll the door is at the wanted endpoint, by
   contact or by measured position, then waiting returns. It never reports the endpoint as not
   confirmed, however long the settle time is and however far each sleep overshoots.
   */
  lemma ArrivedDoorIsConfirmed(b: Binding, supported: bool, w: Script, s: Garage, d: Direction)
    requires IsEnabled(b) && Acceptable(b, supported)
    requires forall t :: s.tick <= t ==> AtEndpoint(b, d, w(t).door)
    requires Settling(s) && d !in s.evidence.stableSince
    ensures WaitedFor(b, w, s, d).r.Returned? || WaitedFor(b, w, s, d).r.error.Cancelled?
  {
    hide Acceptable, Waited, WaitedFor;
    ValidTimings(b, supported, OperationTimeout);
    ValidTimeoutIsLonger(b, supported, d);
    assert AtEndpoint(b, d, w(s.tick).door);
    if Is(b, Source(d), "contact") {
      ValidSourcesAreConfigured(b, supported, d);
      ArrivedAtContact(b, w, s, d);
    } else {
      ArrivedAtPosition(b, w, s, d);
    }
  }

  lemma ArrivedAtContact(b: Binding, w: Script, s: Garage, d: Direction)
    requires AtEndpoint(b, d, w(s.tick).door) && Settling(s)
    requires Is(b, Source(d), "contact") && Truthy(Get(b, Contact(d))) && OperationSeconds(b).Some?
    ensures WaitedFor(b, w, s, d).r.Returned?
  {
    hide Answer, AtEndpoint;
    ContactConfirmsAtOnce(b, s.evidence, s.now, w(s.tick).door, d);
  }

  lemma ArrivedAtPosition(b: Binding, w: Script, s: Garage, d: Direction)
    requires forall t :: s.tick <= t ==> AtEndpoint(b, d, w(t).door)
    requires Settling(s) && d !in s.evidence.stableSince
    requires MeasuredSource(b, d)
    requires OperationTimeout in b && b[OperationTimeout].Number? && Get(b, PositionSettle).n <= b[OperationTimeout].n
    ensures WaitedFor(b, w, s, d).r.Returned? || WaitedFor(b, w, s, d).r.error.Cancelled?
  {
    hide Waited, AtEndpoint;
    MeasuredWaitEnds(b, w, s, d, s.now, b[OperationTimeout].n);
  }

  lemma ValidTimeoutIsLonger(b: Binding, supported: bool, d: Direction)
    requires IsEnabled(b) && Acceptable(b, supported)
    ensures WaitKnown(b, d) && InRange(b, OperationTimeout) && Wait(b, d) < b[OperationTimeout].n
  {
    assert forall k :: IsRequired(b, k) ==> IsNumeric(k) && InRange(b, k) by {
      forall k | IsRequired(b, k)
        ensures IsNumeric(k) && InRange(b, k)
      {
        ValidTimings(b, supported, k);
      }
    }
    ValidSourcesAreConfigured(b, supported, Open);
    ValidSourcesAreConfigured(b, supported, Close);
    TimingsGiveWaits(b, Open);
    TimingsGiveWaits(b, Close);
    assert !Present(b, supported, TimeoutTooShort);
  }

  /** So a door that has arrived by the time its command returns is always confirmed. */
  lemma MovedDoorIsConfirmed(b: Binding, supported: bool, w: Script, s: Garage, d: Direction)
    requires IsEnabled(b) && Acceptable(b, supported)
    requires s.evidence.lastNow.None? || s.evidence.lastNow.value <= s.now
    requires w(s.tick).failure.None?
    requires forall t :: s.tick < t ==> AtEndpoint(b, d, w(t).door)
    ensures var r := Reported(Moved(b, w, s, d)).r;
            r.Returned? || r.error.Cancelled?
  {
    hide Waited, AtEndpoint;
    var called := Called(w, s.(evidence := Invalidated(s.evidence)), DoorCommand(d));
    ValidTimings(b, supported, OperationTimeout);
    ArrivedDoorIsConfirmed(b, supported, w, called.s, d);
  }
}
