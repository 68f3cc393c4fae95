/**
 Endpoint facts of a door, drawn from the sources its binding selects.

 A fact needs a history: how long a reading has been stable, which command is being
 timed, whether the clock went back. Everything revocable is revoked at once.
 */
module DoorEvidence {
  import opened Common
  import opened GarageBinding
  import opened GarageConfig

  datatype Quality = Confirmed | Estimated | Unknown

  datatype Reason =
    | FeedbackUnavailable | RestoredSnapshot | EndpointConflict | InvalidClock | InvalidConfiguration
    | EndpointUnsettled | UnverifiedPosition | CommandRequired | TravelInProgress

  /** One endpoint; an unknown endpoint is not the same as one that is not reached. */
  datatype Endpoint = Endpoint(reached: Option<bool>, quality: Quality, source: string, reason: Option<Reason>) {
    predicate ConfirmedReached() {
      quality == Confirmed && reached == Some(true)
    }
  }

  datatype DoorState = DoorState(
    open: Endpoint,
    close: Endpoint,
    coverAvailable: bool,
    direction: Option<Direction>,
    operationId: Option<int>,
    allowEstimated: bool)
  {
    predicate OpenConfirmed() {
      open.ConfirmedReached()
    }

    predicate ClosedConfirmed() {
      close.ConfirmedReached()
    }

    function At(d: Direction): Endpoint {
      if d == Open then open else close
    }
  }

  datatype Command = Command(direction: Direction, startedAt: real, operationId: int)

  datatype Evidence = Evidence(command: Option<Command>, stableSince: map<Direction, real>, lastNow: Option<real>)

  const NOTHING := Evidence(None, map[], None)

  /** What the cover and the two contacts report at one moment. */
  datatype Reading = Reading(
    coverAvailable: bool, position: Value, openContact: Value, closeContact: Value, restored: bool)
  {
    function Contact(d: Direction): Value {
      if d == Open then openContact else closeContact
    }
  }

  // -- the specification ------------------------------------------------------

  /** A clock value is usable when it is not negative and not before the previous one. */
  function ClockOf(e: Evidence, now: Value): Option<real>
  {
    if now.Number? && now.n >= 0.0 && (e.lastNow.None? || now.n >= e.lastNow.value) then Some(now.n) else None
  }

  function Invalidated(e: Evidence): Evidence
  {
    e.(command := None, stableSince := map[])
  }

  function AfterClock(e: Evidence, now: Value): Evidence
  {
    var valid := ClockOf(e, now);
    if valid.Some? then e.(lastNow := valid) else Invalidated(e).(lastNow := None)
  }

  function Noted(e: Evidence, direction: Option<Direction>, now: Value, operationId: Option<int>): Evidence
  {
    var e' := AfterClock(e, now);
    if ClockOf(e, now).None? then e'
    else if direction.None? || operationId.None? then Invalidated(e')
    else Evidence(Some(Command(direction.value, ClockOf(e, now).value, operationId.value)), map[], e'.lastNow)
  }

  function ContactReached(b: Binding, d: Direction, value: Value): Option<bool>
  {
    if !Is(b, Source(d), "contact") then None
    else if !Get(b, Contact(d)).Text? || !(BINARY_SENSOR + "." <= Get(b, Contact(d)).s) then None
    else if !OnOrOff(Get(b, ContactState(d))) || !OnOrOff(value) then None
    else Some(value == Get(b, ContactState(d)))
  }

  function SourceName(b: Binding, d: Direction): string
  {
    if Get(b, Source(d)).Text? then Get(b, Source(d)).s else "unconfigured"
  }

  function UnknownEndpoint(b: Binding, d: Direction, reason: Reason): Endpoint
  {
    Endpoint(None, Unknown, SourceName(b, d), Some(reason))
  }

  function UnknownState(b: Binding, reason: Reason, coverAvailable: bool): DoorState
  {
    DoorState(UnknownEndpoint(b, Open, reason), UnknownEndpoint(b, Close, reason), coverAvailable, None, None, false)
  }

  /** The position thresholds and the settle time are configured. */
  predicate PositionConfigured(b: Binding)
  {
    && (Is(b, PositionKind, "measured") || Is(b, PositionKind, "estimated"))
    && NumberWithin(Get(b, Position(Open)), 0.0, 100.0).Some?
    && NumberWithin(Get(b, Position(Close)), 0.0, 100.0).Some?
    && Get(b, Position(Open)).n > Get(b, Position(Close)).n
    && NumberWithin(Get(b, PositionSettle), 0.0, 60.0).Some?
  }

  predicate PastThreshold(b: Binding, d: Direction, position: Value)
  {
    && PositionConfigured(b)
    && NumberWithin(position, 0.0, 100.0).Some?
    && if d == Open then position.n >= Get(b, Position(Open)).n else position.n <= Get(b, Position(Close)).n
  }

  predicate EstimateConfigured(b: Binding, d: Direction)
  {
    NumberWithin(Get(b, Travel(d)), 1.0, 600.0).Some? && NumberWithin(Get(b, TravelMargin), 0.0, 120.0).Some?
  }

  function FullTravel(b: Binding, d: Direction): real
    requires EstimateConfigured(b, d)
  {
    Get(b, Travel(d)).n + Get(b, TravelMargin).n
  }

  datatype Judged = Judged(e: Evidence, endpoint: Endpoint)

  function Dropped(e: Evidence, d: Direction): Evidence
  {
    e.(stableSince := e.stableSince - {d})
  }

  /** Since when the endpoint has been read without interruption. */
  function Since(e: Evidence, d: Direction): Option<real>
  {
    if d in e.stableSince then Some(e.stableSince[d]) else None
  }

  /** The timing of an endpoint after one more reading of it: ended, kept or started. */
  function Timed(e: Evidence, d: Direction, reached: bool, now: real): (e': Evidence)
    ensures reached ==> d in e'.stableSince
  {
    if !reached then Dropped(e, d)
    else if d in e.stableSince then e
    else e.(stableSince := e.stableSince[d := now])
  }

  function Unclear(b: Binding, e: Evidence, d: Direction, reason: Reason): Judged
  {
    Judged(Dropped(e, d), UnknownEndpoint(b, d, reason))
  }

  /** The rejection of an estimate, or None once the full travel of a command in this direction has elapsed. */
  function EstimateRefusal(b: Binding, e: Evidence, d: Direction, now: real): Option<Judged>
  {
    if !EstimateConfigured(b, d) then Some(Unclear(b, e, d, InvalidConfiguration))
    else if e.command.None? || e.command.value.direction != d then Some(Unclear(b, e, d, CommandRequired))
    else if now - e.command.value.startedAt < FullTravel(b, d) then
      Some(Judged(e, Endpoint(None, Unknown, SourceName(b, d), Some(TravelInProgress))))
    else None
  }

  function JudgeContact(b: Binding, e: Evidence, d: Direction, contact: Value): Judged
  {
    var reached := ContactReached(b, d, contact);
    if !Truthy(Get(b, Contact(d))) || !OnOrOff(Get(b, ContactState(d))) then Unclear(b, e, d, InvalidConfiguration)
    else if reached.None? then Unclear(b, e, d, FeedbackUnavailable)
    else Judged(if reached.value then e else Dropped(e, d), Endpoint(reached, Confirmed, "contact", None))
  }

  function JudgePosition(b: Binding, e: Evidence, d: Direction, now: real, position: Value): Judged
  {
    if !PositionConfigured(b) then Unclear(b, e, d, InvalidConfiguration)
    else if NumberWithin(position, 0.0, 100.0).None? then Unclear(b, e, d, FeedbackUnavailable)
    else
      var measured := Is(b, PositionKind, "measured");
      var reached := PastThreshold(b, d, position);
      var e' := Timed(e, d, reached, now);
      var settled := reached && now - e'.stableSince[d] >= Get(b, PositionSettle).n;
      var refusal := if measured then None else EstimateRefusal(b, e', d, now);
      var quality := if measured then Confirmed else Estimated;
      var reason := if measured then None else Some(UnverifiedPosition);
      if refusal.Some? then refusal.value
      else if !reached then Judged(e', Endpoint(Some(false), quality, "position", reason))
      else if !settled then Judged(e', Endpoint(None, Unknown, "position", Some(EndpointUnsettled)))
      else Judged(e', Endpoint(Some(true), quality, "position", reason))
  }

  function Judge(b: Binding, e: Evidence, d: Direction, now: real, position: Value, contact: Value): Judged
  {
    if Is(b, Source(d), "contact") then JudgeContact(b, e, d, contact)
    else if Is(b, Source(d), "position") then JudgePosition(b, e, d, now, position)
    else if Is(b, Source(d), "timed") then
      var refusal := EstimateRefusal(b, e, d, now);
      if refusal.Some? then refusal.value
      else Judged(e, Endpoint(Some(true), Estimated, "timed", Some(UnverifiedPosition)))
    else Unclear(b, e, d, InvalidConfiguration)
  }

  predicate ContactsConflict(b: Binding, r: Reading)
  {
    ContactReached(b, Open, r.openContact) == Some(true) && ContactReached(b, Close, r.closeContact) == Some(true)
  }

  /** The source that an active command relies on cannot be read. */
  predicate SourceLost(b: Binding, e: Evidence, r: Reading)
  {
    && e.command.Some?
    && var d := e.command.value.direction;
       || (Is(b, Source(d), "position") && NumberWithin(r.position, 0.0, 100.0).None?)
       || (Is(b, Source(d), "contact") && ContactReached(b, d, r.Contact(d)).None?)
  }

  datatype Observed = Observed(e: Evidence, state: DoorState)

  /** Both endpoints, judged in the order open, close. */
  function JudgeBoth(b: Binding, e: Evidence, now: real, r: Reading): (Endpoint, Endpoint, Evidence)
  {
    var atOpen := Judge(b, e, Open, now, r.position, r.openContact);
    var atClose := Judge(b, atOpen.e, Close, now, r.position, r.closeContact);
    (atOpen.endpoint, atClose.endpoint, atClose.e)
  }

  function Answer(b: Binding, e: Evidence, now: Value, r: Reading): Observed
  {
    var valid := ClockOf(e, now);
    var e1 := AfterClock(e, now);
    if valid.None? then Observed(e1, UnknownState(b, InvalidClock, r.coverAvailable))
    else if !r.coverAvailable then Observed(Invalidated(e1), UnknownState(b, FeedbackUnavailable, false))
    else if r.restored then Observed(Invalidated(e1), UnknownState(b, RestoredSnapshot, true))
    else if ContactsConflict(b, r) then Observed(Invalidated(e1), UnknownState(b, EndpointConflict, true))
    else
      var e2 := if SourceLost(b, e1, r) then Invalidated(e1) else e1;
      var (atOpen, atClose, e3) := JudgeBoth(b, e2, valid.value, r);
      if atOpen.reached == Some(true) && atClose.reached == Some(true) then
        Observed(Invalidated(e3), UnknownState(b, EndpointConflict, true))
      else
        Observed(e3, DoorState(
          atOpen, atClose, true,
          if e3.command.Some? then Some(e3.command.value.direction) else None,
          if e3.command.Some? then Some(e3.command.value.operationId) else None,
          IsTrue(b, AllowEstimated)))
  }

  // -- the tracker ------------------------------------------------------------

  class EvidenceTracker {
    const binding: Binding
    var command: Option<Command>
    var stableSince: map<Direction, real>
    var lastNow: Option<real>

    ghost function State(): Evidence
      reads this
    {
      Evidence(command, stableSince, lastNow)
    }

    constructor (binding: Binding)
      ensures this.binding == binding && State() == NOTHING
    {
      this.binding := binding;
      command, stableSince, lastNow := None, map[], None;
    }

    method NoteCommand(direction: Option<Direction>, now: Value, operationId: Option<int>)
      modifies this
      ensures State() == Noted(old(State()), direction, now, operationId)
    {
      var validNow := Clock(now);
      if validNow == None {
        return;
      }
      if direction == None {
        Invalidate();
        return;
      }
      if operationId == None {
        Invalidate();
        return;
      }
      stableSince := map[];
      command := Some(Command(direction.value, validNow.value, operationId.value));
    }

    method Invalidate()
      modifies this`command, this`stableSince
      ensures State() == Invalidated(old(State()))
    {
      command := None;
      stableSince := map[];
    }

    method Clock(now: Value) returns (validNow: Option<real>)
      modifies this
      ensures validNow == ClockOf(old(State()), now)
      ensures State() == AfterClock(old(State()), now)
    {
      if !now.Number? || now.n < 0.0 || (lastNow != None && now.n < lastNow.value) {
        Invalidate();
        lastNow := None;
        return None;
      }
      lastNow := Some(now.n);
      return Some(now.n);
    }

    method UnknownAt(d: Direction, reason: Reason) returns (r: Endpoint)
      modifies this`stableSince
      ensures State() == Dropped(old(State()), d) && r == UnknownEndpoint(binding, d, reason)
    {
      stableSince := stableSince - {d};
      r := Endpoint(None, Unknown, SourceName(binding, d), Some(reason));
    }

    method Settled(d: Direction, reached: bool, now: real, seconds: real) returns (settled: bool)
      modifies this`stableSince
      ensures State() == Timed(old(State()), d, reached, now)
      ensures settled == (reached && now - stableSince[d] >= seconds)
    {
      if !reached {
        stableSince := stableSince - {d};
        return false;
      }
      if d !in stableSince {
        stableSince := stableSince[d := now];
      }
      return now - stableSince[d] >= seconds;
    }

    method Estimate(d: Direction, now: real) returns (refusal: Option<Endpoint>)
      modifies this`stableSince
      ensures var spec := EstimateRefusal(binding, old(State()), d, now);
              if spec.None? then refusal.None? && State() == old(State())
              else refusal == Some(spec.value.endpoint) && State() == spec.value.e
    {
      var travel := NumberWithin(Get(binding, Travel(d)), 1.0, 600.0);
      var margin := NumberWithin(Get(binding, TravelMargin), 0.0, 120.0);
      if travel == None || margin == None {
        var r := UnknownAt(d, InvalidConfiguration);
        return Some(r);
      }
      if command == None || command.value.direction != d {
        var r := UnknownAt(d, CommandRequired);
        return Some(r);
      }
      if now - command.value.startedAt < travel.value + margin.value {
        return Some(Endpoint(None, Unknown, SourceName(binding, d), Some(TravelInProgress)));
      }
      return None;
    }

    method EndpointFromContact(d: Direction, contact: Value) returns (r: Endpoint)
      modifies this`stableSince
      ensures Judged(State(), r) == JudgeContact(binding, old(State()), d, contact)
    {
      var reached := ContactReached(binding, d, contact);
      if !Truthy(Get(binding, Contact(d))) || !OnOrOff(Get(binding, ContactState(d))) {
        r := UnknownAt(d, InvalidConfiguration);
        return;
      }
      if reached == None {
        r := UnknownAt(d, FeedbackUnavailable);
        return;
      }
      if !reached.value {
        stableSince := stableSince - {d};
        return Endpoint(Some(false), Confirmed, "contact", None);
      }
      return Endpoint(Some(true), Confirmed, "contact", None);
    }

    method EndpointFromPosition(d: Direction, now: real, position: Value) returns (r: Endpoint)
      modifies this`stableSince
      ensures Judged(State(), r) == JudgePosition(binding, old(State()), d, now, position)
    {
      if !PositionConfigured(binding) {
        r := UnknownAt(d, InvalidConfiguration);
        return;
      }
      var value := NumberWithin(position, 0.0, 100.0);
      if value == None {
        r := UnknownAt(d, FeedbackUnavailable);
        return;
      }
      var reached := if d == Open then value.value >= Get(binding, Position(Open)).n
                     else value.value <= Get(binding, Position(Close)).n;
      var settled := Settled(d, reached, now, Get(binding, PositionSettle).n);
      if Is(binding, PositionKind, "estimated") {
        var estimate := Estimate(d, now);
        if estimate != None {
          return estimate.value;
        }
        if !reached {
          stableSince := stableSince - {d};
          return Endpoint(Some(false), Estimated, "position", Some(UnverifiedPosition));
        }
      } else if !reached {
        stableSince := stableSince - {d};
        return Endpoint(Some(false), Confirmed, "position", None);
      }
      if !settled {
        return Endpoint(None, Unknown, "position", Some(EndpointUnsettled));
      }
      if Is(binding, PositionKind, "measured") {
        return Endpoint(Some(true), Confirmed, "position", None);
      }
      return Endpoint(Some(true), Estimated, "position", Some(UnverifiedPosition));
    }

    method EndpointAt(d: Direction, now: real, position: Value, contact: Value) returns (r: Endpoint)
      modifies this`stableSince
      ensures Judged(State(), r) == Judge(binding, old(State()), d, now, position, contact)
    {
      if Is(binding, Source(d), "contact") {
        r := EndpointFromContact(d, contact);
        return;
      }
      if Is(binding, Source(d), "position") {
        r := EndpointFromPosition(d, now, position);
        return;
      }
      if Is(binding, Source(d), "timed") {
        var estimate := Estimate(d, now);
        if estimate != None {
          return estimate.value;
        }
        return Endpoint(Some(true), Estimated, "timed", Some(UnverifiedPosition));
      }
      r := UnknownAt(d, InvalidConfiguration);
    }

    method UnknownDoor(reason: Reason, coverAvailable: bool) returns (r: DoorState)
      modifies this`stableSince
      ensures State() == Dropped(Dropped(old(State()), Open), Close)
      ensures r == UnknownState(binding, reason, coverAvailable)
    {
      var atOpen := UnknownAt(Open, reason);
      var atClose := UnknownAt(Close, reason);
      r := DoorState(atOpen, atClose, coverAvailable, None, None, false);
    }

    method Observe(now: Value, reading: Reading) returns (r: DoorState)
      modifies this
      ensures Observed(State(), r) == Answer(binding, old(State()), now, reading)
    {
      var validNow := Clock(now);
      if validNow == None {
        r := UnknownDoor(InvalidClock, reading.coverAvailable);
        return;
      }
      if !reading.coverAvailable {
        Invalidate();
        r := UnknownDoor(FeedbackUnavailable, false);
        return;
      }
      if reading.restored {
        Invalidate();
        r := UnknownDoor(RestoredSnapshot, true);
        return;
      }
      if ContactsConflict(binding, reading) {
        Invalidate();
        r := UnknownDoor(EndpointConflict, true);
        return;
      }
      if command != None {
        var d := command.value.direction;
        if (Is(binding, Source(d), "position") && NumberWithin(reading.position, 0.0, 100.0) == None)
           || (Is(binding, Source(d), "contact") && ContactReached(binding, d, reading.Contact(d)) == None) {
          Invalidate();
        }
      }
      var atOpen := EndpointAt(Open, validNow.value, reading.position, reading.openContact);
      var atClose := EndpointAt(Close, validNow.value, reading.position, reading.closeContact);
      if atOpen.reached == Some(true) && atClose.reached == Some(true) {
        Invalidate();
        r := UnknownDoor(EndpointConflict, true);
        return;
      }
      r := DoorState(
        atOpen, atClose, true,
        if command != None then Some(command.value.direction) else None,
        if command != None then Some(command.value.operationId) else None,
        IsTrue(binding, AllowEstimated));
    }
  }
}
