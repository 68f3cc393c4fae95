/** What endpoint evidence means, over every history of inputs. */
module DoorHistory {
  import opened Common
  import opened GarageBinding
  import opened GarageConfig
  import opened DoorEvidence

  datatype Input =
    | Command(direction: Option<Direction>, now: Value, operationId: Option<int>)
    | Invalidate
    | Seen(now: Value, reading: Reading)

  function Next(b: Binding, e: Evidence, i: Input): Evidence
  {
    match i
    case Command(direction, now, id) => Noted(e, direction, now, id)
    case Invalidate => Invalidated(e)
    case Seen(now, reading) => Answer(b, e, now, reading).e
  }

  function Run(b: Binding, h: seq<Input>): Evidence
  {
    if h == [] then NOTHING else Next(b, Run(b, h[..|h| - 1]), h[|h| - 1])
  }

  lemma RunSnoc(b: Binding, h: seq<Input>, i: Input)
    ensures Run(b, h + [i]) == Next(b, Run(b, h), i)
  {
    assert (h + [i])[..|h|] == h;
  }

  /** The state in which input `k` of the history arrived. */
  function Before(b: Binding, h: seq<Input>, k: nat): Evidence
    requires k < |h|
  {
    Run(b, h[..k])
  }

  lemma BeforeSnoc(b: Binding, h: seq<Input>, i: Input)
    ensures forall k :: 0 <= k < |h| ==> Before(b, h + [i], k) == Before(b, h, k) && (h + [i])[k] == h[k]
    ensures Before(b, h + [i], |h|) == Run(b, h)
  {
    assert forall k :: 0 <= k <= |h| ==> (h + [i])[..k] == h[..k];
    assert h[..|h|] == h;
  }

  // -- facts about one observation --------------------------------------------

  /** The observation counts: sane clock, a live cover and current values. */
  predicate Admitted(b: Binding, e: Evidence, i: Input)
  {
    i.Seen? && ClockOf(e, i.now).Some? && i.reading.coverAvailable && !i.reading.restored
  }

  /** An admitted observation in which the two endpoints do not contradict each other. */
  predicate Clean(b: Binding, e: Evidence, i: Input)
  {
    && Admitted(b, e, i)
    && Answer(b, e, i.now, i.reading).state.open.reason != Some(EndpointConflict)
  }

  predicate MeasuredSource(b: Binding, d: Direction)
  {
    Is(b, Source(d), "position") && Is(b, PositionKind, "measured") && PositionConfigured(b)
  }

  /** The door is physically at the endpoint, as far as the selected source can tell. */
  predicate Physical(b: Binding, d: Direction, r: Reading)
  {
    if Is(b, Source(d), "contact") then ContactReached(b, d, r.Contact(d)) == Some(true)
    else MeasuredSource(b, d) && PastThreshold(b, d, r.position)
  }

  /** Confirmation is physical: it never comes from a timer, an estimate or a command. */
  lemma ConfirmedIsPhysical(b: Binding, e: Evidence, now: Value, r: Reading, d: Direction)
    requires Answer(b, e, now, r).state.At(d).ConfirmedReached()
    ensures Physical(b, d, r) && r.coverAvailable && !r.restored
  {
    if ClockOf(e, now).Some? {
      var e1 := AfterLoss(b, AfterClock(e, now), r);
      var atOpen := Judge(b, e1, Open, now.n, r.position, r.openContact);
      JudgedConfirmedIsPhysical(b, e1, Open, now.n, r);
      JudgedConfirmedIsPhysical(b, atOpen.e, Close, now.n, r);
    }
    hide Judge, ContactsConflict, SourceLost, Physical;
  }

  lemma JudgedConfirmedIsPhysical(b: Binding, e: Evidence, d: Direction, now: real, r: Reading)
    ensures Judge(b, e, d, now, r.position, r.Contact(d)).endpoint.ConfirmedReached() ==> Physical(b, d, r)
  {
    hide NumberWithin;
  }

  /** Everything the binding relies on can be read: what the household's devices report, without any judgement. */
  predicate Readable(b: Binding, r: Reading)
  {
    && r.coverAvailable && !r.restored
    && (forall d :: Is(b, Source(d), "contact") ==> r.Contact(d) == Text("on") || r.Contact(d) == Text("off"))
    && (forall d :: Is(b, Source(d), "position") ==> r.position.Number? && 0.0 <= r.position.n <= 100.0)
    && !(&& Is(b, Source(Open), "contact") && r.openContact == Get(b, ContactState(Open))
         && Is(b, Source(Close), "contact") && r.closeContact == Get(b, ContactState(Close)))
  }

  /** The reason of an endpoint does not keep the controller from acting. */
  predicate Unblocking(reason: Option<Reason>)
  {
    reason.None? || reason.value.EndpointUnsettled? || reason.value.UnverifiedPosition?
    || reason.value.CommandRequired? || reason.value.TravelInProgress?
  }

  lemma JudgedIsReadable(b: Binding, e: Evidence, d: Direction, now: real, r: Reading)
    requires Unblocking(Judge(b, e, d, now, r.position, r.Contact(d)).endpoint.reason)
    ensures Is(b, Source(d), "contact") ==> ContactReached(b, d, r.Contact(d)).Some?
    ensures Is(b, Source(d), "position") ==> NumberWithin(r.position, 0.0, 100.0).Some?
  {
    hide ContactReached, PastThreshold;
  }

  /** An observation that leaves the controller free to act was made of a door that can be read. */
  lemma UnblockedIsReadable(b: Binding, e: Evidence, now: Value, r: Reading)
    requires var state := Answer(b, e, now, r).state;
             state.coverAvailable && Unblocking(state.open.reason) && Unblocking(state.close.reason)
    ensures Readable(b, r)
  {
    assert ClockOf(e, now).Some? && !ContactsConflict(b, r) && r.coverAvailable && !r.restored;
    var e1 := AfterLoss(b, AfterClock(e, now), r);
    var atOpen := Judge(b, e1, Open, now.n, r.position, r.openContact);
    JudgedIsReadable(b, e1, Open, now.n, r);
    JudgedIsReadable(b, atOpen.e, Close, now.n, r);
    hide Judge, SourceLost;
    forall d
      ensures Is(b, Source(d), "contact") ==> ContactReached(b, d, r.Contact(d)).Some?
      ensures Is(b, Source(d), "position") ==> NumberWithin(r.position, 0.0, 100.0).Some?
    {
      assert d == Open || d == Close;
    }
  }

  /** No observation reports both endpoints reached. */
  lemma NeverBothEndpoints(b: Binding, e: Evidence, now: Value, r: Reading)
    ensures var s := Answer(b, e, now, r).state;
            !(s.open.reached == Some(true) && s.close.reached == Some(true))
  {
  }

  /** An enabled binding that passed validation is never reported as misconfigured, whatever happened before. */
  lemma ValidBindingIsUnderstood(b: Binding, supported: bool, e: Evidence, now: Value, r: Reading, d: Direction)
    requires IsEnabled(b) && Acceptable(b, supported)
    ensures Answer(b, e, now, r).state.At(d).reason != Some(InvalidConfiguration)
  {
    ValidSourcesAreConfigured(b, supported, Open);
    ValidSourcesAreConfigured(b, supported, Close);
    if ClockOf(e, now).Some? {
      var e1 := AfterLoss(b, AfterClock(e, now), r);
      var atOpen := Judge(b, e1, Open, now.n, r.position, r.openContact);
      ConfiguredIsUnderstood(b, e1, Open, now.n, r.position, r.openContact);
      ConfiguredIsUnderstood(b, atOpen.e, Close, now.n, r.position, r.closeContact);
    }
    hide Judge, ContactsConflict, SourceLost, Acceptable, SourceConfigured;
  }

  lemma ConfiguredIsUnderstood(
      b: Binding, e: Evidence, d: Direction, now: real, position: Value, contact: Value)
    requires SourceConfigured(b, d)
    ensures Judge(b, e, d, now, position, contact).endpoint.reason != Some(InvalidConfiguration)
  {
    hide NumberWithin, EstimateConfigured, FullTravel, PastThreshold, ContactReached;
  }

  predicate SourceConfigured(b: Binding, d: Direction)
  {
    && HasSource(b, d)
    && (Is(b, Source(d), "contact") ==> Truthy(Get(b, Contact(d))) && OnOrOff(Get(b, ContactState(d))))
    && (Is(b, Source(d), "position") ==> PositionConfigured(b))
    && (UsesEstimate(b, d) ==> EstimateConfigured(b, d))
  }

  lemma ValidTimings(b: Binding, supported: bool, k: Key)
    requires IsEnabled(b) && Acceptable(b, supported) && IsRequired(b, k)
    ensures IsNumeric(k) && InRange(b, k)
  {
    RequiredIsNumeric(b, k);
    assert !Present(b, supported, Missing(k)) && !Present(b, supported, InvalidNumber(k));
  }

  lemma ValidPosition(b: Binding, supported: bool, d: Direction)
    requires IsEnabled(b) && Acceptable(b, supported) && UsesPosition(b)
    ensures NumberWithin(Get(b, Position(d)), 0.0, 100.0).Some?
  {
    assert SUPPLIED_NUMBERS[10] == Position(Open) && SUPPLIED_NUMBERS[11] == Position(Close);
    assert !Present(b, supported, Missing(Position(d))) && !Present(b, supported, InvalidNumber(Position(d)));
  }

  lemma ValidPositions(b: Binding, supported: bool)
    requires IsEnabled(b) && Acceptable(b, supported) && UsesPosition(b)
    ensures PositionConfigured(b)
  {
    ValidTimings(b, supported, PositionSettle);
    ValidPosition(b, supported, Open);
    ValidPosition(b, supported, Close);
    assert !Present(b, supported, InvalidPositionKind) && !Present(b, supported, InvalidThresholds);
  }

  lemma ValidSourcesAreConfigured(b: Binding, supported: bool, d: Direction)
    requires IsEnabled(b) && Acceptable(b, supported)
    ensures SourceConfigured(b, d)
  {
    assert !Present(b, supported, Missing(Source(d))) && !Present(b, supported, InvalidChoice(Source(d)));
    assert !Present(b, supported, InvalidContact(d));
    if Is(b, Source(d), "position") {
      assert d == Open || d == Close;
      ValidPositions(b, supported);
    }
    if UsesEstimate(b, d) {
      ValidTimings(b, supported, Travel(d));
      ValidTimings(b, supported, TravelMargin);
    }
  }

  // -- what the past can matter for -------------------------------------------

  /** No command is being timed and the last clock value does not lie ahead. */
  predicate Quiet(e: Evidence, now: real)
  {
    e.command.None? && (e.lastNow.None? || e.lastNow.value <= now)
  }

  /** Quiet, and no endpoint has been stable since a time still to come: so is the evidence of any controller. */
  predicate Sound(e: Evidence, now: real)
  {
    Quiet(e, now) && forall d :: d in e.stableSince ==> e.stableSince[d] <= now
  }

  /** Nothing has to settle: a measured endpoint, if there is one, counts at once. */
  predicate Memoryless(b: Binding)
  {
    forall d :: MeasuredSource(b, d) ==> Get(b, PositionSettle).n <= 0.0
  }

  lemma PositionForgets(b: Binding, e: Evidence, e': Evidence, d: Direction, now: real, position: Value)
    requires Memoryless(b) && Is(b, Source(d), "position") && Sound(e, now) && Sound(e', now)
    ensures JudgePosition(b, e, d, now, position).endpoint == JudgePosition(b, e', d, now, position).endpoint
  {
    if Is(b, PositionKind, "measured") && PositionConfigured(b) {
      assert MeasuredSource(b, d);
    }
    hide NumberWithin, PastThreshold, Memoryless, MeasuredSource;
  }

  lemma JudgingForgets(b: Binding, e: Evidence, e': Evidence, d: Direction, now: real, position: Value, contact: Value)
    requires Memoryless(b) && Sound(e, now) && Sound(e', now)
    ensures Judge(b, e, d, now, position, contact).endpoint == Judge(b, e', d, now, position, contact).endpoint
  {
    if Is(b, Source(d), "position") {
      PositionForgets(b, e, e', d, now, position);
    }
    hide JudgePosition, Memoryless, ContactReached;
  }

  predicate SameSince(e: Evidence, e': Evidence, d: Direction)
  {
    Since(e, d) == Since(e', d)
  }

  lemma DroppedSince(e: Evidence, d: Direction)
    ensures Since(Dropped(e, d), d) == None && SameSince(e, Dropped(e, d), Opposite(d))
    ensures Dropped(e, d).command == e.command && Dropped(e, d).lastNow == e.lastNow
  {
  }

  lemma TimedSince(e: Evidence, d: Direction, reached: bool, now: real)
    ensures var e' := Timed(e, d, reached, now);
            && Since(e', d) == (if !reached then None else if Since(e, d).Some? then Since(e, d) else Some(now))
            && SameSince(e, e', Opposite(d)) && e'.command == e.command && e'.lastNow == e.lastNow
  {
  }

  /** From `e` to `e'`, only the timing of direction `d` has changed: kept, ended or started now. */
  predicate Touches(e: Evidence, e': Evidence, d: Direction, now: real)
  {
    && e'.command == e.command && e'.lastNow == e.lastNow
    && SameSince(e, e', Opposite(d))
    && (Since(e', d).Some? ==> Since(e', d).value == now || SameSince(e, e', d))
  }

  lemma PositionTouches(b: Binding, e: Evidence, d: Direction, now: real, position: Value)
    ensures Touches(e, JudgePosition(b, e, d, now, position).e, d, now)
  {
    hide NumberWithin, PastThreshold, PositionConfigured, Is, Timed, Dropped, Since, EstimateConfigured, FullTravel;
    var reached := PastThreshold(b, d, position);
    TimedSince(e, d, reached, now);
    DroppedSince(e, d);
    DroppedSince(Timed(e, d, reached, now), d);
  }

  lemma ContactTouches(b: Binding, e: Evidence, d: Direction, now: real, contact: Value)
    ensures Touches(e, JudgeContact(b, e, d, contact).e, d, now)
  {
    hide ContactReached;
    assert d != Opposite(d);
  }

  lemma JudgingTouches(b: Binding, e: Evidence, d: Direction, now: real, position: Value, contact: Value)
    ensures Touches(e, Judge(b, e, d, now, position, contact).e, d, now)
  {
    PositionTouches(b, e, d, now, position);
    ContactTouches(b, e, d, now, contact);
    assert d != Opposite(d);
    hide JudgePosition, JudgeContact, Is, Get, EstimateConfigured, FullTravel;
  }

  lemma TouchedStaysSound(e: Evidence, e': Evidence, d: Direction, now: real)
    requires Sound(e, now) && Touches(e, e', d, now)
    ensures Sound(e', now)
  {
    forall x | x in e'.stableSince
      ensures e'.stableSince[x] <= now
    {
      assert x == d || x == Opposite(d);
    }
  }

  lemma JudgingStaysSound(b: Binding, e: Evidence, d: Direction, now: real, position: Value, contact: Value)
    requires Sound(e, now)
    ensures Sound(Judge(b, e, d, now, position, contact).e, now)
  {
    JudgingTouches(b, e, d, now, position, contact);
    TouchedStaysSound(e, Judge(b, e, d, now, position, contact).e, d, now);
  }

  /** An observation leaves sound evidence sound. */
  lemma AnswerStaysSound(b: Binding, e: Evidence, now: NonNegative, r: Reading)
    requires Sound(e, now)
    ensures Sound(Answer(b, e, Number(now), r).e, now)
  {
    var e1 := AfterClock(e, Number(now));
    JudgingStaysSound(b, e1, Open, now, r.position, r.openContact);
    JudgingStaysSound(b, Judge(b, e1, Open, now, r.position, r.openContact).e, Close, now, r.position, r.closeContact);
    hide Judge;
  }

  lemma BothForget(b: Binding, e: Evidence, e': Evidence, now: real, r: Reading)
    requires Memoryless(b) && Sound(e, now) && Sound(e', now)
    ensures JudgeBoth(b, e, now, r).0 == JudgeBoth(b, e', now, r).0
    ensures JudgeBoth(b, e, now, r).1 == JudgeBoth(b, e', now, r).1
  {
    JudgingForgets(b, e, e', Open, now, r.position, r.openContact);
    JudgingStaysSound(b, e, Open, now, r.position, r.openContact);
    JudgingStaysSound(b, e', Open, now, r.position, r.openContact);
    var atOpen := Judge(b, e, Open, now, r.position, r.openContact);
    var atOpen' := Judge(b, e', Open, now, r.position, r.openContact);
    JudgingForgets(b, atOpen.e, atOpen'.e, Close, now, r.position, r.closeContact);
    hide Judge, Memoryless, Sound;
  }

  /** If nothing has to settle, an answer depends on the present reading alone. */
  lemma AnswerForgets(b: Binding, e: Evidence, e': Evidence, now: NonNegative, r: Reading)
    requires Memoryless(b) && Sound(e, now) && Sound(e', now)
    ensures var s, s' := Answer(b, e, Number(now), r).state, Answer(b, e', Number(now), r).state;
            s.open == s'.open && s.close == s'.close && s.coverAvailable == s'.coverAvailable
  {
    BothForget(b, AfterClock(e, Number(now)), AfterClock(e', Number(now)), now, r);
    hide JudgeBoth, Memoryless, ContactsConflict;
  }

  // -- looking again ----------------------------------------------------------

  /** Two results for one direction that differ at most in what they say about the other. */
  predicate SameResult(r: Judged, r': Judged, d: Direction)
  {
    r.endpoint == r'.endpoint && SameSince(r.e, r'.e, d)
  }

  lemma UnclearUses(b: Binding, e: Evidence, e': Evidence, d: Direction, reason: Reason)
    ensures SameResult(Unclear(b, e, d, reason), Unclear(b, e', d, reason), d)
    ensures Unclear(b, e, d, reason).e.command == e.command
  {
  }

  lemma RefusalUses(b: Binding, e: Evidence, e': Evidence, d: Direction, now: real)
    requires e'.command == e.command
    ensures var r, r' := EstimateRefusal(b, e, d, now), EstimateRefusal(b, e', d, now);
            && (r.Some? <==> r'.Some?)
            && (r.Some? ==> r.value.endpoint == r'.value.endpoint && r.value.e.command == e.command)
            && (r.Some? && SameSince(e, e', d) ==> SameResult(r.value, r'.value, d))
  {
    UnclearUses(b, e, e', d, InvalidConfiguration);
    UnclearUses(b, e, e', d, CommandRequired);
    hide EstimateConfigured, FullTravel, Unclear, Since, SourceName;
  }

  lemma PositionUses(b: Binding, e: Evidence, e': Evidence, d: Direction, now: real, position: Value)
    requires SameSince(e, e', d) && e'.command == e.command
    ensures SameResult(JudgePosition(b, e, d, now, position), JudgePosition(b, e', d, now, position), d)
  {
    var reached := PastThreshold(b, d, position);
    TimedSince(e, d, reached, now);
    TimedSince(e', d, reached, now);
    RefusalUses(b, Timed(e, d, reached, now), Timed(e', d, reached, now), d, now);
    UnclearUses(b, e, e', d, InvalidConfiguration);
    UnclearUses(b, e, e', d, FeedbackUnavailable);
    hide NumberWithin, PastThreshold, PositionConfigured, Is, Timed, EstimateRefusal, Unclear;
  }

  lemma ContactUses(b: Binding, e: Evidence, e': Evidence, d: Direction, contact: Value)
    requires SameSince(e, e', d)
    ensures SameResult(JudgeContact(b, e, d, contact), JudgeContact(b, e', d, contact), d)
  {
    DroppedSince(e, d);
    DroppedSince(e', d);
    hide ContactReached, Dropped;
  }

  lemma JudgingUses(b: Binding, e: Evidence, e': Evidence, d: Direction, now: real, position: Value, contact: Value)
    requires SameSince(e, e', d) && e'.command == e.command
    ensures SameResult(Judge(b, e, d, now, position, contact), Judge(b, e', d, now, position, contact), d)
  {
    PositionUses(b, e, e', d, now, position);
    RefusalUses(b, e, e', d, now);
    ContactUses(b, e, e', d, contact);
    UnclearUses(b, e, e', d, InvalidConfiguration);
    hide JudgePosition, JudgeContact, Is, EstimateRefusal, Unclear, Since;
  }

  lemma PositionTwice(b: Binding, e: Evidence, d: Direction, now: real, position: Value)
    ensures var first := JudgePosition(b, e, d, now, position);
            JudgePosition(b, first.e, d, now, position).endpoint == first.endpoint
  {
    var reached := PastThreshold(b, d, position);
    var e1 := JudgePosition(b, e, d, now, position).e;
    TimedSince(e, d, reached, now);
    TimedSince(e1, d, reached, now);
    RefusalUses(b, Timed(e, d, reached, now), Timed(e1, d, reached, now), d, now);
    DroppedSince(e, d);
    hide NumberWithin, PastThreshold, PositionConfigured, Is, Timed, EstimateRefusal, Dropped;
  }

  /** Judging an endpoint again at the same moment gives the same result. */
  lemma JudgingTwice(b: Binding, e: Evidence, d: Direction, now: real, position: Value, contact: Value)
    ensures var first := Judge(b, e, d, now, position, contact);
            Judge(b, first.e, d, now, position, contact).endpoint == first.endpoint
  {
    PositionTwice(b, e, d, now, position);
    hide JudgePosition, ContactReached, Is, Truthy;
  }

  lemma BothTwice(b: Binding, e: Evidence, now: real, r: Reading)
    ensures var first := JudgeBoth(b, e, now, r);
            var second := JudgeBoth(b, first.2, now, r);
            first.0 == second.0 && first.1 == second.1 && first.2.command == e.command
  {
    var atOpen := Judge(b, e, Open, now, r.position, r.openContact);
    var atClose := Judge(b, atOpen.e, Close, now, r.position, r.closeContact);
    var again := Judge(b, atClose.e, Open, now, r.position, r.openContact);
    JudgingTouches(b, e, Open, now, r.position, r.openContact);
    JudgingTouches(b, atOpen.e, Close, now, r.position, r.closeContact);
    JudgingTouches(b, atClose.e, Open, now, r.position, r.openContact);
    JudgingTwice(b, e, Open, now, r.position, r.openContact);
    JudgingTwice(b, atOpen.e, Close, now, r.position, r.closeContact);
    JudgingUses(b, atOpen.e, atClose.e, Open, now, r.position, r.openContact);
    JudgingUses(b, atClose.e, again.e, Close, now, r.position, r.closeContact);
    hide Judge;
  }

  /** What an observation answers when nothing rejects it. */
  lemma JudgedAnswer(b: Binding, e: Evidence, now: NonNegative, r: Reading)
    requires (e.lastNow.None? || e.lastNow.value <= now) && r.coverAvailable && !r.restored && !ContactsConflict(b, r)
    requires var both := JudgeBoth(b, AfterLoss(b, AfterClock(e, Number(now)), r), now, r);
             !(both.0.reached == Some(true) && both.1.reached == Some(true))
    ensures var both := JudgeBoth(b, AfterLoss(b, AfterClock(e, Number(now)), r), now, r);
            var o := Answer(b, e, Number(now), r);
            o.state.open == both.0 && o.state.close == both.1 && o.state.coverAvailable && o.e == both.2
  {
    hide JudgeBoth, ContactsConflict, SourceLost;
  }

  lemma CleanIsJudged(b: Binding, e: Evidence, now: NonNegative, r: Reading)
    requires Clean(b, e, Input.Seen(Number(now), r))
    ensures (e.lastNow.None? || e.lastNow.value <= now) && r.coverAvailable && !r.restored && !ContactsConflict(b, r)
    ensures var both := JudgeBoth(b, AfterLoss(b, AfterClock(e, Number(now)), r), now, r);
            !(both.0.reached == Some(true) && both.1.reached == Some(true))
  {
    hide JudgeBoth, SourceLost;
  }

  /** A second look at the same moment sees what the first one saw, if that was clean. */
  lemma SecondLookSeesTheSame(b: Binding, e: Evidence, now: NonNegative, r: Reading)
    requires Clean(b, e, Input.Seen(Number(now), r))
    ensures var first := Answer(b, e, Number(now), r);
            var second := Answer(b, first.e, Number(now), r);
            && second.state.open == first.state.open && second.state.close == first.state.close
            && second.state.coverAvailable == first.state.coverAvailable
  {
    var e1 := AfterLoss(b, AfterClock(e, Number(now)), r);
    var both := JudgeBoth(b, e1, now, r);
    CleanIsJudged(b, e, now, r);
    JudgedAnswer(b, e, now, r);
    BothTwice(b, e1, now, r);
    BothKeepClock(b, e1, now, r);
    assert AfterClock(both.2, Number(now)) == both.2;
    assert AfterLoss(b, both.2, r) == both.2;
    JudgedAnswer(b, both.2, now, r);
    hide JudgeBoth, ContactsConflict, SourceLost, Clean, Answer;
  }

  lemma BothKeepClock(b: Binding, e: Evidence, now: real, r: Reading)
    ensures JudgeBoth(b, e, now, r).2.lastNow == e.lastNow
  {
    JudgingTouches(b, e, Open, now, r.position, r.openContact);
    JudgingTouches(b, Judge(b, e, Open, now, r.position, r.openContact).e, Close, now, r.position, r.closeContact);
    hide Judge;
  }

  /** An observation that blocks nothing was clean. */
  lemma UnblockedIsClean(b: Binding, e: Evidence, now: real, r: Reading)
    requires var state := Answer(b, e, Number(now), r).state;
             && state.coverAvailable
             && state.open.reason != Some(RestoredSnapshot) && state.open.reason != Some(EndpointConflict)
             && state.open.reason != Some(InvalidClock)
    ensures Clean(b, e, Input.Seen(Number(now), r))
  {
    hide JudgeBoth, SourceLost, ContactsConflict;
  }

  // -- what an observation says -----------------------------------------------

  /** Both endpoints when an observation is rejected, and why; the reasons in the order in which they are asked. */
  lemma RejectionSays(b: Binding, e: Evidence, now: Value, r: Reading)
    ensures var state := Answer(b, e, now, r).state;
            var sane := now.Number? && now.n >= 0.0 && (e.lastNow.None? || now.n >= e.lastNow.value);
            && (!sane ==> state == UnknownState(b, InvalidClock, r.coverAvailable))
            && (sane && !r.coverAvailable ==> state == UnknownState(b, FeedbackUnavailable, false))
            && (sane && r.coverAvailable && r.restored ==> state == UnknownState(b, RestoredSnapshot, true))
            && (sane && r.coverAvailable && !r.restored && !Clean(b, e, Input.Seen(now, r)) ==>
                  state == UnknownState(b, EndpointConflict, true))
  {
    if ClockOf(e, now).Some? && r.coverAvailable && !r.restored && !ContactsConflict(b, r) {
      var e1 := AfterLoss(b, AfterClock(e, now), r);
      JudgeNeverNamesConflict(b, e1, Open, now.n, r.position, r.openContact);
    }
    hide Judge, ContactsConflict, SourceLost;
  }

  /** A sane clock value is remembered; after any other the clock starts afresh and accepts whatever comes next. */
  lemma ClockStartsAfresh(b: Binding, e: Evidence, now: Value, r: Reading, next: NonNegative)
    ensures var e' := Answer(b, e, now, r).e;
            var sane := now.Number? && now.n >= 0.0 && (e.lastNow.None? || now.n >= e.lastNow.value);
            ClockOf(e', Number(next)).Some? <==> (sane ==> next >= now.n)
    ensures var e' := Noted(e, Some(Open), now, Some(0));
            var sane := now.Number? && now.n >= 0.0 && (e.lastNow.None? || now.n >= e.lastNow.value);
            ClockOf(e', Number(next)).Some? <==> (sane ==> next >= now.n)
  {
    if ClockOf(e, now).Some? {
      BothKeepClock(b, AfterLoss(b, AfterClock(e, now), r), now.n, r);
    }
    hide JudgeBoth, ContactsConflict, SourceLost;
  }

  /** A command outlasts an observation exactly when that is clean and its own source can be read in it. */
  lemma CommandLastsExactly(b: Binding, e: Evidence, now: NonNegative, r: Reading)
    requires e.command.Some?
    requires var d := e.command.value.direction;
             Is(b, Source(d), "contact") ==>
               && Get(b, Contact(d)).Text? && BINARY_SENSOR + "." <= Get(b, Contact(d)).s
               && OnOrOff(Get(b, ContactState(d)))
    ensures var i, d := Input.Seen(Number(now), r), e.command.value.direction;
            Next(b, e, i).command == (
              if && Clean(b, e, i)
                 && (Is(b, Source(d), "contact") ==> r.Contact(d) == Text("on") || r.Contact(d) == Text("off"))
                 && (Is(b, Source(d), "position") ==> r.position.Number? && 0.0 <= r.position.n <= 100.0)
              then e.command else None)
  {
    CommandStep(b, e, Input.Seen(Number(now), r));
    hide Clean, Next;
  }

  /** One direction of a clean observation is what judging that direction alone gives. */
  lemma CleanSays(b: Binding, e: Evidence, now: NonNegative, r: Reading, d: Direction)
    requires Clean(b, e, Input.Seen(Number(now), r))
    ensures var e1 := AfterLoss(b, AfterClock(e, Number(now)), r);
            && Answer(b, e, Number(now), r).state.At(d) == Judge(b, e1, d, now, r.position, r.Contact(d)).endpoint
            && Since(Answer(b, e, Number(now), r).e, d) == Since(Judge(b, e1, d, now, r.position, r.Contact(d)).e, d)
  {
    var e1 := AfterLoss(b, AfterClock(e, Number(now)), r);
    CleanIsJudged(b, e, now, r);
    JudgedAnswer(b, e, now, r);
    BothAsOne(b, e1, d, now, r);
    hide Judge, JudgeBoth, Clean, SourceLost, ContactsConflict, Answer;
  }

  /** A contact: reached exactly when it has the configured value; confirmed either way; unknown without a value. */
  lemma ContactSays(b: Binding, e: Evidence, now: NonNegative, r: Reading, d: Direction)
    requires Clean(b, e, Input.Seen(Number(now), r)) && Is(b, Source(d), "contact")
    requires Get(b, Contact(d)).Text? && BINARY_SENSOR + "." <= Get(b, Contact(d)).s && OnOrOff(Get(b, ContactState(d)))
    ensures Answer(b, e, Number(now), r).state.At(d)
            == if r.Contact(d) == Text("on") || r.Contact(d) == Text("off") then
                 Endpoint(Some(r.Contact(d) == Get(b, ContactState(d))), Confirmed, "contact", None)
               else Endpoint(None, Unknown, "contact", Some(FeedbackUnavailable))
  {
    CleanSays(b, e, now, r, d);
    hide Answer, Clean, SourceLost;
  }

  /** A measured position: not reached outside the threshold, unknown while it settles or without a number. */
  lemma MeasuredSays(b: Binding, e: Evidence, now: NonNegative, r: Reading, d: Direction)
    requires Clean(b, e, Input.Seen(Number(now), r)) && MeasuredSource(b, d)
    ensures var o := Answer(b, e, Number(now), r);
            var readable := r.position.Number? && 0.0 <= r.position.n <= 100.0;
            var past := readable && if d == Open then r.position.n >= Get(b, Position(Open)).n
                                    else r.position.n <= Get(b, Position(Close)).n;
            o.state.At(d)
            == if !readable then Endpoint(None, Unknown, "position", Some(FeedbackUnavailable))
               else if !past then Endpoint(Some(false), Confirmed, "position", None)
               else if Since(o.e, d).Some? && now - Since(o.e, d).value >= Get(b, PositionSettle).n then
                 Endpoint(Some(true), Confirmed, "position", None)
               else Endpoint(None, Unknown, "position", Some(EndpointUnsettled))
  {
    assert !Is(b, Source(d), "contact") && !Is(b, PositionKind, "estimated");
    CleanSays(b, e, now, r, d);
    hide Answer, Clean, SourceLost;
  }

  /** An estimate: refused without a command in its direction or before its full travel, and never confirmed. */
  lemma EstimateSays(b: Binding, e: Evidence, now: NonNegative, r: Reading, d: Direction)
    requires Clean(b, e, Input.Seen(Number(now), r)) && Is(b, Source(d), "timed") && EstimateConfigured(b, d)
    ensures var o := Answer(b, e, Number(now), r);
            o.state.At(d)
            == if o.e.command.None? || o.e.command.value.direction != d then
                 Endpoint(None, Unknown, "timed", Some(CommandRequired))
               else if now < o.e.command.value.startedAt + Get(b, Travel(d)).n + Get(b, TravelMargin).n then
                 Endpoint(None, Unknown, "timed", Some(TravelInProgress))
               else Endpoint(Some(true), Estimated, "timed", Some(UnverifiedPosition))
  {
    CleanSays(b, e, now, r, d);
    JudgingKeepsCommand(b, AfterLoss(b, AfterClock(e, Number(now)), r), now, r);
    CleanAnswer(b, e, Input.Seen(Number(now), r));
    assert !Is(b, Source(d), "contact") && !Is(b, Source(d), "position");
    hide Answer, Clean, SourceLost, JudgeBoth;
  }

  /** A clean observation names the command in force and whether estimates are accepted; a rejected one names none. */
  lemma CommandSays(b: Binding, e: Evidence, now: NonNegative, r: Reading)
    ensures var o := Answer(b, e, Number(now), r);
            var c := o.e.command;
            && o.state.direction == (if c.Some? then Some(c.value.direction) else None)
            && o.state.operationId == (if c.Some? then Some(c.value.operationId) else None)
            && (Clean(b, e, Input.Seen(Number(now), r)) ==>
                  (o.state.allowEstimated <==> Get(b, AllowEstimated) == Flag(true)))
  {
    if ClockOf(e, Number(now)).Some? && r.coverAvailable && !r.restored && !ContactsConflict(b, r) {
      var e1 := AfterLoss(b, AfterClock(e, Number(now)), r);
      JudgeNeverNamesConflict(b, e1, Open, now, r.position, r.openContact);
    }
    hide Judge, ContactsConflict, SourceLost;
  }

  // -- a measured position ----------------------------------------------------

  /** Observation `k` reads the endpoint and counts. */
  predicate Reads(b: Binding, h: seq<Input>, k: nat, d: Direction)
    requires k < |h|
  {
    Clean(b, Before(b, h, k), h[k]) && PastThreshold(b, d, h[k].reading.position)
  }

  /**
   From input `j` to the end there is nothing but observations that read the endpoint: no command,
   no invalidation, no lost source of a running command, no clock step back and no conflict.
   */
  ghost predicate Unbroken(b: Binding, h: seq<Input>, j: nat, d: Direction)
  {
    && j < |h|
    && (forall k :: j <= k < |h| ==> Reads(b, h, k, d))
    && (forall k :: j < k < |h| ==> h[k].Seen? && !SourceLost(b, Before(b, h, k), h[k].reading))
  }

  ghost predicate Tracks(b: Binding, h: seq<Input>, d: Direction)
  {
    var e := Run(b, h);
    && (d in e.stableSince ==>
          exists j: nat :: Unbroken(b, h, j, d) && h[j].Seen? && h[j].now == Number(e.stableSince[d]))
    && (forall j: nat :: Unbroken(b, h, j, d) ==>
          && d in e.stableSince && e.lastNow.Some? && h[j].Seen? && h[j].now.Number?
          && e.stableSince[d] <= h[j].now.n <= e.lastNow.value)
  }

  lemma JudgingTheOther(b: Binding, e: Evidence, d: Direction, now: real, position: Value, contact: Value)
    ensures var e' := Judge(b, e, Opposite(d), now, position, contact).e;
            SameSince(e, e', d) && e'.command == e.command && e'.lastNow == e.lastNow
  {
    JudgingTouches(b, e, Opposite(d), now, position, contact);
    assert Opposite(Opposite(d)) == d;
    hide Judge;
  }

  lemma JudgingMeasured(b: Binding, e: Evidence, d: Direction, now: real, position: Value, contact: Value)
    requires MeasuredSource(b, d)
    ensures var e' := Judge(b, e, d, now, position, contact).e;
            && e'.command == e.command && e'.lastNow == e.lastNow
            && if PastThreshold(b, d, position) then
                 d in e'.stableSince && e'.stableSince[d] == if d in e.stableSince then e.stableSince[d] else now
               else d !in e'.stableSince
  {
  }

  /** The reading of one direction as it comes out of judging both. */
  lemma JudgingBoth(b: Binding, e: Evidence, d: Direction, now: real, r: Reading)
    requires MeasuredSource(b, d)
    ensures var e' := JudgeBoth(b, e, now, r).2;
            && e'.command == e.command && e'.lastNow == e.lastNow
            && if PastThreshold(b, d, r.position) then
                 d in e'.stableSince && e'.stableSince[d] == if d in e.stableSince then e.stableSince[d] else now
               else d !in e'.stableSince
  {
    var atOpen := Judge(b, e, Open, now, r.position, r.openContact);
    if d == Open {
      JudgingMeasured(b, e, d, now, r.position, r.openContact);
      JudgingTheOther(b, atOpen.e, d, now, r.position, r.closeContact);
    } else {
      JudgingTheOther(b, e, d, now, r.position, r.openContact);
      JudgingMeasured(b, atOpen.e, d, now, r.position, r.closeContact);
    }
  }

  function AfterLoss(b: Binding, e: Evidence, r: Reading): Evidence
  {
    if SourceLost(b, e, r) then Invalidated(e) else e
  }

  lemma CleanAnswer(b: Binding, e: Evidence, i: Input)
    requires Clean(b, e, i)
    ensures var e1 := AfterLoss(b, e.(lastNow := Some(i.now.n)), i.reading);
            var (atOpen, atClose, e3) := JudgeBoth(b, e1, i.now.n, i.reading);
            && Next(b, e, i) == e3
            && Answer(b, e, i.now, i.reading).state.open == atOpen
            && Answer(b, e, i.now, i.reading).state.close == atClose
  {
  }

  lemma UncleanAnswer(b: Binding, e: Evidence, i: Input)
    requires i.Seen? && !Clean(b, e, i)
    ensures Next(b, e, i).command.None? && Next(b, e, i).stableSince == map[]
    ensures Answer(b, e, i.now, i.reading).state.open.reached.None?
    ensures Answer(b, e, i.now, i.reading).state.close.reached.None?
  {
    if Admitted(b, e, i) {
      var e1 := AfterLoss(b, e.(lastNow := Some(i.now.n)), i.reading);
      JudgeNeverNamesConflict(b, e1, Open, i.now.n, i.reading.position, i.reading.openContact);
    }
  }

  lemma JudgeNeverNamesConflict(b: Binding, e: Evidence, d: Direction, now: real, position: Value, contact: Value)
    ensures Judge(b, e, d, now, position, contact).endpoint.reason != Some(EndpointConflict)
  {
  }

  /** One input keeps, starts or ends the stable reading. */
  lemma MeasuredStep(b: Binding, e: Evidence, i: Input, d: Direction)
    requires MeasuredSource(b, d)
    ensures var e' := Next(b, e, i);
            if Clean(b, e, i) && PastThreshold(b, d, i.reading.position) then
              && e'.lastNow == Some(i.now.n)
              && d in e'.stableSince
              && e'.stableSince[d] ==
                 if d in e.stableSince && !SourceLost(b, e, i.reading) then e.stableSince[d] else i.now.n
            else d !in e'.stableSince
  {
    if Clean(b, e, i) {
      CleanAnswer(b, e, i);
      JudgingBoth(b, AfterLoss(b, e.(lastNow := Some(i.now.n)), i.reading), d, i.now.n, i.reading);
    } else if i.Seen? {
      UncleanAnswer(b, e, i);
    }
  }

  lemma UnbrokenShrinks(b: Binding, h: seq<Input>, i: Input, j: nat, d: Direction)
    requires Unbroken(b, h + [i], j, d) && j < |h|
    ensures Unbroken(b, h, j, d)
    ensures Clean(b, Run(b, h), i) && PastThreshold(b, d, i.reading.position)
    ensures !SourceLost(b, Run(b, h), i.reading)
  {
    BeforeSnoc(b, h, i);
    var g := h + [i];
    assert Reads(b, g, |h|, d);
    forall k | j <= k < |h|
      ensures Reads(b, h, k, d) && (j < k ==> h[k].Seen? && !SourceLost(b, Before(b, h, k), h[k].reading))
    {
      assert Reads(b, g, k, d);
      assert g[k] == h[k] && Before(b, g, k) == Before(b, h, k);
    }
  }

  lemma UnbrokenExtends(b: Binding, h: seq<Input>, i: Input, j: nat, d: Direction)
    requires Unbroken(b, h, j, d)
    requires Clean(b, Run(b, h), i) && PastThreshold(b, d, i.reading.position)
    requires !SourceLost(b, Run(b, h), i.reading)
    ensures Unbroken(b, h + [i], j, d)
  {
    BeforeSnoc(b, h, i);
    var g := h + [i];
    forall k | j <= k < |g|
      ensures Reads(b, g, k, d) && (j < k ==> g[k].Seen? && !SourceLost(b, Before(b, g, k), g[k].reading))
    {
      assert k < |h| ==> g[k] == h[k] && Before(b, g, k) == Before(b, h, k) && Reads(b, h, k, d);
    }
  }

  lemma UnbrokenStarts(b: Binding, h: seq<Input>, i: Input, d: Direction)
    requires Clean(b, Run(b, h), i) && PastThreshold(b, d, i.reading.position)
    ensures Unbroken(b, h + [i], |h|, d)
  {
    BeforeSnoc(b, h, i);
  }

  lemma TracksStep(b: Binding, h: seq<Input>, i: Input, d: Direction)
    requires MeasuredSource(b, d) && Tracks(b, h, d)
    ensures Tracks(b, h + [i], d)
  {
    RunSnoc(b, h, i);
    BeforeSnoc(b, h, i);
    var e, g := Run(b, h), h + [i];
    MeasuredStep(b, e, i, d);
    if d in Run(b, g).stableSince {
      if d in e.stableSince && !SourceLost(b, e, i.reading) {
        var j: nat :| Unbroken(b, h, j, d) && h[j].Seen? && h[j].now == Number(e.stableSince[d]);
        UnbrokenExtends(b, h, i, j, d);
      } else {
        UnbrokenStarts(b, h, i, d);
      }
    }
    forall j: nat | Unbroken(b, g, j, d)
      ensures d in Run(b, g).stableSince && Run(b, g).lastNow.Some? && g[j].Seen? && g[j].now.Number?
      ensures Run(b, g).stableSince[d] <= g[j].now.n <= Run(b, g).lastNow.value
    {
      if j < |h| {
        UnbrokenShrinks(b, h, i, j, d);
      } else {
        assert Reads(b, g, j, d);
        if d in e.stableSince && !SourceLost(b, e, i.reading) {
          var j': nat :| Unbroken(b, h, j', d) && h[j'].Seen? && h[j'].now == Number(e.stableSince[d]);
        }
      }
    }
  }

  lemma NothingTracked(b: Binding, d: Direction)
    ensures Tracks(b, [], d)
  {
  }

  lemma {:induction false} TracksAlways(b: Binding, h: seq<Input>, d: Direction)
    requires MeasuredSource(b, d)
    ensures Tracks(b, h, d)
  {
    if h == [] {
      NothingTracked(b, d);
    } else {
      hide Tracks, MeasuredSource;
      var g, i := h[..|h| - 1], h[|h| - 1];
      assert h == g + [i];
      TracksAlways(b, g, d);
      TracksStep(b, g, i, d);
    }
  }

  /** The observation itself decides by how long its reading has been stable. */
  lemma MeasuredAnswer(b: Binding, e: Evidence, i: Input, d: Direction)
    requires MeasuredSource(b, d) && i.Seen?
    ensures var e' := Next(b, e, i);
            Answer(b, e, i.now, i.reading).state.At(d).ConfirmedReached()
            <==> && Clean(b, e, i)
                 && d in e'.stableSince
                 && i.now.n - e'.stableSince[d] >= Get(b, PositionSettle).n
  {
    MeasuredStep(b, e, i, d);
    if Clean(b, e, i) {
      CleanAnswer(b, e, i);
      var e1 := AfterLoss(b, e.(lastNow := Some(i.now.n)), i.reading);
      JudgingBoth(b, e1, d, i.now.n, i.reading);
      var atOpen := Judge(b, e1, Open, i.now.n, i.reading.position, i.reading.openContact);
      JudgingTheOther(b, e1, Close, i.now.n, i.reading.position, i.reading.openContact);
      JudgingTheOther(b, atOpen.e, Open, i.now.n, i.reading.position, i.reading.closeContact);
    } else {
      UncleanAnswer(b, e, i);
    }
  }

  /**
   A measured position confirms an endpoint exactly when an unbroken run of observations ending with
   this one all read the endpoint and spans at least the settle time.
   */
  lemma MeasuredConfirmedExactly(b: Binding, h: seq<Input>, i: Input, d: Direction)
    requires MeasuredSource(b, d) && i.Seen?
    ensures Answer(b, Run(b, h), i.now, i.reading).state.At(d).ConfirmedReached()
            <==> exists j: nat ::
                   && Unbroken(b, h + [i], j, d)
                   && (h + [i])[j].Seen? && i.now.Number? && (h + [i])[j].now.Number?
                   && i.now.n - (h + [i])[j].now.n >= Get(b, PositionSettle).n
  {
    var g := h + [i];
    TracksAlways(b, g, d);
    RunSnoc(b, h, i);
    BeforeSnoc(b, h, i);
    MeasuredAnswer(b, Run(b, h), i, d);
    if Answer(b, Run(b, h), i.now, i.reading).state.At(d).ConfirmedReached() {
      var j: nat :| Unbroken(b, g, j, d) && g[j].Seen? && g[j].now == Number(Run(b, g).stableSince[d]);
    } else {
      forall j: nat | Unbroken(b, g, j, d) && g[j].Seen? && i.now.Number? && g[j].now.Number?
        ensures i.now.n - g[j].now.n < Get(b, PositionSettle).n
      {
        assert Reads(b, g, |h|, d);
      }
    }
  }

  // -- estimates --------------------------------------------------------------

  /** Input `c` is a command in direction `d` that everything since has left alive. */
  ghost predicate Alive(b: Binding, h: seq<Input>, c: nat, d: Direction)
  {
    && c < |h|
    && h[c].Command? && h[c].direction == Some(d) && h[c].operationId.Some?
    && ClockOf(Before(b, h, c), h[c].now).Some?
    && forall k :: c < k < |h| ==>
         h[k].Seen? && Clean(b, Before(b, h, k), h[k]) && !SourceLost(b, Before(b, h, k), h[k].reading)
  }

  ghost predicate Commands(b: Binding, h: seq<Input>)
  {
    var e := Run(b, h);
    && (e.command.Some? ==>
          exists c: nat ::
            Alive(b, h, c, e.command.value.direction) && h[c].now == Number(e.command.value.startedAt))
    && (forall c: nat, d :: Alive(b, h, c, d) ==>
          e.command.Some? && e.command.value.direction == d && h[c].now == Number(e.command.value.startedAt))
  }

  lemma JudgingKeepsCommand(b: Binding, e: Evidence, now: real, r: Reading)
    ensures JudgeBoth(b, e, now, r).2.command == e.command
  {
    var atOpen := Judge(b, e, Open, now, r.position, r.openContact);
    JudgingTheOther(b, e, Close, now, r.position, r.openContact);
    JudgingTheOther(b, atOpen.e, Open, now, r.position, r.closeContact);
  }

  /** A command survives only clean observations that can still see its source. */
  lemma CommandStep(b: Binding, e: Evidence, i: Input)
    ensures var e' := Next(b, e, i);
            match i
            case Command(d, now, id) =>
              if ClockOf(e, now).Some? && d.Some? && id.Some? then
                e'.command == Some(DoorEvidence.Command(d.value, now.n, id.value))
              else e'.command.None?
            case Invalidate => e'.command.None?
            case Seen(now, r) => e'.command == if Clean(b, e, i) && !SourceLost(b, e, r) then e.command else None
  {
    if i.Seen? {
      if Clean(b, e, i) {
        CleanAnswer(b, e, i);
        JudgingKeepsCommand(b, AfterLoss(b, e.(lastNow := Some(i.now.n)), i.reading), i.now.n, i.reading);
      } else {
        UncleanAnswer(b, e, i);
      }
    }
  }

  lemma AliveShrinks(b: Binding, h: seq<Input>, i: Input, c: nat, d: Direction)
    requires Alive(b, h + [i], c, d) && c < |h|
    ensures Alive(b, h, c, d)
    ensures i.Seen? && Clean(b, Run(b, h), i) && !SourceLost(b, Run(b, h), i.reading)
  {
    BeforeSnoc(b, h, i);
    var g := h + [i];
    assert g[|h|] == i;
    forall k | c <= k < |h|
      ensures g[k] == h[k] && Before(b, g, k) == Before(b, h, k)
    {
    }
  }

  lemma AliveExtends(b: Binding, h: seq<Input>, i: Input, c: nat, d: Direction)
    requires Alive(b, h, c, d)
    requires i.Seen? && Clean(b, Run(b, h), i) && !SourceLost(b, Run(b, h), i.reading)
    ensures Alive(b, h + [i], c, d)
  {
    BeforeSnoc(b, h, i);
  }

  lemma AliveStarts(b: Binding, h: seq<Input>, i: Input, d: Direction)
    requires i.Command? && i.direction == Some(d) && i.operationId.Some? && ClockOf(Run(b, h), i.now).Some?
    ensures Alive(b, h + [i], |h|, d)
  {
    BeforeSnoc(b, h, i);
  }

  lemma AliveLast(b: Binding, h: seq<Input>, i: Input, d: Direction)
    requires Alive(b, h + [i], |h|, d)
    ensures i.Command? && i.direction == Some(d) && i.operationId.Some? && ClockOf(Run(b, h), i.now).Some?
  {
    BeforeSnoc(b, h, i);
    assert (h + [i])[|h|] == i;
  }

  lemma CommandsStep(b: Binding, h: seq<Input>, i: Input)
    requires Commands(b, h)
    ensures Commands(b, h + [i])
  {
    hide Clean, SourceLost, Next;
    RunSnoc(b, h, i);
    var e, g := Run(b, h), h + [i];
    CommandStep(b, e, i);
    var e' := Run(b, g);
    if e'.command.Some? {
      if i.Seen? {
        var c: nat :| Alive(b, h, c, e.command.value.direction) && h[c].now == Number(e.command.value.startedAt);
        AliveExtends(b, h, i, c, e.command.value.direction);
      } else {
        AliveStarts(b, h, i, e'.command.value.direction);
      }
    }
    forall c: nat, d | Alive(b, g, c, d)
      ensures c < |g| && g[c].Command?
      ensures Commanded(e', d) && g[c].now == Number(e'.command.value.startedAt)
    {
      if c < |h| {
        AliveShrinks(b, h, i, c, d);
      } else {
        AliveLast(b, h, i, d);
      }
    }
  }

  lemma {:induction false} CommandsAlways(b: Binding, h: seq<Input>)
    ensures Commands(b, h)
  {
    if h != [] {
      var g, i := h[..|h| - 1], h[|h| - 1];
      assert h == g + [i];
      CommandsAlways(b, g);
      CommandsStep(b, g, i);
    }
  }

  lemma JudgingAnEstimate(b: Binding, e: Evidence, d: Direction, now: real, position: Value, contact: Value)
    requires UsesEstimate(b, d) && Judge(b, e, d, now, position, contact).endpoint.reached == Some(true)
    ensures EstimateConfigured(b, d)
    ensures e.command.Some? && e.command.value.direction == d && now - e.command.value.startedAt >= FullTravel(b, d)
    ensures Judge(b, e, d, now, position, contact).endpoint.quality == Estimated
  {
  }

  /** An estimated endpoint is reached only on the strength of a live command that has had its full travel. */
  lemma EstimateNeedsCommand(b: Binding, e: Evidence, i: Input, d: Direction)
    requires i.Seen? && UsesEstimate(b, d)
    requires Answer(b, e, i.now, i.reading).state.At(d).reached == Some(true)
    ensures var e' := Next(b, e, i);
            && EstimateConfigured(b, d)
            && e'.command.Some? && e'.command.value.direction == d
            && i.now.n - e'.command.value.startedAt >= FullTravel(b, d)
            && Answer(b, e, i.now, i.reading).state.At(d).quality == Estimated
  {
    if Clean(b, e, i) {
      CleanAnswer(b, e, i);
      var e1 := AfterLoss(b, e.(lastNow := Some(i.now.n)), i.reading);
      var atOpen := Judge(b, e1, Open, i.now.n, i.reading.position, i.reading.openContact);
      JudgingKeepsCommand(b, e1, i.now.n, i.reading);
      JudgingTheOther(b, e1, Close, i.now.n, i.reading.position, i.reading.openContact);
      if d == Open {
        JudgingAnEstimate(b, e1, d, i.now.n, i.reading.position, i.reading.openContact);
      } else {
        JudgingAnEstimate(b, atOpen.e, d, i.now.n, i.reading.position, i.reading.closeContact);
      }
      hide Judge, UsesEstimate;
    } else {
      UncleanAnswer(b, e, i);
    }
  }

  /**
   In every history: an estimated endpoint is reached only if a command in that direction was noted at
   least its travel plus margin ago and since then there was nothing but clean observations of its source.
   */
  lemma EstimateIsEarned(b: Binding, h: seq<Input>, i: Input, d: Direction)
    requires i.Seen? && UsesEstimate(b, d)
    requires Answer(b, Run(b, h), i.now, i.reading).state.At(d).reached == Some(true)
    ensures EstimateConfigured(b, d)
    ensures exists c: nat ::
              && Alive(b, h + [i], c, d) && i.now.Number? && (h + [i])[c].now.Number?
              && i.now.n - (h + [i])[c].now.n >= FullTravel(b, d)
  {
    EstimateNeedsCommand(b, Run(b, h), i, d);
    RunSnoc(b, h, i);
    CommandsAlways(b, h + [i]);
    var e := Run(b, h + [i]);
    var c: nat :| Alive(b, h + [i], c, d) && (h + [i])[c].now == Number(e.command.value.startedAt);
    if Clean(b, Run(b, h), i) {
    } else {
      UncleanAnswer(b, Run(b, h), i);
    }
  }

  lemma TimedWithFullTravel(b: Binding, e: Evidence, i: Input, d: Direction)
    requires Is(b, Source(d), "timed") && EstimateConfigured(b, d)
    requires Clean(b, e, i) && !SourceLost(b, e, i.reading)
    requires e.command.Some? && e.command.value.direction == d
    requires i.now.n - e.command.value.startedAt >= FullTravel(b, d)
    ensures Answer(b, e, i.now, i.reading).state.At(d).reached == Some(true)
  {
    CleanAnswer(b, e, i);
    JudgingTheOther(b, e.(lastNow := Some(i.now.n)), Close, i.now.n, i.reading.position, i.reading.openContact);
  }

  lemma AliveIsEnough(b: Binding, h: seq<Input>, i: Input, c: nat, d: Direction)
    requires i.Seen? && Is(b, Source(d), "timed") && EstimateConfigured(b, d)
    requires Alive(b, h + [i], c, d) && i.now.Number? && (h + [i])[c].now.Number?
    requires i.now.n - (h + [i])[c].now.n >= FullTravel(b, d)
    ensures Answer(b, Run(b, h), i.now, i.reading).state.At(d).reached == Some(true)
  {
    var g := h + [i];
    BeforeSnoc(b, h, i);
    assert g[|h|] == i;
    CommandsAlways(b, h);
    assert Alive(b, h, c, d);
    TimedWithFullTravel(b, Run(b, h), i, d);
  }

  /** For a purely timed source, the live command that has had its full travel is also enough. */
  lemma TimedReachedExactly(b: Binding, h: seq<Input>, i: Input, d: Direction)
    requires i.Seen? && Is(b, Source(d), "timed") && EstimateConfigured(b, d)
    ensures Answer(b, Run(b, h), i.now, i.reading).state.At(d).reached == Some(true)
            <==> exists c: nat ::
                   && Alive(b, h + [i], c, d) && i.now.Number? && (h + [i])[c].now.Number?
                   && i.now.n - (h + [i])[c].now.n >= FullTravel(b, d)
  {
    if Answer(b, Run(b, h), i.now, i.reading).state.At(d).reached == Some(true) {
      EstimateIsEarned(b, h, i, d);
    }
    forall c: nat | Alive(b, h + [i], c, d) && i.now.Number? && (h + [i])[c].now.Number?
                    && i.now.n - (h + [i])[c].now.n >= FullTravel(b, d)
      ensures Answer(b, Run(b, h), i.now, i.reading).state.At(d).reached == Some(true)
    {
      AliveIsEnough(b, h, i, c, d);
    }
  }

  // -- an estimated position --------------------------------------------------

  predicate EstimatedSource(b: Binding, d: Direction)
  {
    && Is(b, Source(d), "position") && Is(b, PositionKind, "estimated")
    && PositionConfigured(b) && EstimateConfigured(b, d)
  }

  predicate Commanded(e: Evidence, d: Direction)
  {
    e.command.Some? && e.command.value.direction == d
  }

  lemma JudgingEstimated(b: Binding, e: Evidence, d: Direction, now: real, position: Value, contact: Value)
    requires EstimatedSource(b, d)
    ensures var judged := Judge(b, e, d, now, position, contact);
            && (if PastThreshold(b, d, position) && Commanded(e, d) then
                  && d in judged.e.stableSince
                  && judged.e.stableSince[d] == if d in e.stableSince then e.stableSince[d] else now
                else d !in judged.e.stableSince)
            && (judged.endpoint.reached == Some(true)
                <==> && PastThreshold(b, d, position) && Commanded(e, d)
                     && now - e.command.value.startedAt >= FullTravel(b, d)
                     && now - judged.e.stableSince[d] >= Get(b, PositionSettle).n)
  {
    assert !Is(b, Source(d), "contact") && !Is(b, PositionKind, "measured");
    hide PositionConfigured, EstimateConfigured, FullTravel;
  }

  /** One direction as it comes out of judging both. */
  lemma BothAsOne(b: Binding, e: Evidence, d: Direction, now: real, r: Reading)
    ensures var both := JudgeBoth(b, e, now, r);
            var one := Judge(b, e, d, now, r.position, r.Contact(d));
            && (if d == Open then both.0 else both.1) == one.endpoint
            && SameSince(one.e, both.2, d) && both.2.command == e.command && both.2.lastNow == e.lastNow
  {
    var atOpen := Judge(b, e, Open, now, r.position, r.openContact);
    JudgingTouches(b, e, Open, now, r.position, r.openContact);
    JudgingTouches(b, e, Close, now, r.position, r.closeContact);
    JudgingTouches(b, atOpen.e, Close, now, r.position, r.closeContact);
    if d == Close {
      JudgingUses(b, e, atOpen.e, Close, now, r.position, r.closeContact);
    }
    hide Judge;
  }

  /** One input keeps, starts or ends the stable reading: for an estimate, only under a live command. */
  lemma EstimatedStep(b: Binding, e: Evidence, i: Input, d: Direction)
    requires EstimatedSource(b, d)
    ensures var e' := Next(b, e, i);
            if Clean(b, e, i) && PastThreshold(b, d, i.reading.position)
               && Commanded(e, d) && !SourceLost(b, e, i.reading) then
              && e'.lastNow == Some(i.now.n)
              && Since(e', d) == if Since(e, d).Some? then Since(e, d) else Some(i.now.n)
            else Since(e', d).None?
  {
    if Clean(b, e, i) {
      var e1 := AfterLoss(b, e.(lastNow := Some(i.now.n)), i.reading);
      CleanAnswer(b, e, i);
      BothAsOne(b, e1, d, i.now.n, i.reading);
      JudgingEstimated(b, e1, d, i.now.n, i.reading.position, i.reading.Contact(d));
      hide Judge, JudgeBoth, SourceLost, Clean, PastThreshold;
    } else if i.Seen? {
      UncleanAnswer(b, e, i);
    }
  }

  /** The observation itself decides by how long its reading and its command have lasted. */
  lemma EstimatedAnswer(b: Binding, e: Evidence, i: Input, d: Direction)
    requires EstimatedSource(b, d) && i.Seen?
    ensures var e' := Next(b, e, i);
            Answer(b, e, i.now, i.reading).state.At(d).reached == Some(true)
            <==> && Clean(b, e, i) && Commanded(e', d)
                 && i.now.n - e'.command.value.startedAt >= FullTravel(b, d)
                 && Since(e', d).Some? && i.now.n - Since(e', d).value >= Get(b, PositionSettle).n
  {
    if Clean(b, e, i) {
      var e1 := AfterLoss(b, e.(lastNow := Some(i.now.n)), i.reading);
      CleanAnswer(b, e, i);
      BothAsOne(b, e1, d, i.now.n, i.reading);
      JudgingEstimated(b, e1, d, i.now.n, i.reading.position, i.reading.Contact(d));
      hide Judge, JudgeBoth, SourceLost, Clean, PastThreshold, Answer, EstimateConfigured, FullTravel;
    } else {
      UncleanAnswer(b, e, i);
    }
  }

  /** Input `c` is a live command in direction `d`; from input `j` after it on, all observations read the endpoint. */
  ghost predicate Carries(b: Binding, h: seq<Input>, c: nat, j: nat, d: Direction)
  {
    c < j && Alive(b, h, c, d) && Unbroken(b, h, j, d)
  }

  ghost predicate TracksEstimate(b: Binding, h: seq<Input>, d: Direction)
  {
    var e := Run(b, h);
    && (Since(e, d).Some? ==>
          exists c: nat, j: nat :: Carries(b, h, c, j, d) && h[j].Seen? && h[j].now == Number(Since(e, d).value))
    && (forall c: nat, j: nat :: Carries(b, h, c, j, d) ==>
          && Since(e, d).Some? && e.lastNow.Some? && h[j].Seen? && h[j].now.Number?
          && Since(e, d).value <= h[j].now.n <= e.lastNow.value)
  }

  lemma CarriesExtends(b: Binding, h: seq<Input>, i: Input, c: nat, j: nat, d: Direction)
    requires Carries(b, h, c, j, d)
    requires Clean(b, Run(b, h), i) && PastThreshold(b, d, i.reading.position) && !SourceLost(b, Run(b, h), i.reading)
    ensures Carries(b, h + [i], c, j, d)
  {
    AliveExtends(b, h, i, c, d);
    UnbrokenExtends(b, h, i, j, d);
  }

  /** A stretch that goes on with input `i` was there before, or starts with it under a command given before. */
  lemma CarriesShrinks(b: Binding, h: seq<Input>, i: Input, c: nat, j: nat, d: Direction)
    requires Carries(b, h + [i], c, j, d)
    ensures c < |h| && Alive(b, h, c, d)
    ensures Clean(b, Run(b, h), i) && PastThreshold(b, d, i.reading.position) && !SourceLost(b, Run(b, h), i.reading)
    ensures j < |h| ==> Carries(b, h, c, j, d)
    ensures j <= |h|
  {
    AliveShrinks(b, h, i, c, d);
    if j < |h| {
      UnbrokenShrinks(b, h, i, j, d);
    } else {
      BeforeSnoc(b, h, i);
      assert Reads(b, h + [i], j, d);
    }
  }

  lemma EstimateGoesOn(b: Binding, h: seq<Input>, i: Input, d: Direction)
    requires EstimatedSource(b, d) && TracksEstimate(b, h, d) && Since(Run(b, h + [i]), d).Some?
    ensures exists c: nat, j: nat ::
              && Carries(b, h + [i], c, j, d) && (h + [i])[j].Seen?
              && (h + [i])[j].now == Number(Since(Run(b, h + [i]), d).value)
  {
    RunSnoc(b, h, i);
    var e, g := Run(b, h), h + [i];
    EstimatedStep(b, e, i, d);
    if Since(e, d).Some? {
      var c: nat, j: nat :| Carries(b, h, c, j, d) && h[j].Seen? && h[j].now == Number(Since(e, d).value);
      CarriesExtends(b, h, i, c, j, d);
      assert g[j] == h[j];
    } else {
      CommandsAlways(b, h);
      var c: nat :| Alive(b, h, c, d) && h[c].now == Number(e.command.value.startedAt);
      AliveExtends(b, h, i, c, d);
      UnbrokenStarts(b, h, i, d);
      assert Carries(b, g, c, |h|, d) && g[|h|] == i;
    }
    hide Next, Alive, Unbroken;
  }

  lemma EstimateIsCovered(b: Binding, h: seq<Input>, i: Input, c: nat, j: nat, d: Direction)
    requires EstimatedSource(b, d) && TracksEstimate(b, h, d) && Carries(b, h + [i], c, j, d)
    ensures var e', g := Run(b, h + [i]), h + [i];
            && Since(e', d).Some? && e'.lastNow.Some? && g[j].Seen? && g[j].now.Number?
            && Since(e', d).value <= g[j].now.n <= e'.lastNow.value
  {
    RunSnoc(b, h, i);
    var e := Run(b, h);
    EstimatedStep(b, e, i, d);
    CarriesShrinks(b, h, i, c, j, d);
    CommandsAlways(b, h);
    assert Commanded(e, d);
    if j == |h| && Since(e, d).Some? {
      var c': nat, j': nat :| Carries(b, h, c', j', d) && h[j'].Seen? && h[j'].now == Number(Since(e, d).value);
    }
    hide Next, Alive, Unbroken, EstimatedSource;
  }

  lemma NoEstimateTracked(b: Binding, d: Direction)
    ensures TracksEstimate(b, [], d)
  {
  }

  lemma TracksEstimateStep(b: Binding, h: seq<Input>, i: Input, d: Direction)
    requires EstimatedSource(b, d) && TracksEstimate(b, h, d)
    ensures TracksEstimate(b, h + [i], d)
  {
    hide Run, Carries, EstimatedSource;
    var g := h + [i];
    if Since(Run(b, g), d).Some? {
      EstimateGoesOn(b, h, i, d);
    }
    forall c: nat, j: nat | Carries(b, g, c, j, d)
      ensures j < |g| && Since(Run(b, g), d).Some? && Run(b, g).lastNow.Some? && g[j].Seen? && g[j].now.Number?
      ensures Since(Run(b, g), d).value <= g[j].now.n <= Run(b, g).lastNow.value
    {
      CarriesShrinks(b, h, i, c, j, d);
      EstimateIsCovered(b, h, i, c, j, d);
    }
  }

  lemma {:induction false} TracksEstimateAlways(b: Binding, h: seq<Input>, d: Direction)
    requires EstimatedSource(b, d)
    ensures TracksEstimate(b, h, d)
  {
    if h == [] {
      NoEstimateTracked(b, d);
    } else {
      hide TracksEstimate, EstimatedSource;
      var g, i := h[..|h| - 1], h[|h| - 1];
      assert h == g + [i];
      TracksEstimateAlways(b, g, d);
      TracksEstimateStep(b, g, i, d);
    }
  }

  /** In history `h`, command `c` and the readings since `j` have lasted long enough for the estimate at time `now`. */
  ghost predicate EstimateDue(b: Binding, h: seq<Input>, c: nat, j: nat, d: Direction, now: Value)
    requires EstimatedSource(b, d)
  {
    && Carries(b, h, c, j, d)
    && now.Number? && h[c].now.Number? && h[j].Seen? && h[j].now.Number?
    && now.n - h[c].now.n >= FullTravel(b, d)
    && now.n - h[j].now.n >= Get(b, PositionSettle).n
  }

  lemma DueEstimateIsReached(b: Binding, h: seq<Input>, i: Input, c: nat, j: nat, d: Direction)
    requires EstimatedSource(b, d) && i.Seen? && EstimateDue(b, h + [i], c, j, d, i.now)
    ensures Answer(b, Run(b, h), i.now, i.reading).state.At(d).reached == Some(true)
  {
    var g := h + [i];
    TracksEstimateAlways(b, g, d);
    CommandsAlways(b, g);
    RunSnoc(b, h, i);
    EstimatedAnswer(b, Run(b, h), i, d);
    CarriesShrinks(b, h, i, c, j, d);
    hide Next, Answer, Alive, Unbroken, EstimateConfigured, FullTravel;
  }

  lemma ReachedEstimateIsDue(b: Binding, h: seq<Input>, i: Input, d: Direction) returns (c: nat, j: nat)
    requires EstimatedSource(b, d) && i.Seen?
    requires Answer(b, Run(b, h), i.now, i.reading).state.At(d).reached == Some(true)
    ensures EstimateDue(b, h + [i], c, j, d, i.now)
  {
    var g := h + [i];
    TracksEstimateAlways(b, g, d);
    CommandsAlways(b, g);
    RunSnoc(b, h, i);
    EstimatedAnswer(b, Run(b, h), i, d);
    var e' := Run(b, g);
    c, j :| Carries(b, g, c, j, d) && g[j].Seen? && g[j].now == Number(Since(e', d).value);
    assert g[c].now == Number(e'.command.value.startedAt);
    hide Next, Answer, Alive, Unbroken, EstimateConfigured, FullTravel;
  }

  /**
   For an estimated position, exactly: the endpoint is reported reached if and only if a live command in its
   direction has had its full travel and since then an unbroken run of readings has lasted the settle time.
   */
  lemma EstimatedReachedExactly(b: Binding, h: seq<Input>, i: Input, d: Direction)
    requires EstimatedSource(b, d) && i.Seen?
    ensures Answer(b, Run(b, h), i.now, i.reading).state.At(d).reached == Some(true)
            <==> exists c: nat, j: nat :: EstimateDue(b, h + [i], c, j, d, i.now)
  {
    hide Answer, Run, EstimateDue, EstimatedSource;
    if Answer(b, Run(b, h), i.now, i.reading).state.At(d).reached == Some(true) {
      var c, j := ReachedEstimateIsDue(b, h, i, d);
    }
    forall c: nat, j: nat | EstimateDue(b, h + [i], c, j, d, i.now)
      ensures Answer(b, Run(b, h), i.now, i.reading).state.At(d).reached == Some(true)
    {
      DueEstimateIsReached(b, h, i, c, j, d);
    }
  }

  /** Without a new command nothing revives an estimate. */
  lemma {:induction false} RevokedStaysRevoked(b: Binding, h: seq<Input>, g: seq<Input>)
    requires Run(b, h).command.None?
    requires forall k :: 0 <= k < |g| ==> !g[k].Command?
    ensures Run(b, h + g).command.None?
  {
    if g == [] {
      assert h + g == h;
    } else {
      var i := g[|g| - 1];
      RevokedStaysRevoked(b, h, g[..|g| - 1]);
      assert h + g == (h + g[..|g| - 1]) + [i];
      RunSnoc(b, h + g[..|g| - 1], i);
      CommandStep(b, Run(b, h + g[..|g| - 1]), i);
    }
  }
}
