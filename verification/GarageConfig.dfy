/** Validation of a binding and the timings suggested for it. */
module GarageConfig {
  import opened Common
  import opened GarageBinding

  // -- tables -----------------------------------------------------------------

  const NUMERIC_KEYS := [
    Travel(Open), Travel(Close), TravelMargin, ContactSettle, PositionSettle, OperationTimeout, DockSettle,
    ExitX, ExitY, ExitTimeout]

  const SUPPLIED_NUMBERS := NUMERIC_KEYS + [Position(Open), Position(Close)]

  const BOOLEAN_KEYS := [Enabled, AllowEstimated, HandoverConfirmed, ControlledExitEnabled]

  const EXIT_KEYS := [ExitX, ExitY, ExitTimeout]

  predicate IsNumeric(k: Key)
  {
    k.Travel? || k.TravelMargin? || k.ContactSettle? || k.PositionSettle? || k.OperationTimeout? || k.DockSettle?
    || k.ExitX? || k.ExitY? || k.ExitTimeout? || k.Position?
  }

  function Range(k: Key): (real, real)
    requires IsNumeric(k)
  {
    match k
    case Travel(_) => (1.0, 600.0)
    case TravelMargin => (0.0, 120.0)
    case ContactSettle => (0.0, 60.0)
    case PositionSettle => (0.0, 60.0)
    case OperationTimeout => (1.0, 1800.0)
    case DockSettle => (1.0, 300.0)
    case ExitX => (0.0, 65535.0)
    case ExitY => (0.0, 65535.0)
    case ExitTimeout => (10.0, 300.0)
    case Position(_) => (0.0, 100.0)
  }

  predicate InRange(b: Binding, k: Key)
    requires IsNumeric(k)
  {
    k in b && NumberWithin(b[k], Range(k).0, Range(k).1).Some?
  }

  /** Keys that name an entity, with the domains allowed for it. */
  function Domains(k: Key): seq<string>
  {
    match k
    case CoverEntity => ["cover"]
    case ClosePermission => ["input_boolean", BINARY_SENSOR]
    case Contact(_) => [BINARY_SENSOR]
    case _ => []
  }

  predicate NamesEntity(b: Binding, k: Key)
  {
    exists i :: 0 <= i < |Domains(k)| && IsEntity(Get(b, k), Domains(k)[i])
  }

  const ENTITY_KEYS := [CoverEntity, ClosePermission, Contact(Open), Contact(Close)]

  function Choices(k: Key): seq<string>
  {
    match k
    case TaskDoorMode => ["hold_open", "after_exit"]
    case Source(_) => ["contact", "position", "timed"]
    case ContactState(_) => ["on", "off"]
    case PositionKind => ["measured", "estimated"]
    case _ => []
  }

  predicate IsChoice(b: Binding, k: Key)
  {
    Get(b, k).Text? && Get(b, k).s in Choices(k)
  }

  const CHOICE_KEYS := [
    TaskDoorMode, Source(Open), Source(Close), ContactState(Open), ContactState(Close), PositionKind]

  predicate Blank(b: Binding, k: Key)
  {
    Get(b, k) == Null || Get(b, k) == Text("")
  }

  predicate Truthy(v: Value)
  {
    match v
    case Null => false
    case Number(n) => n != 0.0
    case Text(s) => s != ""
    case Flag(f) => f
    case Other => true
  }

  // -- what each timing is for ------------------------------------------------

  /** A timing is required exactly when the selected evidence consumes it. */
  predicate IsRequired(b: Binding, k: Key)
  {
    match k
    case OperationTimeout => true
    case DockSettle => true
    case ContactSettle => Is(b, Source(Open), "contact") || Is(b, Source(Close), "contact")
    case PositionSettle => UsesPosition(b)
    case Travel(d) => UsesEstimate(b, d)
    case TravelMargin => UsesEstimate(b, Open) || UsesEstimate(b, Close)
    case _ => false
  }

  /** The timings one direction consumes. */
  function Consumed(b: Binding, d: Direction): set<Key>
  {
    (if Is(b, Source(d), "contact") then {ContactSettle} else {})
    + (if Is(b, Source(d), "position") then {PositionSettle} else {})
    + (if UsesEstimate(b, d) then {Travel(d), TravelMargin} else {})
  }

  function Required(b: Binding): set<Key>
  {
    {OperationTimeout, DockSettle} + Consumed(b, Open) + Consumed(b, Close)
  }

  lemma RequiredMeansConsumed(b: Binding, k: Key)
    ensures k in Required(b) <==> IsRequired(b, k)
  {
    hide Is;
    if k.Travel? {
      assert k.d == Open || k.d == Close;
    }
  }

  lemma RequiredIsNumeric(b: Binding, k: Key)
    requires IsRequired(b, k)
    ensures IsNumeric(k) && k in NUMERIC_KEYS && k in SUPPLIED_NUMBERS
  {
    hide Is, UsesEstimate, UsesPosition;
    if k.Travel? {
      assert k.d == Open || k.d == Close;
    }
    var i := if k == Travel(Open) then 0 else if k == Travel(Close) then 1 else if k == TravelMargin then 2
             else if k == ContactSettle then 3 else if k == PositionSettle then 4
             else if k == OperationTimeout then 5 else 6;
    assert NUMERIC_KEYS[i] == k && SUPPLIED_NUMBERS[i] == k;
  }

  function Chosen(keys: seq<Key>, required: set<Key>): seq<Key>
  {
    if keys == [] then []
    else Chosen(keys[..|keys| - 1], required) + if keys[|keys| - 1] in required then [keys[|keys| - 1]] else []
  }

  lemma {:induction false} ChosenContains(keys: seq<Key>, required: set<Key>, k: Key)
    ensures k in Chosen(keys, required) <==> k in keys && k in required
  {
    if keys != [] {
      ChosenContains(keys[..|keys| - 1], required, k);
      assert keys == keys[..|keys| - 1] + [keys[|keys| - 1]];
    }
  }

  /** Required timings, in the order of the table of ranges. */
  method RequiredTimingFields(b: Binding) returns (fields: seq<Key>)
    ensures fields == Chosen(NUMERIC_KEYS, Required(b))
    ensures forall k :: k in fields <==> k in Required(b)
  {
    var required := {OperationTimeout, DockSettle};
    for i := 0 to |DIRECTIONS|
      invariant required == {OperationTimeout, DockSettle}
                            + (if i > 0 then Consumed(b, Open) else {}) + (if i > 1 then Consumed(b, Close) else {})
    {
      var d := DIRECTIONS[i];
      if Is(b, Source(d), "contact") {
        required := required + {ContactSettle};
      }
      if Is(b, Source(d), "position") {
        required := required + {PositionSettle};
      }
      if UsesEstimate(b, d) {
        required := required + {Travel(d), TravelMargin};
      }
    }
    fields := [];
    for i := 0 to |NUMERIC_KEYS|
      invariant fields == Chosen(NUMERIC_KEYS[..i], required)
    {
      assert NUMERIC_KEYS[..i + 1][..i] == NUMERIC_KEYS[..i];
      if NUMERIC_KEYS[i] in required {
        fields := fields + [NUMERIC_KEYS[i]];
      }
    }
    assert NUMERIC_KEYS[..|NUMERIC_KEYS|] == NUMERIC_KEYS;
    forall k
      ensures k in fields <==> k in Required(b)
    {
      RequiredMeansConsumed(b, k);
      if k in Required(b) {
        RequiredIsNumeric(b, k);
      }
      ChosenContains(NUMERIC_KEYS, Required(b), k);
    }
  }

  // -- waiting times ----------------------------------------------------------

  predicate WaitKnown(b: Binding, d: Direction)
  {
    && HasSource(b, d)
    && (Is(b, Source(d), "contact") ==> InRange(b, ContactSettle))
    && (Is(b, Source(d), "position") ==> InRange(b, PositionSettle))
    && (UsesEstimate(b, d) ==> InRange(b, Travel(d)) && InRange(b, TravelMargin))
  }

  /** How long the selected evidence may need before it can report the endpoint. */
  function Wait(b: Binding, d: Direction): (r: real)
    requires WaitKnown(b, d)
    ensures 0.0 <= r <= 780.0
  {
    (if Is(b, Source(d), "contact") then b[ContactSettle].n
     else if Is(b, Source(d), "position") then b[PositionSettle].n else 0.0)
    + if UsesEstimate(b, d) then b[Travel(d)].n + b[TravelMargin].n else 0.0
  }

  function LongestWait(b: Binding): real
    requires WaitKnown(b, Open) && WaitKnown(b, Close)
  {
    Max(Wait(b, Open), Wait(b, Close))
  }

  /** The wait of one direction, or None when its configuration is incomplete. */
  method EndpointWait(b: Binding, d: Direction) returns (r: Option<real>)
    ensures r == if WaitKnown(b, d) then Some(Wait(b, d)) else None
  {
    if !HasSource(b, d) {
      return None;
    }
    var wait := 0.0;
    if Is(b, Source(d), "contact") || Is(b, Source(d), "position") {
      var key := if Is(b, Source(d), "contact") then ContactSettle else PositionSettle;
      if !InRange(b, key) {
        return None;
      }
      wait := wait + b[key].n;
    }
    if UsesEstimate(b, d) {
      var keys := [Travel(d), TravelMargin];
      ghost var settle := wait;
      for i := 0 to 2
        invariant i > 0 ==> InRange(b, Travel(d))
        invariant i > 1 ==> InRange(b, TravelMargin)
        invariant wait == settle + (if i > 0 then b[Travel(d)].n else 0.0) + (if i > 1 then b[TravelMargin].n else 0.0)
      {
        if !InRange(b, keys[i]) {
          return None;
        }
        wait := wait + b[keys[i]].n;
      }
    }
    return Some(wait);
  }

  // -- suggestions ------------------------------------------------------------

  const SUGGESTED: Binding := map[
    TravelMargin := Number(10.0), ContactSettle := Number(0.0),
    PositionSettle := Number(2.0), DockSettle := Number(5.0)]

  function Ceiling(r: real): (n: int)
    ensures n as real - 1.0 < r <= n as real
  {
    -((-r).Floor)
  }

  /** Suggested values completed by the binding's own, which take precedence. */
  function Filled(b: Binding, suggestions: Binding): Binding
  {
    suggestions + b
  }

  function SuggestedSettings(b: Binding): Binding
  {
    map k | k in SUGGESTED && k in Required(b) :: SUGGESTED[k]
  }

  /** The longest wait among the directions whose wait is known. */
  function LongestKnownWait(b: Binding): real
  {
    Max(if WaitKnown(b, Open) then Wait(b, Open) else 0.0, if WaitKnown(b, Close) then Wait(b, Close) else 0.0)
  }

  function SuggestedTimeout(longest: real): (r: real)
    ensures r >= 90.0 && r >= longest + 30.0
    ensures 0.0 <= longest <= 780.0 ==> r <= 810.0
    ensures r == 90.0 || r < longest + 31.0
  {
    var n := Ceiling(longest + 30.0);
    if n > 90 then n as real else 90.0
  }

  function Suggested(b: Binding): Binding
  {
    var settings := SuggestedSettings(b);
    settings[OperationTimeout := Number(SuggestedTimeout(LongestKnownWait(Filled(b, settings))))]
  }

  method LongestKnown(values: Binding) returns (longest: real)
    ensures longest == LongestKnownWait(values)
  {
    longest := 0.0;
    for i := 0 to |DIRECTIONS|
      invariant i == 0 ==> longest == 0.0
      invariant i == 1 ==> longest == if WaitKnown(values, Open) then Wait(values, Open) else 0.0
      invariant i == 2 ==> longest == LongestKnownWait(values)
    {
      var wait := EndpointWait(values, DIRECTIONS[i]);
      if wait.Some? {
        longest := Max(longest, wait.value);
      }
    }
  }

  method SuggestedTimingValues(b: Binding) returns (suggestions: Binding)
    ensures suggestions == Suggested(b)
  {
    var required := RequiredTimingFields(b);
    suggestions := map k | k in SUGGESTED && k in required :: SUGGESTED[k];
    assert suggestions == SuggestedSettings(b);
    var longest := LongestKnown(Filled(b, suggestions));
    suggestions := suggestions[OperationTimeout := Number(SuggestedTimeout(longest))];
  }

  /** Sources and travel times are given, there is no timeout, and the timings present are in range. */
  predicate ReadyForSuggestions(b: Binding)
  {
    && HasSource(b, Open) && HasSource(b, Close)
    && OperationTimeout !in b
    && (UsesEstimate(b, Open) ==> InRange(b, Travel(Open)))
    && (UsesEstimate(b, Close) ==> InRange(b, Travel(Close)))
    && (TravelMargin in b ==> InRange(b, TravelMargin))
    && (ContactSettle in b ==> InRange(b, ContactSettle))
    && (PositionSettle in b ==> InRange(b, PositionSettle))
    && (DockSettle in b ==> InRange(b, DockSettle))
  }

  lemma SettingsInRange(b: Binding, k: Key)
    requires ReadyForSuggestions(b) && IsRequired(b, k) && k != OperationTimeout
    ensures InRange(Filled(b, SuggestedSettings(b)), k)
  {
    RequiredMeansConsumed(b, k);
    hide Required, Is, UsesEstimate, UsesPosition;
    if k.Travel? {
      assert k.d == Open || k.d == Close;
    }
  }

  /** The suggested timeout is the only difference between the settings and the whole suggestion. */
  lemma OnlyTimeoutIsAdded(b: Binding, k: Key)
    requires k != OperationTimeout
    ensures k in Filled(b, Suggested(b)) <==> k in Filled(b, SuggestedSettings(b))
    ensures k in Filled(b, Suggested(b)) ==> Filled(b, Suggested(b))[k] == Filled(b, SuggestedSettings(b))[k]
  {
  }

  lemma SettingsFill(b: Binding, k: Key)
    requires ReadyForSuggestions(b) && IsRequired(b, k) && k != OperationTimeout
    ensures InRange(Filled(b, SuggestedSettings(b)), k)
    ensures InRange(Filled(b, Suggested(b)), k)
    ensures Filled(b, SuggestedSettings(b))[k] == Filled(b, Suggested(b))[k]
  {
    SettingsInRange(b, k);
    OnlyTimeoutIsAdded(b, k);
    hide ReadyForSuggestions, IsRequired, Suggested, SuggestedSettings, Filled;
  }

  /** Both bindings select the same evidence for direction `d`. */
  predicate SameSources(u: Binding, b: Binding, d: Direction)
  {
    && HasSource(u, d) == HasSource(b, d) && UsesEstimate(u, d) == UsesEstimate(b, d)
    && Is(u, Source(d), "contact") == Is(b, Source(d), "contact")
    && Is(u, Source(d), "position") == Is(b, Source(d), "position")
  }

  lemma FillingKeepsSources(b: Binding, s: Binding, d: Direction)
    requires forall k :: k in s ==> IsNumeric(k)
    ensures SameSources(Filled(b, s), b, d)
  {
    assert Get(Filled(b, s), Source(d)) == Get(b, Source(d));
    assert Get(Filled(b, s), PositionKind) == Get(b, PositionKind);
    hide Filled, Get;
  }

  /** The timings of direction `d` are in range in both bindings, and the same. */
  predicate SameTimings(v: Binding, v': Binding, b: Binding, d: Direction)
  {
    && (Is(b, Source(d), "contact") ==> SameInRange(v, v', ContactSettle))
    && (Is(b, Source(d), "position") ==> SameInRange(v, v', PositionSettle))
    && (UsesEstimate(b, d) ==> SameInRange(v, v', Travel(d)) && SameInRange(v, v', TravelMargin))
  }

  predicate SameInRange(v: Binding, v': Binding, k: Key)
    requires IsNumeric(k)
  {
    InRange(v, k) && InRange(v', k) && v[k] == v'[k]
  }

  lemma SameWaits(v: Binding, v': Binding, b: Binding, d: Direction)
    requires HasSource(b, d) && SameTimings(v, v', b, d)
    requires SameSources(v, b, d) && SameSources(v', b, d)
    ensures WaitKnown(v, d) && WaitKnown(v', d) && Wait(v, d) == Wait(v', d)
  {
    hide Is, HasSource, UsesEstimate, NumberWithin;
  }

  lemma SuggestionsKeepSources(b: Binding, d: Direction)
    ensures SameSources(Filled(b, Suggested(b)), b, d) && SameSources(Filled(b, SuggestedSettings(b)), b, d)
  {
    hide Filled, SameSources, Required;
    assert forall k :: k in SuggestedSettings(b) ==> IsNumeric(k);
    FillingKeepsSources(b, SuggestedSettings(b), d);
    assert forall k :: k in Suggested(b) ==> k == OperationTimeout || k in SuggestedSettings(b);
    FillingKeepsSources(b, Suggested(b), d);
  }

  lemma FilledWait(b: Binding, d: Direction)
    requires ReadyForSuggestions(b)
    ensures WaitKnown(Filled(b, Suggested(b)), d) && WaitKnown(Filled(b, SuggestedSettings(b)), d)
    ensures Wait(Filled(b, Suggested(b)), d) == Wait(Filled(b, SuggestedSettings(b)), d)
  {
    hide Suggested, SuggestedSettings, Filled, InRange, Is, UsesEstimate, UsesPosition, WaitKnown, Wait;
    if Is(b, Source(d), "contact") {
      SourceIsRequired(b, d);
      SettingsFill(b, ContactSettle);
    }
    if Is(b, Source(d), "position") {
      SourceIsRequired(b, d);
      SettingsFill(b, PositionSettle);
    }
    if UsesEstimate(b, d) {
      SourceIsRequired(b, d);
      SettingsFill(b, Travel(d));
      SettingsFill(b, TravelMargin);
    }
    SuggestionsKeepSources(b, d);
    SameWaits(Filled(b, Suggested(b)), Filled(b, SuggestedSettings(b)), b, d);
  }

  /** Each direction's evidence makes the timings it consumes required. */
  lemma SourceIsRequired(b: Binding, d: Direction)
    ensures Is(b, Source(d), "contact") ==> IsRequired(b, ContactSettle)
    ensures Is(b, Source(d), "position") ==> IsRequired(b, PositionSettle)
    ensures UsesEstimate(b, d) ==> IsRequired(b, Travel(d)) && IsRequired(b, TravelMargin)
  {
    assert d == Open || d == Close;
  }

  /**
   Suggestions complete a binding without changing it: every required timing becomes present and in
   range, and the suggested timeout exceeds both endpoint waits and stays far below its own limit.
   */
  lemma SuggestionsComplete(b: Binding)
    requires ReadyForSuggestions(b)
    ensures var filled := Filled(b, Suggested(b));
            && (forall k :: IsRequired(b, k) ==> IsNumeric(k) && InRange(filled, k))
            && (forall k :: k in b ==> k in filled && filled[k] == b[k])
            && WaitKnown(filled, Open) && WaitKnown(filled, Close)
            && LongestWait(filled) < filled[OperationTimeout].n <= 810.0
  {
    FilledWait(b, Open);
    FilledWait(b, Close);
    var filled := Filled(b, Suggested(b));
    forall k | IsRequired(b, k)
      ensures IsNumeric(k) && InRange(filled, k)
    {
      if k != OperationTimeout {
        SettingsFill(b, k);
      }
    }
  }

  // -- validation -------------------------------------------------------------

  /** Everything validation can object to, with the field it objects to. */
  datatype Problem =
    | InvalidBoolean(k: Key)
    | InvalidNumber(k: Key)
    | InvalidThresholds
    | InvalidEntity(k: Key)
    | InvalidChoice(k: Key)
    | DuplicateEndpoint
    | UnsupportedRobot
    | Missing(k: Key)
    | InvalidContact(d: Direction)
    | InvalidPositionKind
    | EstimateNotAccepted
    | TimeoutTooShort
    | HandoverRequired
    | MissingExitTarget(k: Key)

  predicate IsEnabled(b: Binding)
  {
    IsTrue(b, Enabled)
  }

  /** A value that is wrong whether or not the binding is enabled. */
  predicate SuppliedFault(b: Binding, p: Problem)
  {
    match p
    case InvalidBoolean(k) => k in BOOLEAN_KEYS && k in b && !b[k].Flag?
    case InvalidNumber(k) => k in SUPPLIED_NUMBERS && IsNumeric(k) && k in b && !InRange(b, k)
    case InvalidThresholds =>
      && Get(b, Position(Open)).Number? && Get(b, Position(Close)).Number?
      && Get(b, Position(Close)).n >= Get(b, Position(Open)).n
    case InvalidEntity(k) => k in ENTITY_KEYS && !Blank(b, k) && !NamesEntity(b, k)
    case InvalidChoice(k) => k in CHOICE_KEYS && !Blank(b, k) && !IsChoice(b, k)
    case DuplicateEndpoint => Truthy(Get(b, Contact(Open))) && Get(b, Contact(Open)) == Get(b, Contact(Close))
    case _ => false
  }

  /** What an enabled binding must have: nothing is guessed and nothing defaults to permission. */
  predicate EnabledFault(b: Binding, supported: bool, p: Problem)
  {
    match p
    case UnsupportedRobot => !supported
    case InvalidChoice(k) => (k == TaskDoorMode || k.Source?) && k in b && !IsChoice(b, k)
    case InvalidEntity(k) => k == CoverEntity && k in b && !NamesEntity(b, k)
    case Missing(k) =>
      && k !in b
      && (k == CoverEntity || k.Source? || (k.Position? && UsesPosition(b)) || IsRequired(b, k))
    case InvalidContact(d) =>
      Is(b, Source(d), "contact") && (!Truthy(Get(b, Contact(d))) || !OnOrOff(Get(b, ContactState(d))))
    case InvalidPositionKind => UsesPosition(b) && !IsChoice(b, PositionKind)
    case EstimateNotAccepted => (UsesEstimate(b, Open) || UsesEstimate(b, Close)) && !Truthy(Get(b, AllowEstimated))
    case TimeoutTooShort =>
      && WaitKnown(b, Open) && WaitKnown(b, Close) && InRange(b, OperationTimeout)
      && b[OperationTimeout].n <= LongestWait(b)
    case HandoverRequired => !Truthy(Get(b, HandoverConfirmed))
    case MissingExitTarget(k) => Truthy(Get(b, ControlledExitEnabled)) && k in EXIT_KEYS && k !in b
    case _ => false
  }

  predicate Present(b: Binding, supported: bool, p: Problem)
  {
    SuppliedFault(b, p) || (IsEnabled(b) && EnabledFault(b, supported, p))
  }

  ghost predicate Acceptable(b: Binding, supported: bool)
  {
    forall p :: !Present(b, supported, p)
  }

  predicate IsTiming(k: Key)
  {
    k.Travel? || k.TravelMargin? || k.ContactSettle? || k.PositionSettle? || k.OperationTimeout? || k.DockSettle?
  }

  /** `b'` has the values of `b`, and further ones only for timings. */
  predicate CompletesTimings(b: Binding, b': Binding)
  {
    && (forall k :: k in b ==> k in b' && b'[k] == b[k])
    && (forall k :: k in b' && k !in b ==> IsTiming(k) && InRange(b', k))
  }

  ghost predicate SameElsewhere(b: Binding, b': Binding)
  {
    forall k :: !IsTiming(k) ==> (k in b' <==> k in b) && Get(b', k) == Get(b, k)
  }

  lemma CompletionKeepsSources(b: Binding, b': Binding)
    requires SameElsewhere(b, b')
    ensures forall d :: UsesEstimate(b', d) == UsesEstimate(b, d)
    ensures UsesPosition(b') == UsesPosition(b)
    ensures forall k :: IsRequired(b', k) == IsRequired(b, k)
  {
  }

  lemma CompletionKeepsSupplied(b: Binding, b': Binding, p: Problem)
    requires CompletesTimings(b, b') && SameElsewhere(b, b')
    ensures SuppliedFault(b', p) == SuppliedFault(b, p)
  {
    hide Domains, Choices, IsEntity;
  }

  lemma CompletionKeepsEnabled(b: Binding, b': Binding, supported: bool, p: Problem)
    requires SameElsewhere(b, b')
    requires !p.TimeoutTooShort? && !(p.Missing? && IsRequired(b, p.k))
    ensures EnabledFault(b', supported, p) == EnabledFault(b, supported, p)
  {
    CompletionKeepsSources(b, b');
    hide IsRequired, UsesEstimate, UsesPosition, Choices, Domains, InRange, WaitKnown, Wait, Truthy, OnOrOff;
  }

  lemma CompletionRepairs(b: Binding, b': Binding, supported: bool, p: Problem)
    requires CompletesTimings(b, b') && OperationTimeout !in b
    requires forall k :: IsRequired(b, k) ==> k in b'
    requires WaitKnown(b', Open) && WaitKnown(b', Close)
    requires OperationTimeout in b' && b'[OperationTimeout].Number? && LongestWait(b') < b'[OperationTimeout].n
    ensures Present(b', supported, p) <==> Present(b, supported, p) && !(p.Missing? && IsRequired(b, p.k))
  {
    assert SameElsewhere(b, b');
    CompletionKeepsSources(b, b');
    CompletionKeepsSupplied(b, b', p);
    hide IsTiming;
    if p.TimeoutTooShort? {
      assert !EnabledFault(b', supported, p) && !EnabledFault(b, supported, p);
    } else if p.Missing? && IsRequired(b, p.k) {
      RequiredIsNumeric(b, p.k);
    } else {
      CompletionKeepsEnabled(b, b', supported, p);
    }
  }

  /** Suggestions remove exactly the faults of missing timings: no other fault goes away and none appears. */
  lemma SuggestionsRepair(b: Binding, supported: bool, p: Problem)
    requires ReadyForSuggestions(b)
    ensures Present(Filled(b, Suggested(b)), supported, p)
            <==> Present(b, supported, p) && !(p.Missing? && IsRequired(b, p.k))
  {
    var filled := Filled(b, Suggested(b));
    SuggestionsComplete(b);
    SuggestionsCompleteTimings(b);
    hide Suggested, Filled, ReadyForSuggestions, CompletesTimings, Present, IsRequired;
    assert IsRequired(b, OperationTimeout) by { TimeoutIsRequired(b); }
    CompletionRepairs(b, filled, supported, p);
  }

  lemma TimeoutIsRequired(b: Binding)
    ensures IsRequired(b, OperationTimeout)
  {
  }

  lemma SuggestionsCompleteTimings(b: Binding)
    requires ReadyForSuggestions(b)
    ensures CompletesTimings(b, Filled(b, Suggested(b))) && OperationTimeout !in b
  {
    var filled := Filled(b, Suggested(b));
    SuggestionsComplete(b);
    assert forall k :: k in SuggestedSettings(b) ==> k in Required(b);
    forall k | k in filled && k !in b
      ensures IsTiming(k) && InRange(filled, k)
    {
      assert k == OperationTimeout || k in SuggestedSettings(b);
      RequiredMeansConsumed(b, k);
      assert IsRequired(b, k);
    }
    hide Suggested, SuggestedSettings, Required, InRange, ReadyForSuggestions;
  }

  /** An absent switch means off; an enabled binding without a door mode holds the door open. */
  function Normalised(b: Binding): Binding
  {
    var r := if Enabled in b then b else b[Enabled := Flag(false)];
    if IsEnabled(r) && TaskDoorMode !in r then r[TaskDoorMode := Text("hold_open")] else r
  }

  datatype Verdict = Accepted(binding: Binding) | Rejected(problem: Problem)

  method CheckSuppliedNumbers(b: Binding) returns (r: Option<Problem>)
    ensures r.Some? ==> SuppliedFault(b, r.value)
    ensures r.None? ==> forall k :: !SuppliedFault(b, InvalidBoolean(k)) && !SuppliedFault(b, InvalidNumber(k))
    ensures r.None? ==> !SuppliedFault(b, InvalidThresholds)
  {
    for i := 0 to |BOOLEAN_KEYS|
      invariant forall j :: 0 <= j < i ==> !SuppliedFault(b, InvalidBoolean(BOOLEAN_KEYS[j]))
    {
      if BOOLEAN_KEYS[i] in b && !b[BOOLEAN_KEYS[i]].Flag? {
        return Some(InvalidBoolean(BOOLEAN_KEYS[i]));
      }
    }
    for i := 0 to |SUPPLIED_NUMBERS|
      invariant forall j :: 0 <= j < i ==> !SuppliedFault(b, InvalidNumber(SUPPLIED_NUMBERS[j]))
    {
      if SUPPLIED_NUMBERS[i] in b && !InRange(b, SUPPLIED_NUMBERS[i]) {
        return Some(InvalidNumber(SUPPLIED_NUMBERS[i]));
      }
    }
    assert SUPPLIED_NUMBERS[10] == Position(Open) && SUPPLIED_NUMBERS[11] == Position(Close);
    if Position(Open) in b && Position(Close) in b && b[Position(Close)].n >= b[Position(Open)].n {
      return Some(InvalidThresholds);
    }
    return None;
  }

  method CheckSuppliedNames(b: Binding) returns (r: Option<Problem>)
    ensures r.Some? ==> SuppliedFault(b, r.value)
    ensures r.None? ==> forall k :: !SuppliedFault(b, InvalidEntity(k)) && !SuppliedFault(b, InvalidChoice(k))
    ensures r.None? ==> !SuppliedFault(b, DuplicateEndpoint)
  {
    for i := 0 to |ENTITY_KEYS|
      invariant forall j :: 0 <= j < i ==> !SuppliedFault(b, InvalidEntity(ENTITY_KEYS[j]))
    {
      if !Blank(b, ENTITY_KEYS[i]) && !NamesEntity(b, ENTITY_KEYS[i]) {
        return Some(InvalidEntity(ENTITY_KEYS[i]));
      }
    }
    for i := 0 to |CHOICE_KEYS|
      invariant forall j :: 0 <= j < i ==> !SuppliedFault(b, InvalidChoice(CHOICE_KEYS[j]))
    {
      if !Blank(b, CHOICE_KEYS[i]) && !IsChoice(b, CHOICE_KEYS[i]) {
        return Some(InvalidChoice(CHOICE_KEYS[i]));
      }
    }
    if Truthy(Get(b, Contact(Open))) && Get(b, Contact(Open)) == Get(b, Contact(Close)) {
      return Some(DuplicateEndpoint);
    }
    return None;
  }

  /** The part of validation that concerns the entities and the two endpoint sources. */
  method CheckEndpoints(b: Binding) returns (r: Option<Problem>)
    requires forall p :: !SuppliedFault(b, p)
    ensures r.Some? ==> EnabledFault(b, true, r.value)
    ensures r.None? ==> HasSource(b, Open) && HasSource(b, Close)
    ensures r.None? ==> forall k :: !EnabledFault(b, true, InvalidChoice(k)) && !EnabledFault(b, true, InvalidEntity(k))
    ensures r.None? ==>
              forall d :: !EnabledFault(b, true, InvalidContact(d)) && !EnabledFault(b, true, Missing(Source(d)))
    ensures r.None? ==> !EnabledFault(b, true, Missing(CoverEntity))
  {
    if TaskDoorMode in b && !IsChoice(b, TaskDoorMode) {
      return Some(InvalidChoice(TaskDoorMode));
    }
    if CoverEntity !in b {
      return Some(Missing(CoverEntity));
    }
    if !NamesEntity(b, CoverEntity) {
      return Some(InvalidEntity(CoverEntity));
    }
    for i := 0 to |DIRECTIONS|
      invariant forall j :: 0 <= j < i ==>
                  && HasSource(b, DIRECTIONS[j]) && IsChoice(b, Source(DIRECTIONS[j]))
                  && !EnabledFault(b, true, InvalidContact(DIRECTIONS[j]))
    {
      var d := DIRECTIONS[i];
      if Source(d) !in b {
        return Some(Missing(Source(d)));
      }
      if !IsChoice(b, Source(d)) {
        return Some(InvalidChoice(Source(d)));
      }
      if Is(b, Source(d), "contact") {
        if !Truthy(Get(b, Contact(d))) || !OnOrOff(Get(b, ContactState(d))) {
          return Some(InvalidContact(d));
        }
      }
    }
    assert DIRECTIONS[0] == Open && DIRECTIONS[1] == Close;
    forall d
      ensures !EnabledFault(b, true, InvalidContact(d)) && HasSource(b, d) && IsChoice(b, Source(d))
    {
      assert d == DIRECTIONS[0] || d == DIRECTIONS[1];
    }
    return None;
  }

  /** The part that concerns thresholds and the acceptance of estimates. */
  method CheckPositions(b: Binding) returns (r: Option<Problem>)
    requires forall p :: !SuppliedFault(b, p)
    ensures r.Some? ==> EnabledFault(b, true, r.value)
    ensures r.None? && UsesPosition(b) ==>
              IsChoice(b, PositionKind) && InRange(b, Position(Open)) && InRange(b, Position(Close))
    ensures r.None? ==> !EnabledFault(b, true, EstimateNotAccepted)
  {
    if UsesPosition(b) {
      if !IsChoice(b, PositionKind) {
        return Some(InvalidPositionKind);
      }
      if Position(Close) !in b {
        return Some(Missing(Position(Close)));
      }
      if Position(Open) !in b {
        return Some(Missing(Position(Open)));
      }
      assert !SuppliedFault(b, InvalidNumber(Position(Open))) && !SuppliedFault(b, InvalidNumber(Position(Close)));
      assert SUPPLIED_NUMBERS[10] == Position(Open) && SUPPLIED_NUMBERS[11] == Position(Close);
    }
    if (UsesEstimate(b, Open) || UsesEstimate(b, Close)) && !Truthy(Get(b, AllowEstimated)) {
      return Some(EstimateNotAccepted);
    }
    return None;
  }

  ghost predicate TimingsInRange(b: Binding)
  {
    forall k :: IsRequired(b, k) ==> IsNumeric(k) && InRange(b, k)
  }

  lemma TimingsGiveWaits(b: Binding, d: Direction)
    requires HasSource(b, d) && TimingsInRange(b)
    ensures WaitKnown(b, d) && InRange(b, OperationTimeout)
  {
    assert IsRequired(b, OperationTimeout);
    if Is(b, Source(d), "contact") {
      assert IsRequired(b, ContactSettle);
    }
    if Is(b, Source(d), "position") {
      assert IsRequired(b, PositionSettle);
    }
    if UsesEstimate(b, d) {
      assert IsRequired(b, Travel(d)) && IsRequired(b, TravelMargin);
    }
  }

  /** The part that concerns every timing the evidence consumes. */
  method CheckTimings(b: Binding) returns (r: Option<Problem>)
    requires forall p :: !SuppliedFault(b, p)
    requires HasSource(b, Open) && HasSource(b, Close)
    ensures r.Some? ==> EnabledFault(b, true, r.value)
    ensures r.None? ==> TimingsInRange(b) && !EnabledFault(b, true, TimeoutTooShort)
  {
    r := CheckTimingsPresent(b);
    if r.Some? {
      return;
    }
    TimingsGiveWaits(b, Open);
    TimingsGiveWaits(b, Close);
    if b[OperationTimeout].n <= LongestWait(b) {
      return Some(TimeoutTooShort);
    }
  }

  method CheckTimingsPresent(b: Binding) returns (r: Option<Problem>)
    requires forall p :: !SuppliedFault(b, p)
    ensures r.Some? ==> EnabledFault(b, true, r.value)
    ensures r.None? ==> TimingsInRange(b)
  {
    hide SuppliedFault, EnabledFault, TimingsInRange, IsRequired, Required;
    var fields := RequiredTimingFields(b);
    for i := 0 to |fields|
      invariant forall j :: 0 <= j < i ==> fields[j] in b
    {
      if fields[i] !in b {
        RequiredMeansConsumed(b, fields[i]);
        assert fields[i] in Required(b);
        AbsentTimingIsFault(b, fields[i]);
        return Some(Missing(fields[i]));
      }
    }
    AllTimingsInRange(b);
    return None;
  }

  lemma AbsentTimingIsFault(b: Binding, k: Key)
    requires IsRequired(b, k) && k !in b
    ensures EnabledFault(b, true, Missing(k))
  {
  }

  lemma AllTimingsInRange(b: Binding)
    requires forall p :: !SuppliedFault(b, p)
    requires forall k :: k in Required(b) ==> k in b
    ensures TimingsInRange(b)
  {
    hide SuppliedFault, IsRequired, Required, InRange;
    forall k | IsRequired(b, k)
      ensures IsNumeric(k) && InRange(b, k)
    {
      RequiredMeansConsumed(b, k);
      SuppliedTimingInRange(b, k);
    }
  }

  lemma SuppliedTimingInRange(b: Binding, k: Key)
    requires !SuppliedFault(b, InvalidNumber(k)) && IsRequired(b, k) && k in b
    ensures IsNumeric(k) && InRange(b, k)
  {
    hide Is, UsesEstimate, UsesPosition, NumberWithin, Range, IsRequired;
    RequiredIsNumeric(b, k);
  }

  method CheckExit(b: Binding) returns (r: Option<Problem>)
    ensures r.Some? ==> EnabledFault(b, true, r.value)
    ensures r.None? ==> forall k :: !EnabledFault(b, true, MissingExitTarget(k))
  {
    if Truthy(Get(b, ControlledExitEnabled)) {
      for i := 0 to |EXIT_KEYS|
        invariant forall j :: 0 <= j < i ==> EXIT_KEYS[j] in b
      {
        if EXIT_KEYS[i] !in b {
          return Some(MissingExitTarget(EXIT_KEYS[i]));
        }
      }
    }
    return None;
  }

  /**
   Validation accepts a binding exactly when nothing is wrong with it, and names a real fault otherwise.
   The accepted binding is the given one with its two defaults filled in.
   */
  method ValidateBinding(b: Binding, supported: bool) returns (r: Verdict)
    ensures r.Accepted? <==> Acceptable(Normalised(b), supported)
    ensures r.Accepted? ==> r.binding == Normalised(b)
    ensures r.Rejected? ==> Present(Normalised(b), supported, r.problem)
  {
    var result := if Enabled in b then b else b[Enabled := Flag(false)];
    ghost var n := Normalised(b);
    var problem := CheckSupplied(result);
    if problem.Some? {
      TaskModeDefaultIsHarmless(result, problem.value);
      assert Present(n, supported, problem.value);
      return Rejected(problem.value);
    }
    forall p
      ensures !SuppliedFault(n, p)
    {
      TaskModeDefaultIsHarmless(result, p);
    }
    if !IsEnabled(result) {
      return Accepted(result);
    }
    if !supported {
      assert Present(n, supported, UnsupportedRobot);
      return Rejected(UnsupportedRobot);
    }
    if TaskDoorMode !in result {
      result := result[TaskDoorMode := Text("hold_open")];
    }
    problem := CheckEnabled(result);
    if problem.Some? {
      assert Present(n, supported, problem.value);
      return Rejected(problem.value);
    }
    return Accepted(result);
  }

  method CheckSupplied(b: Binding) returns (r: Option<Problem>)
    ensures r.Some? ==> SuppliedFault(b, r.value)
    ensures r.None? ==> forall p :: !SuppliedFault(b, p)
  {
    r := CheckSuppliedNumbers(b);
    if r.None? {
      r := CheckSuppliedNames(b);
    }
  }

  /** The checks of an enabled binding leave no fault out. */
  lemma ChecksAreComplete(b: Binding, p: Problem)
    requires HasSource(b, Open) && HasSource(b, Close)
    requires p.InvalidChoice? || p.InvalidEntity? || p.InvalidContact? || p == Missing(CoverEntity)
             || p.EstimateNotAccepted? || p.TimeoutTooShort? || p.HandoverRequired? || p.MissingExitTarget?
             ==> !EnabledFault(b, true, p)
    requires UsesPosition(b) ==> IsChoice(b, PositionKind) && InRange(b, Position(Open)) && InRange(b, Position(Close))
    requires TimingsInRange(b)
    ensures !EnabledFault(b, true, p)
  {
    if p.Missing? && (p.k.Source? || p.k.Position?) {
      assert p.k.d == Open || p.k.d == Close;
    }
  }

  method CheckEnabled(b: Binding) returns (r: Option<Problem>)
    requires forall p :: !SuppliedFault(b, p)
    ensures r.Some? ==> EnabledFault(b, true, r.value)
    ensures r.None? ==> forall p :: !EnabledFault(b, true, p)
  {
    r := CheckEndpoints(b);
    if r.Some? {
      return;
    }
    r := CheckPositions(b);
    if r.Some? {
      return;
    }
    r := CheckTimings(b);
    if r.Some? {
      return;
    }
    if !Truthy(Get(b, HandoverConfirmed)) {
      return Some(HandoverRequired);
    }
    r := CheckExit(b);
    if r.None? {
      forall p
        ensures !EnabledFault(b, true, p)
      {
        ChecksAreComplete(b, p);
      }
    }
  }

  lemma TaskModeDefaultIsHarmless(b: Binding, p: Problem)
    ensures SuppliedFault(if IsEnabled(b) && TaskDoorMode !in b then b[TaskDoorMode := Text("hold_open")] else b, p)
            == SuppliedFault(b, p)
  {
  }

  /** Validating an accepted binding again changes nothing. */
  lemma ValidationIsIdempotent(b: Binding, supported: bool)
    requires Acceptable(Normalised(b), supported)
    ensures Normalised(Normalised(b)) == Normalised(b)
    ensures Acceptable(Normalised(Normalised(b)), supported)
  {
  }

  /** What is suggested: the timings that are required, travel times apart, with these values, and a timeout. */
  lemma SuggestsExactly(b: Binding, k: Key)
    ensures k in Suggested(b)
            <==> || k == OperationTimeout
                 || (IsRequired(b, k) && k in {TravelMargin, ContactSettle, PositionSettle, DockSettle})
    ensures k in Suggested(b) && k != OperationTimeout ==>
              Suggested(b)[k]
              == Number(if k == TravelMargin then 10.0 else if k == ContactSettle then 0.0
                        else if k == PositionSettle then 2.0 else 5.0)
  {
    RequiredMeansConsumed(b, k);
  }
}
