/** What a binding must be to be accepted, said field by field, and that validation asks for exactly that. */
module GarageRequirements {
  import opened Common
  import opened GarageBinding
  import opened GarageConfig

  // -- fields that are given --------------------------------------------------

  predicate Between(b: Binding, k: Key, low: real, high: real)
  {
    k in b && b[k].Number? && low <= b[k].n <= high
  }

  predicate FlagsSound(b: Binding)
  {
    && (Enabled in b ==> b[Enabled].Flag?)
    && (AllowEstimated in b ==> b[AllowEstimated].Flag?)
    && (HandoverConfirmed in b ==> b[HandoverConfirmed].Flag?)
    && (ControlledExitEnabled in b ==> b[ControlledExitEnabled].Flag?)
  }

  predicate NumbersSound(b: Binding)
  {
    && (Travel(Open) in b ==> Between(b, Travel(Open), 1.0, 600.0))
    && (Travel(Close) in b ==> Between(b, Travel(Close), 1.0, 600.0))
    && (TravelMargin in b ==> Between(b, TravelMargin, 0.0, 120.0))
    && (ContactSettle in b ==> Between(b, ContactSettle, 0.0, 60.0))
    && (PositionSettle in b ==> Between(b, PositionSettle, 0.0, 60.0))
    && (OperationTimeout in b ==> Between(b, OperationTimeout, 1.0, 1800.0))
    && (DockSettle in b ==> Between(b, DockSettle, 1.0, 300.0))
    && (ExitX in b ==> Between(b, ExitX, 0.0, 65535.0))
    && (ExitY in b ==> Between(b, ExitY, 0.0, 65535.0))
    && (ExitTimeout in b ==> Between(b, ExitTimeout, 10.0, 300.0))
    && (Position(Open) in b ==> Between(b, Position(Open), 0.0, 100.0))
    && (Position(Close) in b ==> Between(b, Position(Close), 0.0, 100.0))
  }

  predicate NotGiven(b: Binding, k: Key)
  {
    k !in b || b[k] == Null || b[k] == Text("")
  }

  predicate NamesSound(b: Binding)
  {
    && (NotGiven(b, CoverEntity) || IsEntity(Get(b, CoverEntity), "cover"))
    && (|| NotGiven(b, ClosePermission)
        || IsEntity(Get(b, ClosePermission), "input_boolean") || IsEntity(Get(b, ClosePermission), "binary_sensor"))
    && (NotGiven(b, Contact(Open)) || IsEntity(Get(b, Contact(Open)), "binary_sensor"))
    && (NotGiven(b, Contact(Close)) || IsEntity(Get(b, Contact(Close)), "binary_sensor"))
    && (Truthy(Get(b, Contact(Open))) ==> Get(b, Contact(Open)) != Get(b, Contact(Close)))
  }

  predicate OneOf(b: Binding, k: Key, words: seq<string>)
  {
    exists i :: 0 <= i < |words| && Is(b, k, words[i])
  }

  predicate ChoicesSound(b: Binding)
  {
    && (NotGiven(b, TaskDoorMode) || OneOf(b, TaskDoorMode, ["hold_open", "after_exit"]))
    && (NotGiven(b, Source(Open)) || OneOf(b, Source(Open), ["contact", "position", "timed"]))
    && (NotGiven(b, Source(Close)) || OneOf(b, Source(Close), ["contact", "position", "timed"]))
    && (NotGiven(b, ContactState(Open)) || OneOf(b, ContactState(Open), ["on", "off"]))
    && (NotGiven(b, ContactState(Close)) || OneOf(b, ContactState(Close), ["on", "off"]))
    && (NotGiven(b, PositionKind) || OneOf(b, PositionKind, ["measured", "estimated"]))
  }

  /** Whatever is given is sound, whether or not the binding is enabled or complete. */
  predicate SoundWhereGiven(b: Binding)
  {
    && FlagsSound(b) && NumbersSound(b) && NamesSound(b) && ChoicesSound(b)
    && (Get(b, Position(Open)).Number? && Get(b, Position(Close)).Number? ==>
          Get(b, Position(Close)).n < Get(b, Position(Open)).n)
  }

  // -- what an enabled binding needs ------------------------------------------

  predicate SourceComplete(b: Binding, d: Direction)
  {
    && (Is(b, Source(d), "contact") || Is(b, Source(d), "position") || Is(b, Source(d), "timed"))
    && (Is(b, Source(d), "contact") ==>
          && IsEntity(Get(b, Contact(d)), "binary_sensor")
          && (Is(b, ContactState(d), "on") || Is(b, ContactState(d), "off"))
          && Between(b, ContactSettle, 0.0, 60.0))
    && (Is(b, Source(d), "position") ==>
          && (Is(b, PositionKind, "measured") || Is(b, PositionKind, "estimated"))
          && Between(b, Position(Open), 0.0, 100.0) && Between(b, Position(Close), 0.0, 100.0)
          && b[Position(Close)].n < b[Position(Open)].n
          && Between(b, PositionSettle, 0.0, 60.0))
    && (Is(b, Source(d), "timed") || (Is(b, Source(d), "position") && Is(b, PositionKind, "estimated")) ==>
          && Get(b, AllowEstimated) == Flag(true)
          && Between(b, Travel(d), 1.0, 600.0) && Between(b, TravelMargin, 0.0, 120.0))
  }

  /** The timeout leaves each endpoint the time its evidence may need. */
  predicate TimeoutSuffices(b: Binding, d: Direction)
    requires SourceComplete(b, d) && Between(b, OperationTimeout, 1.0, 1800.0)
  {
    var timeout := b[OperationTimeout].n;
    if Is(b, Source(d), "contact") then b[ContactSettle].n < timeout
    else if Is(b, Source(d), "timed") then b[Travel(d)].n + b[TravelMargin].n < timeout
    else if Is(b, PositionKind, "estimated") then
      b[PositionSettle].n + b[Travel(d)].n + b[TravelMargin].n < timeout
    else b[PositionSettle].n < timeout
  }

  predicate Complete(b: Binding)
  {
    && (TaskDoorMode in b ==> Is(b, TaskDoorMode, "hold_open") || Is(b, TaskDoorMode, "after_exit"))
    && IsEntity(Get(b, CoverEntity), "cover")
    && SourceComplete(b, Open) && SourceComplete(b, Close)
    && Between(b, OperationTimeout, 1.0, 1800.0) && Between(b, DockSettle, 1.0, 300.0)
    && TimeoutSuffices(b, Open) && TimeoutSuffices(b, Close)
    && Get(b, HandoverConfirmed) == Flag(true)
    && (Get(b, ControlledExitEnabled) == Flag(true) ==>
          && Between(b, ExitX, 0.0, 65535.0) && Between(b, ExitY, 0.0, 65535.0)
          && Between(b, ExitTimeout, 10.0, 300.0))
  }

  // -- validation asks for exactly that ---------------------------------------

  lemma FlagsExactly(b: Binding)
    ensures FlagsSound(b) <==> forall k :: !SuppliedFault(b, InvalidBoolean(k))
  {
    assert BOOLEAN_KEYS[0] == Enabled && BOOLEAN_KEYS[1] == AllowEstimated;
    assert BOOLEAN_KEYS[2] == HandoverConfirmed && BOOLEAN_KEYS[3] == ControlledExitEnabled;
    if forall k :: !SuppliedFault(b, InvalidBoolean(k)) {
      assert !SuppliedFault(b, InvalidBoolean(Enabled)) && !SuppliedFault(b, InvalidBoolean(AllowEstimated));
      assert !SuppliedFault(b, InvalidBoolean(HandoverConfirmed));
      assert !SuppliedFault(b, InvalidBoolean(ControlledExitEnabled));
    }
  }

  lemma NumberExactly(b: Binding, k: Key)
    requires IsNumeric(k)
    ensures k in SUPPLIED_NUMBERS
    ensures SuppliedFault(b, InvalidNumber(k)) <==> k in b && !Between(b, k, Range(k).0, Range(k).1)
  {
    assert SUPPLIED_NUMBERS[0] == Travel(Open) && SUPPLIED_NUMBERS[1] == Travel(Close);
    assert SUPPLIED_NUMBERS[2] == TravelMargin && SUPPLIED_NUMBERS[3] == ContactSettle;
    assert SUPPLIED_NUMBERS[4] == PositionSettle && SUPPLIED_NUMBERS[5] == OperationTimeout;
    assert SUPPLIED_NUMBERS[6] == DockSettle && SUPPLIED_NUMBERS[7] == ExitX && SUPPLIED_NUMBERS[8] == ExitY;
    assert SUPPLIED_NUMBERS[9] == ExitTimeout;
    assert SUPPLIED_NUMBERS[10] == Position(Open) && SUPPLIED_NUMBERS[11] == Position(Close);
    if k.Travel? {
      assert k.d == Open || k.d == Close;
    }
    if k.Position? {
      assert k.d == Open || k.d == Close;
    }
  }

  lemma NumbersExactly(b: Binding)
    ensures NumbersSound(b) <==> forall k :: !SuppliedFault(b, InvalidNumber(k))
  {
    hide SuppliedFault, Between;
    if forall k :: !SuppliedFault(b, InvalidNumber(k)) {
      forall k | IsNumeric(k)
        ensures k in b ==> Between(b, k, Range(k).0, Range(k).1)
      {
        NumberExactly(b, k);
      }
    } else {
      var k :| SuppliedFault(b, InvalidNumber(k));
      assert IsNumeric(k) by { FaultIsNumeric(b, k); }
      NumberExactly(b, k);
      if k.Travel? {
        assert k.d == Open || k.d == Close;
      }
      if k.Position? {
        assert k.d == Open || k.d == Close;
      }
    }
  }

  lemma FaultIsNumeric(b: Binding, k: Key)
    requires SuppliedFault(b, InvalidNumber(k))
    ensures IsNumeric(k)
  {
  }

  lemma EntityExactly(b: Binding, k: Key)
    ensures NamesEntity(b, k)
            <==> match k
                 case CoverEntity => IsEntity(Get(b, k), "cover")
                 case ClosePermission => IsEntity(Get(b, k), "input_boolean") || IsEntity(Get(b, k), "binary_sensor")
                 case Contact(_) => IsEntity(Get(b, k), "binary_sensor")
                 case _ => false
  {
    hide IsEntity;
    var domains := Domains(k);
    if k.ClosePermission? {
      assert domains[0] == "input_boolean" && domains[1] == "binary_sensor";
    } else if k.CoverEntity? {
      assert domains[0] == "cover";
    } else if k.Contact? {
      assert domains[0] == "binary_sensor";
    }
  }

  lemma NamesExactly(b: Binding)
    ensures NamesSound(b)
            <==> (forall k :: !SuppliedFault(b, InvalidEntity(k))) && !SuppliedFault(b, DuplicateEndpoint)
  {
    hide IsEntity, NamesEntity;
    assert ENTITY_KEYS[0] == CoverEntity && ENTITY_KEYS[1] == ClosePermission;
    assert ENTITY_KEYS[2] == Contact(Open) && ENTITY_KEYS[3] == Contact(Close);
    EntityExactly(b, CoverEntity);
    EntityExactly(b, ClosePermission);
    EntityExactly(b, Contact(Open));
    EntityExactly(b, Contact(Close));
    if forall k :: !SuppliedFault(b, InvalidEntity(k)) {
      assert !SuppliedFault(b, InvalidEntity(CoverEntity)) && !SuppliedFault(b, InvalidEntity(ClosePermission));
      assert !SuppliedFault(b, InvalidEntity(Contact(Open))) && !SuppliedFault(b, InvalidEntity(Contact(Close)));
    }
  }

  lemma ChoiceExactly(b: Binding, k: Key)
    ensures IsChoice(b, k)
            <==> match k
                 case TaskDoorMode => OneOf(b, k, ["hold_open", "after_exit"])
                 case Source(_) => OneOf(b, k, ["contact", "position", "timed"])
                 case ContactState(_) => OneOf(b, k, ["on", "off"])
                 case PositionKind => OneOf(b, k, ["measured", "estimated"])
                 case _ => false
  {
    var words := Choices(k);
    if IsChoice(b, k) {
      var i :| 0 <= i < |words| && words[i] == Get(b, k).s;
      assert Is(b, k, words[i]);
    }
  }

  lemma BlankExactly(b: Binding, k: Key)
    ensures Blank(b, k) <==> NotGiven(b, k)
  {
  }

  const CHOOSABLE := {TaskDoorMode, Source(Open), Source(Close), ContactState(Open), ContactState(Close), PositionKind}

  lemma ChoiceFaultExactly(b: Binding, k: Key)
    ensures k in CHOICE_KEYS <==> k in CHOOSABLE
    ensures SuppliedFault(b, InvalidChoice(k)) <==> k in CHOICE_KEYS && !NotGiven(b, k) && !IsChoice(b, k)
  {
    hide IsChoice;
    BlankExactly(b, k);
    assert CHOICE_KEYS[0] == TaskDoorMode && CHOICE_KEYS[1] == Source(Open) && CHOICE_KEYS[2] == Source(Close);
    assert CHOICE_KEYS[3] == ContactState(Open) && CHOICE_KEYS[4] == ContactState(Close);
    assert CHOICE_KEYS[5] == PositionKind;
  }

  lemma ChoicesExactly(b: Binding)
    ensures ChoicesSound(b) <==> forall k :: !SuppliedFault(b, InvalidChoice(k))
  {
    hide IsChoice, OneOf, NotGiven, SuppliedFault;
    ChoiceExactly(b, TaskDoorMode);
    ChoiceExactly(b, Source(Open));
    ChoiceExactly(b, Source(Close));
    ChoiceExactly(b, ContactState(Open));
    ChoiceExactly(b, ContactState(Close));
    ChoiceExactly(b, PositionKind);
    forall k
      ensures SuppliedFault(b, InvalidChoice(k)) <==> k in CHOICE_KEYS && !NotGiven(b, k) && !IsChoice(b, k)
      ensures k in CHOICE_KEYS <==> k in CHOOSABLE
    {
      ChoiceFaultExactly(b, k);
    }
  }

  lemma SuppliedExactly(b: Binding)
    ensures SoundWhereGiven(b) <==> forall p :: !SuppliedFault(b, p)
  {
    FlagsExactly(b);
    NumbersExactly(b);
    NamesExactly(b);
    ChoicesExactly(b);
    hide FlagsSound, NumbersSound, NamesSound, ChoicesSound;
    assert SuppliedFault(b, InvalidThresholds)
           <==> Get(b, Position(Open)).Number? && Get(b, Position(Close)).Number?
                && !(Get(b, Position(Close)).n < Get(b, Position(Open)).n);
    assert forall p: Problem :: p.UnsupportedRobot? || p.Missing? || p.InvalidContact? || p.InvalidPositionKind?
                       || p.EstimateNotAccepted? || p.TimeoutTooShort? || p.HandoverRequired? || p.MissingExitTarget?
                       ==> !SuppliedFault(b, p);
    hide SuppliedFault;
  }

  // -- an enabled binding -----------------------------------------------------

  lemma GivenIsBetween(b: Binding, k: Key)
    requires NumbersSound(b) && IsNumeric(k) && k in b
    ensures Between(b, k, Range(k).0, Range(k).1) && InRange(b, k)
  {
    if k.Travel? || k.Position? {
      assert k.d == Open || k.d == Close;
    }
  }

  lemma RequiredIsGiven(b: Binding, k: Key)
    requires NumbersSound(b) && !EnabledFault(b, true, Missing(k)) && IsRequired(b, k)
    ensures IsNumeric(k) && Between(b, k, Range(k).0, Range(k).1)
  {
    RequiredIsNumeric(b, k);
    assert k in b;
    GivenIsBetween(b, k);
  }

  ghost predicate Faultless(b: Binding)
  {
    forall p :: !EnabledFault(b, true, p)
  }

  lemma FaultlessContact(b: Binding, d: Direction)
    requires SoundWhereGiven(b) && Faultless(b) && Is(b, Source(d), "contact")
    ensures IsEntity(Get(b, Contact(d)), "binary_sensor") && OnOrOff(Get(b, ContactState(d)))
    ensures Between(b, ContactSettle, 0.0, 60.0)
  {
    assert !EnabledFault(b, true, InvalidContact(d)) && !EnabledFault(b, true, Missing(ContactSettle));
    assert d == Open || d == Close;
    RequiredIsGiven(b, ContactSettle);
    hide NumbersSound, ChoicesSound, FlagsSound, IsEntity;
  }

  lemma FaultlessPosition(b: Binding, d: Direction)
    requires SoundWhereGiven(b) && Faultless(b) && Is(b, Source(d), "position")
    ensures Is(b, PositionKind, "measured") || Is(b, PositionKind, "estimated")
    ensures Between(b, Position(Open), 0.0, 100.0) && Between(b, Position(Close), 0.0, 100.0)
    ensures b[Position(Close)].n < b[Position(Open)].n && Between(b, PositionSettle, 0.0, 60.0)
  {
    assert d == Open || d == Close;
    assert UsesPosition(b);
    assert !EnabledFault(b, true, InvalidPositionKind) && !EnabledFault(b, true, Missing(PositionSettle));
    assert !EnabledFault(b, true, Missing(Position(Open))) && !EnabledFault(b, true, Missing(Position(Close)));
    RequiredIsGiven(b, PositionSettle);
    GivenIsBetween(b, Position(Open));
    GivenIsBetween(b, Position(Close));
    ChoiceExactly(b, PositionKind);
    hide NumbersSound, ChoicesSound, FlagsSound, NamesSound;
  }

  lemma FaultlessEstimate(b: Binding, d: Direction)
    requires SoundWhereGiven(b) && Faultless(b) && UsesEstimate(b, d)
    ensures Get(b, AllowEstimated) == Flag(true)
    ensures Between(b, Travel(d), 1.0, 600.0) && Between(b, TravelMargin, 0.0, 120.0)
  {
    assert d == Open || d == Close;
    assert !EnabledFault(b, true, EstimateNotAccepted);
    assert !EnabledFault(b, true, Missing(Travel(d))) && !EnabledFault(b, true, Missing(TravelMargin));
    RequiredIsGiven(b, Travel(d));
    RequiredIsGiven(b, TravelMargin);
    hide NumbersSound, ChoicesSound, NamesSound;
  }

  lemma FaultlessSource(b: Binding, d: Direction)
    requires SoundWhereGiven(b) && Faultless(b)
    ensures SourceComplete(b, d)
  {
    assert !EnabledFault(b, true, Missing(Source(d))) && !EnabledFault(b, true, InvalidChoice(Source(d)));
    ChoiceExactly(b, Source(d));
    if Is(b, Source(d), "contact") {
      FaultlessContact(b, d);
    }
    if Is(b, Source(d), "position") {
      FaultlessPosition(b, d);
    }
    if UsesEstimate(b, d) {
      FaultlessEstimate(b, d);
    }
    hide SoundWhereGiven, Faultless, IsEntity, Between;
  }

  /** The wait of a complete source is what the timeout is compared with. */
  lemma WaitExactly(b: Binding, d: Direction)
    requires SourceComplete(b, d) && Between(b, OperationTimeout, 1.0, 1800.0)
    ensures WaitKnown(b, d) && (Wait(b, d) < b[OperationTimeout].n <==> TimeoutSuffices(b, d))
  {
    assert d == Open || d == Close;
    hide IsEntity;
  }

  lemma FaultlessBasics(b: Binding)
    requires SoundWhereGiven(b) && Faultless(b)
    ensures TaskDoorMode in b ==> Is(b, TaskDoorMode, "hold_open") || Is(b, TaskDoorMode, "after_exit")
    ensures IsEntity(Get(b, CoverEntity), "cover") && Get(b, HandoverConfirmed) == Flag(true)
  {
    assert !EnabledFault(b, true, InvalidChoice(TaskDoorMode));
    ChoiceExactly(b, TaskDoorMode);
    assert !EnabledFault(b, true, Missing(CoverEntity)) && !EnabledFault(b, true, InvalidEntity(CoverEntity));
    EntityExactly(b, CoverEntity);
    assert !EnabledFault(b, true, HandoverRequired);
    hide NumbersSound, NamesSound, ChoicesSound, IsEntity, NamesEntity, IsChoice;
  }

  lemma FaultlessTimeout(b: Binding)
    requires SoundWhereGiven(b) && Faultless(b) && SourceComplete(b, Open) && SourceComplete(b, Close)
    ensures Between(b, OperationTimeout, 1.0, 1800.0) && Between(b, DockSettle, 1.0, 300.0)
    ensures TimeoutSuffices(b, Open) && TimeoutSuffices(b, Close)
  {
    assert !EnabledFault(b, true, Missing(OperationTimeout)) && !EnabledFault(b, true, Missing(DockSettle));
    RequiredIsGiven(b, OperationTimeout);
    RequiredIsGiven(b, DockSettle);
    GivenIsBetween(b, OperationTimeout);
    WaitExactly(b, Open);
    WaitExactly(b, Close);
    assert !EnabledFault(b, true, TimeoutTooShort);
    hide SoundWhereGiven, SourceComplete, WaitKnown, Wait, TimeoutSuffices;
  }

  lemma FaultlessExit(b: Binding)
    requires SoundWhereGiven(b) && Faultless(b) && Get(b, ControlledExitEnabled) == Flag(true)
    ensures Between(b, ExitX, 0.0, 65535.0) && Between(b, ExitY, 0.0, 65535.0) && Between(b, ExitTimeout, 10.0, 300.0)
  {
    assert EXIT_KEYS[0] == ExitX && EXIT_KEYS[1] == ExitY && EXIT_KEYS[2] == ExitTimeout;
    assert !EnabledFault(b, true, MissingExitTarget(ExitX)) && !EnabledFault(b, true, MissingExitTarget(ExitY));
    assert !EnabledFault(b, true, MissingExitTarget(ExitTimeout));
    GivenIsBetween(b, ExitX);
    GivenIsBetween(b, ExitY);
    GivenIsBetween(b, ExitTimeout);
  }

  lemma FaultlessIsComplete(b: Binding)
    requires SoundWhereGiven(b) && Faultless(b)
    ensures Complete(b)
  {
    FaultlessBasics(b);
    FaultlessSource(b, Open);
    FaultlessSource(b, Close);
    FaultlessTimeout(b);
    if Get(b, ControlledExitEnabled) == Flag(true) {
      FaultlessExit(b);
    }
    hide SoundWhereGiven, Faultless, SourceComplete, IsEntity, TimeoutSuffices, Between;
  }

  lemma CompleteIsFaultless(b: Binding, p: Problem)
    requires SoundWhereGiven(b) && Complete(b)
    ensures !EnabledFault(b, true, p)
  {
    hide IsEntity, NumbersSound, ChoicesSound, NamesSound;
    match p
    case TimeoutTooShort =>
      WaitExactly(b, Open);
      WaitExactly(b, Close);
    case InvalidChoice(k) =>
      ChoiceExactly(b, k);
      if k.Source? {
        assert k.d == Open || k.d == Close;
      }
      SomeWord(b, k);
    case InvalidEntity(k) => EntityExactly(b, k);
    case Missing(k) =>
      EntityIsGiven(b, CoverEntity, "cover");
      if k.Source? || k.Position? || k.Travel? {
        assert k.d == Open || k.d == Close;
      }
    case InvalidContact(d) =>
      assert d == Open || d == Close;
      if Is(b, Source(d), "contact") {
        EntityIsGiven(b, Contact(d), "binary_sensor");
      }
    case InvalidPositionKind => ChoiceExactly(b, PositionKind);
    case MissingExitTarget(k) =>
      assert EXIT_KEYS[0] == ExitX && EXIT_KEYS[1] == ExitY && EXIT_KEYS[2] == ExitTimeout;
    case _ =>
  }

  lemma EntityIsGiven(b: Binding, k: Key, domain: string)
    requires IsEntity(Get(b, k), domain)
    ensures k in b && Truthy(Get(b, k))
  {
  }

  lemma SomeWord(b: Binding, k: Key)
    ensures k == TaskDoorMode && (Is(b, k, "hold_open") || Is(b, k, "after_exit")) ==> IsChoice(b, k)
    ensures k.Source? && (Is(b, k, "contact") || Is(b, k, "position") || Is(b, k, "timed")) ==> IsChoice(b, k)
    ensures k == PositionKind && (Is(b, k, "measured") || Is(b, k, "estimated")) ==> IsChoice(b, k)
  {
  }

  /**
   Exactly: a binding is accepted if and only if everything given in it is sound and, when it is enabled, the robot
   is supported and nothing an enabled binding needs is missing.
   */
  lemma AcceptedExactly(b: Binding, supported: bool)
    ensures Acceptable(b, supported) <==> SoundWhereGiven(b) && (IsEnabled(b) ==> supported && Complete(b))
  {
    SuppliedExactly(b);
    AcceptableSplits(b, supported);
    SupportMatters(b, supported);
    hide SoundWhereGiven, Complete, SuppliedFault, EnabledFault, Acceptable;
    if SoundWhereGiven(b) {
      if Complete(b) {
        forall p
          ensures !EnabledFault(b, true, p)
        {
          CompleteIsFaultless(b, p);
        }
      } else if Faultless(b) {
        FaultlessIsComplete(b);
      }
    }
  }

  lemma AcceptableSplits(b: Binding, supported: bool)
    ensures Acceptable(b, supported)
            <==> && (forall p :: !SuppliedFault(b, p))
                 && (IsEnabled(b) ==> forall p :: !EnabledFault(b, supported, p))
  {
    hide SuppliedFault, EnabledFault;
    if Acceptable(b, supported) {
      forall p
        ensures !SuppliedFault(b, p) && (IsEnabled(b) ==> !EnabledFault(b, supported, p))
      {
        assert !Present(b, supported, p);
      }
    }
  }

  lemma SupportMatters(b: Binding, supported: bool)
    ensures (forall p :: !EnabledFault(b, supported, p)) <==> supported && Faultless(b)
  {
    if !supported {
      assert EnabledFault(b, supported, UnsupportedRobot);
    }
  }
}
