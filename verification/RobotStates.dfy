/** Robot states by name, and the tables that classify them. */
module RobotStates {

  datatype RobotState =
    // on the dock
    | Charging | ChargingComplete | ChargingProblem | Updating | EmptyingTheBin
    | WashingTheMop | WashingTheMop2 | BackToDockWashingDuster | AttachingTheMop | DetachingTheMop
    // on the way back
    | ReturningHome | DockingNow | GoingToWashTheMop
    // moving
    | Cleaning | SegmentCleaning | ZonedCleaning | SpotCleaning | GoingToTarget | ManualMode | RemoteControlActive
    | Mapping | Patrol | Mopping(variant: string)
    // standing
    | Starting | Paused | Idle
    // not reported
    | Nameless | UnknownName | Unavailable
    | OtherState(name: string)

  /** Driving home: the door must be open. */
  predicate IsReturning(s: RobotState)
  {
    s.ReturningHome? || s.DockingNow? || s.GoingToWashTheMop?
  }

  /** Provably not moving and not cleaning. */
  predicate IsParked(s: RobotState)
  {
    s.Charging? || s.ChargingComplete? || s.Idle?
  }

  predicate IsUnreported(s: RobotState)
  {
    s.Nameless? || s.UnknownName? || s.Unavailable?
  }

  /** On the dock as far as trusting a position goes. */
  predicate IsDocked(s: RobotState)
  {
    s.Charging? || s.ChargingComplete? || s.ChargingProblem? || s.Updating? || s.EmptyingTheBin?
    || s.WashingTheMop? || s.WashingTheMop2? || s.BackToDockWashingDuster? || s.AttachingTheMop? || s.DetachingTheMop?
  }

  /** Certain to be travelling; only these states are assessed for a stuck robot. */
  predicate ShouldMove(s: RobotState)
  {
    s.Cleaning? || s.SegmentCleaning? || s.ZonedCleaning? || s.SpotCleaning? || s.ReturningHome? || s.DockingNow?
    || s.GoingToTarget? || s.GoingToWashTheMop? || s.ManualMode? || s.RemoteControlActive? || s.Mapping? || s.Patrol?
    || s.Mopping?
  }

  /** The tables of docked and of travelling states have no state in common. */
  lemma DockedStatesDoNotMove(s: RobotState)
    ensures !(IsDocked(s) && ShouldMove(s))
  {
  }

  /** A clean or dock task is still active: by the flags, or else by the state name. */
  predicate IsTaskActive(s: RobotState, inCleaning: bool, inReturning: bool)
  {
    inCleaning || inReturning
    || s.Starting? || s.RemoteControlActive? || s.Cleaning? || s.ManualMode? || s.Paused? || s.SpotCleaning?
    || s.DockingNow? || s.GoingToTarget? || s.ZonedCleaning? || s.SegmentCleaning? || s.EmptyingTheBin?
    || s.WashingTheMop? || s.GoingToWashTheMop?
  }

  /** How the tables lie to each other: which travelling states are no task, which tasks stand still. */
  lemma TablesExactly(s: RobotState)
    ensures ShouldMove(s) && !IsTaskActive(s, false, false)
            <==> s.ReturningHome? || s.Mapping? || s.Patrol? || s.Mopping?
    ensures IsTaskActive(s, false, false) && !ShouldMove(s)
            <==> s.Starting? || s.Paused? || s.EmptyingTheBin? || s.WashingTheMop?
    ensures IsReturning(s) <==> s in {ReturningHome, DockingNow, GoingToWashTheMop}
    ensures IsReturning(s) ==> ShouldMove(s)
    ensures IsDocked(s)
            <==> s in {Charging, ChargingComplete, ChargingProblem, Updating, EmptyingTheBin, WashingTheMop,
                       WashingTheMop2, BackToDockWashingDuster, AttachingTheMop, DetachingTheMop}
    ensures IsParked(s) && !IsDocked(s) <==> s.Idle?
    ensures IsDocked(s) && IsTaskActive(s, false, false) <==> s.EmptyingTheBin? || s.WashingTheMop?
  {
  }
}
