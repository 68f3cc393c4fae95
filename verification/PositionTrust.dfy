/** Which sampled positions may be believed, and what "outside" then means. */
module PositionTrust {
  import opened Common
  import opened RobotStates
  import opened GarageDoor
  import MapPosition

  const DOCK_TOLERANCE := 1000.0

  /** A marker on the map; either coordinate may be missing or unusable. */
  datatype Marker = Marker(x: Option<real>, y: Option<real>) {
    predicate Known() {
      x.Some? && y.Some?
    }
  }

  datatype TrustReason =
    | SampleTooOld | MissingPosition | NotDocked | DockedWithoutReference
    | DockedPositionFromCharger | DockedAtCharger | DockedStalePositionReplaced

  datatype Resolved = Resolved(at: Marker, trusted: bool, reason: TrustReason, fromDock: bool)

  const NOWHERE := Marker(None, None)

  function Resolve(state: RobotState, position: Marker, charger: Marker): Resolved
  {
    if !IsDocked(state) then
      if !position.Known() then Resolved(NOWHERE, false, MissingPosition, false)
      else Resolved(position, true, NotDocked, false)
    else if !charger.Known() then Resolved(NOWHERE, false, DockedWithoutReference, false)
    else if !position.Known() then Resolved(charger, true, DockedPositionFromCharger, true)
    else if Within(position.x.value, position.y.value, charger.x.value, charger.y.value, DOCK_TOLERANCE) then
      Resolved(position, true, DockedAtCharger, false)
    else Resolved(charger, true, DockedStalePositionReplaced, true)
  }

  /** A trusted position of a docked robot is within the tolerance of the charger marker. */
  lemma DockedMeansAtCharger(state: RobotState, position: Marker, charger: Marker)
    requires IsDocked(state) && Resolve(state, position, charger).trusted
    ensures var at := Resolve(state, position, charger).at;
            at.Known() && charger.Known()
            && Within(at.x.value, at.y.value, charger.x.value, charger.y.value, DOCK_TOLERANCE)
  {
  }

  // -- the robot reading of the garage ----------------------------------------

  datatype Zone = Zone(minX: real, maxX: real, minY: real, maxY: real) {
    predicate Proper() {
      minX < maxX && minY < maxY
    }

    predicate Contains(x: real, y: real) {
      minX <= x <= maxX && minY <= y <= maxY
    }

    /** The zone covers everything up to the dock tolerance around a point, in both axes. */
    predicate CoversDock(x: real, y: real) {
      Contains(x - DOCK_TOLERANCE, y - DOCK_TOLERANCE) && Contains(x + DOCK_TOLERANCE, y + DOCK_TOLERANCE)
    }
  }

  /**
   Everything one robot reading is computed from. The sampled status is a copy taken by the last poll, the
   live one is read now and may have moved on; `lastRead` is when the map was last read.
   */
  datatype Source = Source(
    sampleState: RobotState,
    inCleaning: bool,
    inReturning: bool,
    isFresh: bool,
    statusState: RobotState,
    statusInCleaning: bool,
    statusInReturning: bool,
    now: real,
    lastRead: Option<real>,
    activeInterval: real,
    position: Marker,
    charger: Marker,
    zone: Option<Zone>)
  {
    predicate SampleActive() {
      IsTaskActive(sampleState, inCleaning, inReturning)
    }

    predicate StatusActive() {
      IsTaskActive(statusState, statusInCleaning, statusInReturning)
    }

    predicate MapIsFresh() {
      MapPosition.IsFresh(now, lastRead, StatusActive(), activeInterval)
    }

    predicate MapIsStamped() {
      lastRead.Some? && 0.0 <= lastRead.value <= now
    }
  }

  function ResolvedPosition(s: Source): Resolved
  {
    if !s.MapIsFresh() then Resolved(NOWHERE, false, SampleTooOld, false)
    else Resolve(s.statusState, s.position, s.charger)
  }

  predicate IsCharging(s: RobotState)
  {
    s.Charging? || s.ChargingComplete?
  }

  predicate PositionTrusted(s: Source)
  {
    var at := ResolvedPosition(s).at;
    && ResolvedPosition(s).trusted && at.Known() && s.charger.Known()
    && s.zone.Some? && s.zone.value.Proper() && s.zone.value.Contains(s.charger.x.value, s.charger.y.value)
    && (IsCharging(s.sampleState) ==>
          Within(at.x.value, at.y.value, s.charger.x.value, s.charger.y.value, DOCK_TOLERANCE))
  }

  function Observation(s: Source): Robot
  {
    var at := ResolvedPosition(s).at;
    Robot(
      s.sampleState,
      IsCharging(s.sampleState),
      s.isFresh,
      PositionTrusted(s),
      if PositionTrusted(s) && s.isFresh && s.MapIsStamped() then
        Some(!s.zone.value.Contains(at.x.value, at.y.value))
      else None,
      Some(s.SampleActive()))
  }

  lemma WithinBoundsBothAxes(x: real, y: real, ax: real, ay: real)
    requires Within(x, y, ax, ay, DOCK_TOLERANCE)
    ensures ax - DOCK_TOLERANCE <= x <= ax + DOCK_TOLERANCE
    ensures ay - DOCK_TOLERANCE <= y <= ay + DOCK_TOLERANCE
  {
  }

  /** "Outside" is a statement about a current, corroborated position beyond a proper zone around the charger. */
  lemma OutsideMeansOutside(s: Source)
    ensures Observation(s).Outside()
            <==> && s.isFresh && s.MapIsFresh() && s.MapIsStamped() && !IsCharging(s.sampleState)
                 && PositionTrusted(s)
                 && !s.zone.value.Contains(ResolvedPosition(s).at.x.value, ResolvedPosition(s).at.y.value)
  {
  }

  /**
   When the danger zone covers the surroundings of the dock, no docked robot is ever read as outside,
   whether it is the status or the sampled state that says it is docked.
   */
  lemma DockedIsNeverOutside(s: Source)
    requires s.zone.Some? && s.charger.Known() && s.zone.value.CoversDock(s.charger.x.value, s.charger.y.value)
    requires IsDocked(s.statusState) || IsCharging(s.sampleState)
    ensures Observation(s).outsideDangerZone != Some(true) && !Observation(s).Outside()
  {
    if PositionTrusted(s) {
      if IsDocked(s.statusState) {
        DockedMeansAtCharger(s.statusState, s.position, s.charger);
      }
      var at := ResolvedPosition(s).at;
      WithinBoundsBothAxes(at.x.value, at.y.value, s.charger.x.value, s.charger.y.value);
    }
  }

  /** A charging robot never counts as outside, whatever the zone is. */
  lemma ChargingIsNeverOutside(s: Source)
    requires IsCharging(s.sampleState)
    ensures !Observation(s).Outside()
  {
  }

  function WashingAt(x: real, y: real, charger: Marker, zone: Zone): Source
  {
    Source(
      WashingTheMop, true, false, true, WashingTheMop, true, false, 1.0, Some(0.0), 60.0,
      Marker(Some(x), Some(y)), charger, Some(zone))
  }

  /** The farthest point from the charger, along one axis, that still counts as docked; outside the zone if any is. */
  function Farthest(z: Zone, cx: real, cy: real): (real, real)
  {
    if !z.Contains(cx - DOCK_TOLERANCE, cy) then (cx - DOCK_TOLERANCE, cy)
    else if !z.Contains(cx + DOCK_TOLERANCE, cy) then (cx + DOCK_TOLERANCE, cy)
    else if !z.Contains(cx, cy - DOCK_TOLERANCE) then (cx, cy - DOCK_TOLERANCE)
    else (cx, cy + DOCK_TOLERANCE)
  }

  /** A robot that washes its mop at that point is read as outside. */
  lemma NarrowZoneLosesDockedRobot(z: Zone, cx: real, cy: real)
    requires z.Proper() && z.Contains(cx, cy) && !z.CoversDock(cx, cy)
    ensures var (x, y) := Farthest(z, cx, cy);
            Observation(WashingAt(x, y, Marker(Some(cx), Some(cy)), z)).Outside()
  {
    var (x, y) := Farthest(z, cx, cy);
    assert Within(x, y, cx, cy, DOCK_TOLERANCE);
    OutsideMeansOutside(WashingAt(x, y, Marker(Some(cx), Some(cy)), z));
  }

  /** The premise on the zone is exact: it covers the dock's surroundings iff no docked robot is ever read outside. */
  lemma DockedNeverOutsideExactly(z: Zone, cx: real, cy: real)
    requires z.Proper() && z.Contains(cx, cy)
    ensures z.CoversDock(cx, cy)
            <==> forall s: Source ::
                   && s.zone == Some(z) && s.charger == Marker(Some(cx), Some(cy))
                   && (IsDocked(s.statusState) || IsCharging(s.sampleState)) ==>
                     !Observation(s).Outside()
  {
    if z.CoversDock(cx, cy) {
      forall s: Source | && s.zone == Some(z) && s.charger == Marker(Some(cx), Some(cy))
                         && (IsDocked(s.statusState) || IsCharging(s.sampleState))
        ensures !Observation(s).Outside()
      {
        if IsCharging(s.sampleState) {
          ChargingIsNeverOutside(s);
        } else {
          DockedIsNeverOutside(s);
        }
      }
    } else {
      NarrowZoneLosesDockedRobot(z, cx, cy);
      var (x, y) := Farthest(z, cx, cy);
      var s := WashingAt(x, y, Marker(Some(cx), Some(cy)), z);
      assert IsDocked(s.statusState) && Observation(s).Outside();
    }
  }

  // -- how old a position may be ----------------------------------------------

  /** The position was brought in by a read of the run `h` no more than two active intervals ago. */
  ghost predicate ReadRecently(official: bool, h: seq<MapPosition.Occurrence>, s: Source)
  {
    exists k ::
      && 0 <= k < |h| && MapPosition.BringsPosition(official, h, k)
      && s.now - h[k].now <= s.activeInterval * MapPosition.MAX_AGE_INTERVALS
  }

  /** In every run of the schedule: while the live status says that a task is active, only a recent read is trusted. */
  lemma ActiveTaskNeedsRecentRead(official: bool, h: seq<MapPosition.Occurrence>, s: Source)
    requires MapPosition.Ordered(h) && s.lastRead == MapPosition.Run(official, h).lastUpdate
    requires s.StatusActive() && PositionTrusted(s)
    ensures ReadRecently(official, h, s)
  {
    MapPosition.FreshExactlyWhenReadRecently(official, h, s.now, s.activeInterval);
  }

  /** A robot cleaning in front of the zone, as a map read `age` seconds ago shows it. */
  function CleaningOutside(statusState: RobotState, activeInterval: real, age: real): Source
  {
    Source(
      Cleaning, true, false, true, statusState, false, false, age, Some(0.0), activeInterval,
      Marker(Some(0.0), Some(900.0)), Marker(Some(0.0), Some(0.0)), Some(Zone(-500.0, 500.0, -500.0, 500.0)))
  }

  /**
   Exactly: while the sample says that a task is active, a robot can be read as outside from a position of a
   given age if and only if the age is within two active intervals or the live status says there is no task.
   */
  lemma PositionAgeExactly(statusActive: bool, activeInterval: real, age: NonNegative)
    ensures (exists s: Source ::
               && s.SampleActive() && s.StatusActive() == statusActive && s.activeInterval == activeInterval
               && s.lastRead == Some(s.now - age) && Observation(s).Outside())
            <==> !statusActive || age <= activeInterval * MapPosition.MAX_AGE_INTERVALS
  {
    if !statusActive || age <= activeInterval * MapPosition.MAX_AGE_INTERVALS {
      var s := CleaningOutside(if statusActive then Cleaning else Idle, activeInterval, age);
      assert s.SampleActive() && s.StatusActive() == statusActive && Observation(s).Outside();
    }
  }

  // -- what is trusted --------------------------------------------------------

  /** Away from the dock the map is believed as it is; on the dock only as far as it agrees with the charger. */
  lemma ResolveExactly(state: RobotState, position: Marker, charger: Marker)
    ensures var r := Resolve(state, position, charger);
            && (r.trusted <==> if IsDocked(state) then charger.Known() else position.Known())
            && (r.trusted && !IsDocked(state) ==> r.at == position && !r.fromDock)
            && (r.trusted && IsDocked(state) ==>
                  if position.Known()
                     && Within(position.x.value, position.y.value, charger.x.value, charger.y.value, 1000.0)
                  then r.at == position && !r.fromDock else r.at == charger && r.fromDock)
  {
  }

  /** A position counts only with a proper zone around the charger, and near the charger while charging. */
  lemma TrustedExactly(s: Source)
    ensures PositionTrusted(s)
            <==> && s.MapIsFresh() && Resolve(s.statusState, s.position, s.charger).trusted && s.charger.Known()
                 && s.zone.Some?
                 && s.zone.value.minX < s.zone.value.maxX && s.zone.value.minY < s.zone.value.maxY
                 && s.zone.value.minX <= s.charger.x.value <= s.zone.value.maxX
                 && s.zone.value.minY <= s.charger.y.value <= s.zone.value.maxY
                 && (s.sampleState in {Charging, ChargingComplete} ==>
                       var at := Resolve(s.statusState, s.position, s.charger).at;
                       && at.Known()
                       && Within(at.x.value, at.y.value, s.charger.x.value, s.charger.y.value, 1000.0))
  {
    ResolveExactly(s.statusState, s.position, s.charger);
  }

  /** "Inside" is a statement about the zone as well, under the same conditions; anything else is unknown. */
  lemma InsideMeansInside(s: Source)
    ensures Observation(s).outsideDangerZone.Some? <==> PositionTrusted(s) && s.isFresh && s.MapIsStamped()
    ensures Observation(s).outsideDangerZone == Some(false)
            <==> && PositionTrusted(s) && s.isFresh && s.MapIsStamped()
                 && var at, z := ResolvedPosition(s).at, s.zone.value;
                    z.minX <= at.x.value <= z.maxX && z.minY <= at.y.value <= z.maxY
    ensures Observation(s).docked <==> s.sampleState in {Charging, ChargingComplete}
  {
  }
}
