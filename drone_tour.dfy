/** The drone tour: a drone flies forever round a fixed table of waypoints, two seconds per
    leg, while the viewer looks through one of three cameras chosen from a GUI list.

    The viewer's module-level variables and the state that the tour keeps between frames
    (the waypoint cursor, the pose the drone had when the leg began, the clock reading then)
    are the fields of `DroneScene`.  Clock readings are passed in, in seconds. */
module DroneTour {
  import opened Geometry

  /** How long each leg takes, in milliseconds. */
  const DURATION_MS: real := 2000.0
  /** Where the third-person camera sits relative to the drone: 5 above, 10 behind. */
  const THIRD_PERSON_OFFSET: Vec3 := Vec3(0.0, 5.0, 10.0)

  datatype PathPoint = PathPoint(position: Vec3, rotation: Euler)

  /** The waypoint table.  Its angles are carried as data; the model never interprets them. */
  const PATH_POINTS: seq<PathPoint> := [
    PathPoint(Vec3(0.79, 0.13, 1.51), Euler(-0.45, -2.04, -0.02)),
    PathPoint(Vec3(0.79, 7.00, 1.51), Euler(-85.62, -0.16, -2.03)),
    PathPoint(Vec3(-3.04, 11.48, -9.07), Euler(-0.77, 1.66, 0.02)),
    PathPoint(Vec3(-3.24, 11.39, -16.01), Euler(-4.99, 0.72, 0.06)),
    PathPoint(Vec3(-9.00, 11.39, -16.02), Euler(-4.99, -89.83, -4.99)),
    PathPoint(Vec3(-9.02, 11.65, -24.24), Euler(-4.99, -89.83, -4.99))
  ]

  // ---------------------------------------------------------------------------------
  // The leg timing and the waypoint cursor

  /** `min(elapsed / duration, 1)`: how far along the current leg the drone is. */
  function Factor(elapsedMs: real): (t: real)
    ensures elapsedMs >= 0.0 ==> 0.0 <= t
    ensures t <= 1.0
    ensures t == 1.0 <==> elapsedMs >= DURATION_MS
    ensures t < 1.0 ==> t * DURATION_MS == elapsedMs
  {
    Min(elapsedMs / DURATION_MS, 1.0)
  }

  /** `pointIndex++`, then back to 0 once past the last waypoint. */
  function NextPointIndex(i: nat): (r: nat)
    ensures r < |PATH_POINTS|
    ensures r == 0 <==> i + 1 >= |PATH_POINTS|
    ensures r != 0 ==> r == i + 1
  {
    if i + 1 >= |PATH_POINTS| then 0 else i + 1
  }

  /** The cursor after `k` finished legs. */
  function Advance(i: nat, k: nat): (r: nat)
    ensures k > 0 || i < |PATH_POINTS| ==> r < |PATH_POINTS|
  {
    if k == 0 then i else NextPointIndex(Advance(i, k - 1))
  }

  /** Within one round the cursor simply counts up. */
  lemma {:induction false} AdvanceCountsUp(i: nat, k: nat)
    requires i + k < |PATH_POINTS|
    ensures Advance(i, k) == i + k
  {
    if k > 0 {
      AdvanceCountsUp(i, k - 1);
    }
  }

  /** `a` legs and then `b` more are `a + b` legs. */
  lemma {:induction false} AdvanceCompose(i: nat, a: nat, b: nat)
    ensures Advance(i, a + b) == Advance(Advance(i, a), b)
  {
    if b > 0 {
      AdvanceCompose(i, a, b - 1);
    }
  }

  /** The leg after the last waypoint heads for the first one again. */
  lemma AdvanceWraps(i: nat)
    requires i < |PATH_POINTS|
    ensures Advance(i, |PATH_POINTS| - i) == 0
  {
    AdvanceCountsUp(i, |PATH_POINTS| - i - 1);
  }

  /** How many legs it takes to get from waypoint `i` to waypoint `j`. */
  function LegsBetween(i: nat, j: nat): (k: nat)
    requires i < |PATH_POINTS| && j < |PATH_POINTS|
    ensures k < |PATH_POINTS|
  {
    if i <= j then j - i else j + |PATH_POINTS| - i
  }

  /** From waypoint `i` the cursor reaches waypoint `j` after `LegsBetween(i, j)` legs. */
  lemma ReachesWaypoint(i: nat, j: nat)
    requires i < |PATH_POINTS| && j < |PATH_POINTS|
    ensures Advance(i, LegsBetween(i, j)) == j
  {
    if i <= j {
      AdvanceCountsUp(i, j - i);
    } else {
      AdvanceWraps(i);
      AdvanceCompose(i, |PATH_POINTS| - i, j);
      AdvanceCountsUp(0, j);
    }
  }

  /** The tour loops: after one leg per waypoint the cursor is back where it started, and
      every waypoint is reached within one round. */
  lemma TourLoops(i: nat)
    requires i < |PATH_POINTS|
    ensures Advance(i, |PATH_POINTS|) == i
    ensures forall j :: 0 <= j < |PATH_POINTS| ==> Advance(i, LegsBetween(i, j)) == j
  {
    AdvanceWraps(i);
    AdvanceCompose(i, |PATH_POINTS| - i, i);
    AdvanceCountsUp(0, i);
    forall j | 0 <= j < |PATH_POINTS|
      ensures Advance(i, LegsBetween(i, j)) == j
    {
      ReachesWaypoint(i, j);
    }
  }

  /** What the drone's Euler rotation becomes when the engine turns Euler angles into a
      quaternion and back. */
  function ThroughQuaternion(engine: Engine, e: Euler): Euler {
    engine.eulerFromQuaternion(engine.quaternionFromEuler(e))
  }

  // ---------------------------------------------------------------------------------
  // Camera selection

  datatype CameraId = Orbit | ThirdPerson | FirstPerson

  /** The option names of the camera list. */
  function CameraName(id: CameraId): string {
    match id
    case Orbit => "Orbit"
    case ThirdPerson => "ThirdPerson"
    case FirstPerson => "FirstPerson"
  }

  /** The camera list's change handler: a known name selects its camera, any other value
      keeps the active one. */
  function SelectCamera(active: CameraId, name: string): (r: CameraId)
    ensures r != active ==> CameraName(r) == name
  {
    if name == "Orbit" then Orbit
    else if name == "ThirdPerson" then ThirdPerson
    else if name == "FirstPerson" then FirstPerson
    else active
  }

  /** Choosing a camera's name always activates that camera, whichever was active. */
  lemma SelectCameraByName(active: CameraId, id: CameraId)
    ensures SelectCamera(active, CameraName(id)) == id
  {
  }

  /** A name outside the list changes nothing. */
  lemma SelectCameraIgnoresUnknown(active: CameraId, name: string)
    requires forall id: CameraId :: name != CameraName(id)
    ensures SelectCamera(active, name) == active
  {
    assert name != CameraName(Orbit);
    assert name != CameraName(ThirdPerson);
    assert name != CameraName(FirstPerson);
  }

  // ---------------------------------------------------------------------------------
  // The scene

  class DroneScene {
    var pointIndex: nat
    var dronePosition: Vec3
    var droneRotation: Euler
    /** The drone's pose when the current leg began. */
    var startPosition: Vec3
    var startRotation: Euler
    /** The clock reading when the current leg began. */
    var startTime: real
    var activeCamera: CameraId
    var thirdPersonPosition: Vec3
    var firstPersonPosition: Vec3
    var firstPersonRotation: Euler

    ghost predicate Valid()
      reads this
    {
      pointIndex < |PATH_POINTS|
    }

    /** The model-loaded callback: the drone appears with the given pose and the tour
        starts at the first waypoint.  The orbit camera is the default view. */
    constructor (now: real, position: Vec3, rotation: Euler, engine: Engine)
      ensures Valid() && pointIndex == 0 && activeCamera == Orbit
      ensures startTime == now && startPosition == position && startRotation == rotation
      ensures dronePosition == position && droneRotation == ThroughQuaternion(engine, rotation)
    {
      activeCamera := Orbit;
      dronePosition, droneRotation := position, rotation;
      thirdPersonPosition, firstPersonPosition := Vec3(0.0, 0.0, 0.0), Vec3(0.0, 0.0, 0.0);
      firstPersonRotation := Euler(0.0, 0.0, 0.0);
      startPosition, startRotation, startTime := position, rotation, now;
      pointIndex := 0;
      new;
      MoveToNextPoint(now, engine);
    }

    /** `move_to_next_point`: wrap the cursor, remember the drone's pose and the clock, and
        run the first update of the leg at once. */
    method MoveToNextPoint(now: real, engine: Engine)
      modifies this`pointIndex, this`startPosition, this`startRotation, this`startTime,
               this`dronePosition, this`droneRotation
      ensures Valid()
      ensures pointIndex == if old(pointIndex) >= |PATH_POINTS| then 0 else old(pointIndex)
      ensures startTime == now
      ensures startPosition == old(dronePosition) && startRotation == old(droneRotation)
      ensures dronePosition == old(dronePosition)
      ensures droneRotation == ThroughQuaternion(engine, old(droneRotation))
    {
      if pointIndex >= |PATH_POINTS| {
        pointIndex := 0;
      }
      startPosition := dronePosition;
      startRotation := droneRotation;
      startTime := now;
      var reached := UpdatePosition(now, engine);
    }

    /** `update_position`: place the drone between the leg's start pose and its waypoint
        and report whether the leg is over. */
    method UpdatePosition(now: real, engine: Engine) returns (reached: bool)
      requires Valid() && startTime <= now
      modifies this`dronePosition, this`droneRotation
      ensures var t := Factor((now - startTime) * 1000.0);
        var end := PATH_POINTS[pointIndex];
        && 0.0 <= t <= 1.0
        && reached == (t == 1.0)
        && dronePosition == Lerp(startPosition, end.position, t)
        && droneRotation == engine.eulerFromQuaternion(
             Slerp(engine, engine.quaternionFromEuler(startRotation), engine.quaternionFromEuler(end.rotation), t))
      ensures reached <==> now - startTime >= 2.0
      ensures reached ==>
        && dronePosition == PATH_POINTS[pointIndex].position
        && droneRotation == ThroughQuaternion(engine, PATH_POINTS[pointIndex].rotation)
      ensures now == startTime ==>
        && dronePosition == startPosition
        && droneRotation == ThroughQuaternion(engine, startRotation)
    {
      var nextPoint := PATH_POINTS[pointIndex];
      var elapsed := (now - startTime) * 1000.0;
      var t := Factor(elapsed);
      dronePosition := Lerp(startPosition, nextPoint.position, t);
      var startQuaternion := engine.quaternionFromEuler(startRotation);
      var endQuaternion := engine.quaternionFromEuler(nextPoint.rotation);
      droneRotation := engine.eulerFromQuaternion(Slerp(engine, startQuaternion, endQuaternion, t));
      reached := !(t < 1.0);
    }

    /** One animation frame of the tour: update the drone; once the leg is over, move the
        cursor on (wrapping after the last waypoint) and start the next leg from where the
        drone now is. */
    method Frame(now: real, engine: Engine)
      requires Valid() && startTime <= now
      modifies this`pointIndex, this`startPosition, this`startRotation, this`startTime,
               this`dronePosition, this`droneRotation
      ensures Valid()
      ensures now - old(startTime) < 2.0 ==>
        && pointIndex == old(pointIndex) && startTime == old(startTime)
        && startPosition == old(startPosition) && startRotation == old(startRotation)
        && dronePosition ==
             Lerp(startPosition, PATH_POINTS[pointIndex].position, Factor((now - startTime) * 1000.0))
        && droneRotation == engine.eulerFromQuaternion(
             Slerp(engine, engine.quaternionFromEuler(startRotation),
                   engine.quaternionFromEuler(PATH_POINTS[pointIndex].rotation),
                   Factor((now - startTime) * 1000.0)))
      ensures now - old(startTime) >= 2.0 ==>
        && pointIndex == NextPointIndex(old(pointIndex)) && startTime == now
        && startPosition == PATH_POINTS[old(pointIndex)].position
        && dronePosition == startPosition
        && startRotation == ThroughQuaternion(engine, PATH_POINTS[old(pointIndex)].rotation)
        && droneRotation == ThroughQuaternion(engine, startRotation)
    {
      var reached := UpdatePosition(now, engine);
      if reached {
        pointIndex := pointIndex + 1;
        if pointIndex >= |PATH_POINTS| {
          pointIndex := 0;
        }
        MoveToNextPoint(now, engine);
      }
    }

    /** The change handler of the camera list. */
    method OnCameraChange(cameraName: string)
      modifies this`activeCamera
      ensures activeCamera == SelectCamera(old(activeCamera), cameraName)
    {
      if cameraName == "Orbit" {
        activeCamera := Orbit;
      } else if cameraName == "ThirdPerson" {
        activeCamera := ThirdPerson;
      } else if cameraName == "FirstPerson" {
        activeCamera := FirstPerson;
      }
    }

    /** The camera part of `animate`: the third-person camera hovers above and behind the
        drone; the first-person camera takes the drone's pose. */
    method Animate()
      modifies this`thirdPersonPosition, this`firstPersonPosition, this`firstPersonRotation
      ensures activeCamera == ThirdPerson ==>
        thirdPersonPosition == Add(dronePosition, THIRD_PERSON_OFFSET)
      ensures activeCamera == FirstPerson ==>
        firstPersonPosition == dronePosition && firstPersonRotation == droneRotation
      ensures activeCamera != ThirdPerson ==> thirdPersonPosition == old(thirdPersonPosition)
      ensures activeCamera != FirstPerson ==>
        firstPersonPosition == old(firstPersonPosition) && firstPersonRotation == old(firstPersonRotation)
    {
      if activeCamera == ThirdPerson {
        thirdPersonPosition := Add(dronePosition, THIRD_PERSON_OFFSET);
      } else if activeCamera == FirstPerson {
        firstPersonPosition := dronePosition;
        firstPersonRotation := droneRotation;
      }
    }
  }
}
