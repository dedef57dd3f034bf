/** The camera-path recorder and player of the first-person viewer.
    A key toggles recording; while recording, every animation frame may append a
    time-stamped keyframe of the main camera's pose; a GUI switch starts playback, which
    walks the recorded keyframes segment by segment and stops at the last one.

    The module-level variables of the viewer are the fields of `Recorder`.  Each of its
    handlers is specified by a function on the value `RecorderState` of those fields, and the
    lemmas below are about those functions. */
module PathRecorder {
  import opened Geometry

  /** Minimum time, in seconds, between two recorded keyframes. */
  const RECORD_INTERVAL: real := 0.1
  /** Playback runs at recorded speed; the viewer never changes it. */
  const PLAYBACK_SPEED: real := 1.0
  const EDIT_MODE_ENABLED: bool := true
  /** Where the bee model and the secondary camera sit relative to the main camera. */
  const BEE_MAIN_CAMERA_OFFSET: Vec3 := Vec3(0.0, -1.0, -1.8)

  /** The pose of the main camera.  The engine keeps the camera's Euler rotation and its
      quaternion in step; the model keeps the quaternion only. */
  datatype Pose = Pose(position: Vec3, rotation: Quat)

  /** One recorded sample: a copy of the camera pose and the clock reading it was taken at. */
  datatype Keyframe = Keyframe(position: Vec3, rotation: Quat, time: real)

  /** The viewer's recorder and player variables. */
  datatype RecorderState = RecorderState(
    recording: bool,
    playingBack: bool,
    path: seq<Keyframe>,
    playbackIndex: nat,
    lastRecordedTime: real,
    timeAccumulator: real,
    camera: Pose)

  function Initial(camera: Pose): (s: RecorderState)
    ensures !s.recording && !s.playingBack && s.path == []
    ensures s.playbackIndex == 0 && s.lastRecordedTime == 0.0 && s.timeAccumulator == 0.0
    ensures s.camera == camera
  {
    RecorderState(false, false, [], 0, 0.0, 0.0, camera)
  }

  // ---------------------------------------------------------------------------------
  // Invariant

  /** Consecutive keyframes are at least `RECORD_INTERVAL` apart. */
  predicate Spaced(path: seq<Keyframe>) {
    forall i :: 0 < i < |path| ==> path[i - 1].time + RECORD_INTERVAL <= path[i].time
  }

  /** What every handler keeps: keyframes are spaced, the last one carries the time of the
      last sample, the accumulator is never negative, recording and playback exclude each
      other, and while playback is on over a playable path the current segment exists. */
  predicate Inv(s: RecorderState) {
    && Spaced(s.path)
    && (|s.path| > 0 ==> s.path[|s.path| - 1].time == s.lastRecordedTime)
    && s.timeAccumulator >= 0.0
    && !(s.recording && s.playingBack)
    && (s.playingBack && |s.path| > 1 ==> s.playbackIndex + 1 < |s.path|)
  }

  lemma InitialInv(camera: Pose)
    ensures Inv(Initial(camera))
  {
  }

  // ---------------------------------------------------------------------------------
  // The recording toggle

  predicate IsToggleKey(key: string) {
    (key == "t" || key == "T") && EDIT_MODE_ENABLED
  }

  /** The key handler exactly as the viewer has it: it flips `recording` and, when a
      recording starts, empties `path`; it leaves playback running. */
  function ToggleAsWritten(s: RecorderState, key: string): (r: RecorderState)
    ensures !IsToggleKey(key) ==> r == s
    ensures IsToggleKey(key) ==> r.recording == !s.recording
    ensures r.path == if r.recording && !s.recording then [] else s.path
    ensures r.playingBack == s.playingBack && r.playbackIndex == s.playbackIndex
    ensures r.lastRecordedTime == s.lastRecordedTime && r.timeAccumulator == s.timeAccumulator
    ensures r.camera == s.camera
  {
    if !IsToggleKey(key) then s
    else if !s.recording then s.(recording := true, path := [])
    else s.(recording := false)
  }

  /** The key handler with recording and playback kept apart: starting a recording also
      stops playback, as starting playback stops recording.  Otherwise as written: the
      time of the last sample is not reset, stopping keeps the path. */
  function Toggle(s: RecorderState, key: string): (r: RecorderState)
    ensures !IsToggleKey(key) ==> r == s
    ensures IsToggleKey(key) ==> r.recording == !s.recording
    ensures r.path == if r.recording && !s.recording then [] else s.path
    ensures r.playingBack == (s.playingBack && !(r.recording && !s.recording))
    ensures r.playbackIndex == s.playbackIndex
    ensures r.lastRecordedTime == s.lastRecordedTime && r.timeAccumulator == s.timeAccumulator
    ensures r.camera == s.camera
  {
    if !IsToggleKey(key) then s
    else if !s.recording then s.(recording := true, path := [], playingBack := false)
    else s.(recording := false)
  }

  lemma TogglePreservesInv(s: RecorderState, key: string)
    requires Inv(s)
    ensures Inv(Toggle(s, key))
  {
  }

  // ---------------------------------------------------------------------------------
  // Sampling

  /** Whether a frame at `currentTime` takes a sample. */
  predicate Samples(s: RecorderState, currentTime: real) {
    s.recording && currentTime - s.lastRecordedTime >= RECORD_INTERVAL
  }

  /** `recordMainCameraPath`: append the camera pose stamped with the clock when recording
      and the interval has passed; nothing else changes. */
  function Record(s: RecorderState, currentTime: real): (r: RecorderState)
    ensures |r.path| == |s.path| + (if Samples(s, currentTime) then 1 else 0)
    ensures r.path[..|s.path|] == s.path
    ensures Samples(s, currentTime) ==>
      r.path[|s.path|] == Keyframe(s.camera.position, s.camera.rotation, currentTime) &&
      r.lastRecordedTime == currentTime
    ensures !Samples(s, currentTime) ==> r == s
    ensures r.(path := s.path, lastRecordedTime := s.lastRecordedTime) == s
  {
    if Samples(s, currentTime) then
      s.(path := s.path + [Keyframe(s.camera.position, s.camera.rotation, currentTime)],
         lastRecordedTime := currentTime)
    else s
  }

  lemma RecordPreservesInv(s: RecorderState, currentTime: real)
    requires Inv(s)
    ensures Inv(Record(s, currentTime))
  {
    var r := Record(s, currentTime);
    if Samples(s, currentTime) {
      forall i | 0 < i < |r.path|
        ensures r.path[i - 1].time + RECORD_INTERVAL <= r.path[i].time
      {
        if i < |s.path| {
          assert r.path[i - 1] == s.path[i - 1] && r.path[i] == s.path[i];
        } else {
          assert r.path[i - 1] == s.path[|s.path| - 1];
        }
      }
    }
  }

  /** In a spaced path, times grow by at least `RECORD_INTERVAL` per step, so the keyframe
      times are strictly increasing. */
  lemma {:induction false} SpacedTimesIncrease(path: seq<Keyframe>, i: nat, j: nat)
    requires Spaced(path)
    requires i <= j < |path|
    ensures path[j].time - path[i].time >= (j - i) as real * RECORD_INTERVAL
  {
    if i < j {
      SpacedTimesIncrease(path, i, j - 1);
    }
  }

  // ---------------------------------------------------------------------------------
  // The playback switch

  /** The GUI handler of the playback switch.  Switching on resets the segment index and
      stops recording, whatever the length of the path, and keeps the accumulator;
      switching off touches nothing but `playingBack`. */
  function SetPlayback(s: RecorderState, value: bool): (r: RecorderState)
    ensures r.playingBack == value
    ensures value ==> r == s.(playingBack := true, playbackIndex := 0, recording := false)
    ensures !value ==> r == s.(playingBack := false)
    ensures r.path == s.path && r.timeAccumulator == s.timeAccumulator
  {
    if value then s.(playingBack := true, playbackIndex := 0, recording := false)
    else s.(playingBack := false)
  }

  lemma SetPlaybackPreservesInv(s: RecorderState, value: bool)
    requires Inv(s)
    ensures Inv(SetPlayback(s, value))
  {
  }

  // ---------------------------------------------------------------------------------
  // Playback

  /** The interpolation factor `min(accumulated / duration, 1)`. */
  function Factor(accumulated: real, duration: real): (t: real)
    requires duration > 0.0
    ensures accumulated >= 0.0 ==> 0.0 <= t
    ensures t <= 1.0
    ensures t == 1.0 <==> accumulated >= duration
    ensures t < 1.0 ==> t * duration == accumulated
  {
    Min(accumulated / duration, 1.0)
  }

  /** Whether a playback frame has anything to do. */
  predicate Plays(s: RecorderState) {
    s.playingBack && |s.path| > 1
  }

  /** `playbackPath`: advance the accumulator, place the camera between the current
      keyframe and the next, and move on to the next segment once the factor reaches 1,
      stopping at the last keyframe. */
  function Playback(s: RecorderState, delta: real, engine: Engine): (r: RecorderState)
    requires Inv(s)
  {
    if !Plays(s) then s
    else
      var current := s.path[s.playbackIndex];
      var next := s.path[s.playbackIndex + 1];
      var accumulated := s.timeAccumulator + PLAYBACK_SPEED * delta;
      var t := Factor(accumulated, next.time - current.time);
      var camera := Pose(Lerp(current.position, next.position, t),
                         Slerp(engine, current.rotation, next.rotation, t));
      if t >= 1.0 then
        var index := s.playbackIndex + 1;
        s.(camera := camera, playbackIndex := index, timeAccumulator := 0.0,
           playingBack := index < |s.path| - 1)
      else
        s.(camera := camera, timeAccumulator := accumulated)
  }

  /** Playback leaves everything alone unless it is on and the path has two keyframes,
      and never touches the path, the recording flag or the time of the last sample. */
  lemma PlaybackIdle(s: RecorderState, delta: real, engine: Engine)
    requires Inv(s)
    ensures !Plays(s) ==> Playback(s, delta, engine) == s
    ensures Playback(s, delta, engine).path == s.path
    ensures Playback(s, delta, engine).recording == s.recording
    ensures Playback(s, delta, engine).lastRecordedTime == s.lastRecordedTime
  {
  }

  /** The segment being played always has positive duration, so the factor is defined and
      lies between 0 and 1. */
  lemma SegmentDurationPositive(s: RecorderState)
    requires Inv(s) && Plays(s)
    ensures s.path[s.playbackIndex + 1].time - s.path[s.playbackIndex].time >= RECORD_INTERVAL
  {
  }

  lemma PlaybackPreservesInv(s: RecorderState, delta: real, engine: Engine)
    requires Inv(s) && delta >= 0.0
    ensures Inv(Playback(s, delta, engine))
  {
  }

  /** A frame either stays in the current segment, accumulating time, or finishes it:
      the index moves on by exactly one, the accumulator restarts at 0, and playback goes
      on only while another segment follows.  The index never goes back: no looping. */
  lemma PlaybackAdvances(s: RecorderState, delta: real, engine: Engine)
    requires Inv(s) && Plays(s) && delta >= 0.0
    ensures var r := Playback(s, delta, engine);
      var duration := s.path[s.playbackIndex + 1].time - s.path[s.playbackIndex].time;
      var accumulated := s.timeAccumulator + PLAYBACK_SPEED * delta;
      if accumulated >= duration then
        r.playbackIndex == s.playbackIndex + 1 && r.timeAccumulator == 0.0 &&
        (r.playingBack <==> r.playbackIndex < |s.path| - 1)
      else
        r.playbackIndex == s.playbackIndex && r.timeAccumulator == accumulated && r.playingBack
  {
  }

  /** When the accumulated time covers the segment, the camera lands exactly on the next
      keyframe's pose: replaying a segment reproduces the recorded sample. */
  lemma PlaybackReachesKeyframe(s: RecorderState, delta: real, engine: Engine)
    requires Inv(s) && Plays(s)
    requires s.timeAccumulator + PLAYBACK_SPEED * delta
             >= s.path[s.playbackIndex + 1].time - s.path[s.playbackIndex].time
    ensures Playback(s, delta, engine).camera ==
      Pose(s.path[s.playbackIndex + 1].position, s.path[s.playbackIndex + 1].rotation)
  {
  }

  /** A segment played from accumulator 0 with no elapsed time begins on the current
      keyframe. */
  lemma PlaybackStartsOnKeyframe(s: RecorderState, engine: Engine)
    requires Inv(s) && Plays(s) && s.timeAccumulator == 0.0
    ensures Playback(s, 0.0, engine).camera ==
      Pose(s.path[s.playbackIndex].position, s.path[s.playbackIndex].rotation)
  {
  }

  // ---------------------------------------------------------------------------------
  // One animation frame

  /** One frame of the viewer's animation loop: the first-person controller moves the
      camera unless playback is on, then a sample may be taken, then playback advances. */
  function Tick(s: RecorderState, delta: real, currentTime: real, controlled: Pose, engine: Engine): (r: RecorderState)
    requires Inv(s) && delta >= 0.0
    ensures Inv(r)
  {
    var moved := if s.playingBack then s else s.(camera := controlled);
    RecordPreservesInv(moved, currentTime);
    var recorded := Record(moved, currentTime);
    PlaybackPreservesInv(recorded, delta, engine);
    Playback(recorded, delta, engine)
  }

  /** Recording and playback never happen in the same frame, and a recorded path only
      grows while recording: earlier keyframes are never rewritten. */
  lemma TickKeepsModesApart(s: RecorderState, delta: real, currentTime: real, controlled: Pose, engine: Engine)
    requires Inv(s) && delta >= 0.0
    ensures var r := Tick(s, delta, currentTime, controlled, engine);
      (s.recording ==> r.path[..|s.path|] == s.path && r.playbackIndex == s.playbackIndex) &&
      (!s.recording ==> r.path == s.path)
  {
    var moved := if s.playingBack then s else s.(camera := controlled);
    RecordPreservesInv(moved, currentTime);
    var recorded := Record(moved, currentTime);
    PlaybackIdle(recorded, delta, engine);
  }

  // ---------------------------------------------------------------------------------
  // What the handler as written allows

  /** A recording restarted while playback runs keeps the old segment index: two samples
      later playback is on over a two-keyframe path with index 1, so the frame reads a
      keyframe past the end of the path.  The corrected handler stops playback instead. */
  lemma ToggleAsWrittenStrandsCursor(engine: Engine)
    ensures
      var camera := Pose(Vec3(0.0, 0.0, 0.0), Quat(0.0, 0.0, 0.0, 1.0));
      var s0 := Toggle(Initial(camera), "t");
      var s1 := Record(Record(Record(s0, 0.5), 1.0), 1.5);
      var s2 := SetPlayback(Toggle(s1, "t"), true);
      Inv(s2) &&
      var s3 := Playback(s2, 0.5, engine);
      var stranded := Record(Record(ToggleAsWritten(s3, "t"), 2.0), 2.5);
      var fixed := Record(Record(Toggle(s3, "t"), 2.0), 2.5);
      Inv(s3) && s3.playingBack && s3.playbackIndex == 1 &&
      stranded.playingBack && |stranded.path| == 2 && stranded.playbackIndex == 1 &&
      stranded.playbackIndex + 1 >= |stranded.path| && !Inv(stranded) &&
      !fixed.playingBack && |fixed.path| == 2 && Inv(fixed)
  {
    var camera := Pose(Vec3(0.0, 0.0, 0.0), Quat(0.0, 0.0, 0.0, 1.0));
    var s0 := Toggle(Initial(camera), "t");
    var s1 := Record(Record(Record(s0, 0.5), 1.0), 1.5);
    assert |s1.path| == 3;
    var s2 := SetPlayback(Toggle(s1, "t"), true);
    assert Inv(s2);
    var s3 := Playback(s2, 0.5, engine);
    assert s3.playbackIndex == 1;
    var fixed := Record(Record(Toggle(s3, "t"), 2.0), 2.5);
    TogglePreservesInv(s3, "t");
    RecordPreservesInv(Toggle(s3, "t"), 2.0);
    RecordPreservesInv(Record(Toggle(s3, "t"), 2.0), 2.5);
  }

  // ---------------------------------------------------------------------------------
  // The viewer's state as an object

  /** A scene object that follows the main camera (the bee model, the secondary camera). */
  class Object3D {
    var position: Vec3
    var rotation: Quat

    constructor (position: Vec3, rotation: Quat)
      ensures this.position == position && this.rotation == rotation
    {
      this.position := position;
      this.rotation := rotation;
    }
  }

  class Recorder {
    var recording: bool
    var playingBack: bool
    var path: seq<Keyframe>
    var playbackIndex: nat
    var lastRecordedTime: real
    var timeAccumulator: real
    var camera: Pose

    function State(): RecorderState
      reads this
    {
      RecorderState(recording, playingBack, path, playbackIndex,
                         lastRecordedTime, timeAccumulator, camera)
    }

    ghost predicate Valid()
      reads this
    {
      Inv(State())
    }

    constructor (camera: Pose)
      ensures Valid() && State() == Initial(camera)
    {
      recording, playingBack, path, playbackIndex := false, false, [], 0;
      lastRecordedTime, timeAccumulator := 0.0, 0.0;
      this.camera := camera;
    }

    /** The keydown listener. */
    method OnKeyDown(key: string)
      requires Valid()
      modifies this
      ensures Valid() && State() == Toggle(old(State()), key)
    {
      if (key == "t" || key == "T") && EDIT_MODE_ENABLED {
        recording := !recording;
        if recording {
          path := [];
          playingBack := false;
        }
      }
    }

    /** `recordMainCameraPath`, with the clock reading passed in. */
    method RecordMainCameraPath(currentTime: real)
      requires Valid()
      modifies this
      ensures Valid() && State() == Record(old(State()), currentTime)
    {
      if recording {
        var timeDifference := currentTime - lastRecordedTime;
        if timeDifference >= RECORD_INTERVAL {
          path := path + [Keyframe(camera.position, camera.rotation, currentTime)];
          lastRecordedTime := currentTime;
        }
      }
      RecordPreservesInv(old(State()), currentTime);
    }

    /** The change handler of the "Play Recording" switch. */
    method OnPlaybackChange(value: bool)
      requires Valid()
      modifies this
      ensures Valid() && State() == SetPlayback(old(State()), value)
    {
      if value {
        playingBack := true;
        playbackIndex := 0;
        recording := false;
      } else {
        playingBack := false;
      }
    }

    /** `playbackPath`, with the frame's clock delta passed in. */
    method PlaybackPath(delta: real, engine: Engine)
      requires Valid() && delta >= 0.0
      modifies this
      ensures Valid() && State() == Playback(old(State()), delta, engine)
    {
      ghost var s := State();
      PlaybackPreservesInv(s, delta, engine);
      if playingBack && |path| > 1 {
        var currentFrame := path[playbackIndex];
        var nextFrame := path[playbackIndex + 1];
        var accumulated := timeAccumulator + PLAYBACK_SPEED * delta;
        var frameDuration := nextFrame.time - currentFrame.time;
        var t := Factor(accumulated, frameDuration);
        camera := Pose(Lerp(currentFrame.position, nextFrame.position, t),
                       Slerp(engine, currentFrame.rotation, nextFrame.rotation, t));
        if t >= 1.0 {
          playbackIndex, timeAccumulator := playbackIndex + 1, 0.0;
          if playbackIndex >= |path| - 1 {
            playingBack := false;
          }
        } else {
          timeAccumulator := accumulated;
        }
      }
    }

    /** `follow_the_main_camera`: place the object at the camera position plus the offset
        and give it the camera's rotation; a missing object is left alone. */
    method FollowTheMainCamera(target: Object3D?, offset: Vec3)
      modifies target
      ensures target != null ==>
        target.position == Add(camera.position, offset) && target.rotation == camera.rotation
    {
      if target == null {
        return;
      }
      target.position := camera.position;
      target.position := target.position.(x := target.position.x + offset.x);
      target.position := target.position.(y := target.position.y + offset.y);
      target.position := target.position.(z := target.position.z + offset.z);
      target.rotation := camera.rotation;
    }

    /** One frame of the animation loop: controller, sampling, playback, then the bee and
        the secondary camera follow the main camera. */
    method Animate(delta: real, currentTime: real, controlled: Pose, engine: Engine,
                   bee: Object3D?, secondaryCamera: Object3D)
      requires Valid() && delta >= 0.0
      modifies this, bee, secondaryCamera
      ensures Valid() && State() == Tick(old(State()), delta, currentTime, controlled, engine)
      ensures bee != null ==>
        bee.position == Add(camera.position, BEE_MAIN_CAMERA_OFFSET) && bee.rotation == camera.rotation
      ensures secondaryCamera.position == Add(camera.position, BEE_MAIN_CAMERA_OFFSET)
      ensures secondaryCamera.rotation == camera.rotation
    {
      if !playingBack {
        camera := controlled;
      }
      RecordMainCameraPath(currentTime);
      PlaybackPath(delta, engine);
      FollowTheMainCamera(bee, BEE_MAIN_CAMERA_OFFSET);
      FollowTheMainCamera(secondaryCamera, BEE_MAIN_CAMERA_OFFSET);
    }
  }
}
