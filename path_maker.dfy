/** The interactive waypoint editor.  The operator flies a camera with the keyboard and
    the mouse, drops waypoint markers ("spheres") at the camera position, removes a marker
    by clicking it, and inserts a marker by clicking one of the lines that join
    consecutive markers.  The first marker is drawn green, the newest yellow and the ones
    in between red; the lines are rebuilt after every removal or insertion.

    The editor's module-level variables are the fields of `Editor`; markers and lines are
    objects, since the editor removes them by identity and recolours markers in place. */
module PathMaker {
  import opened Geometry

  /** The collinearity tolerance of the insertion search, in scene units. */
  const TOLERANCE: real := 0.01
  /** Camera movement per frame for each held key. */
  const MOVE_SPEED: real := 0.1
  /** Camera rotation per pixel of mouse drag. */
  const ROTATION_SPEED: real := 0.002
  /** `Math.PI` as a real. */
  const PI: real := 3.141592653589793
  const HALF_PI: real := PI / 2.0
  /** Where the camera starts. */
  const START_POSITION: Vec3 := Vec3(0.0, 1.6, 5.0)

  /** Marker colours: 0x00ff00, 0xffff00 and 0xff0000. */
  datatype Colour = Green | Yellow | Red

  /** A waypoint marker.  Its position is copied once, when it is made; its material is
      replaced in place when the editor recolours it. */
  class Sphere {
    const position: Vec3
    var material: Colour

    constructor (position: Vec3, material: Colour)
      ensures this.position == position && this.material == material
    {
      this.position := position;
      this.material := material;
    }
  }

  /** A line joining two waypoints; its end points are copied when it is made. */
  class Line {
    const start: Vec3
    const end: Vec3

    constructor (start: Vec3, end: Vec3)
      ensures this.start == start && this.end == end
    {
      this.start := start;
      this.end := end;
    }
  }

  /** What the ray caster reports for a line: the line hit and the point on it. */
  datatype LineHit = LineHit(line: Line, point: Vec3)

  // ---------------------------------------------------------------------------------
  // Keyboard flags and camera movement

  datatype Keyboard = Keyboard(forward: bool, backward: bool, left: bool, right: bool,
                               up: bool, down: bool)

  const NO_KEYS: Keyboard := Keyboard(false, false, false, false, false, false)

  predicate IsMovementKey(key: string) {
    key == "w" || key == "s" || key == "a" || key == "d" || key == "Shift" || key == "Control"
  }

  /** The flag update of `onKeyDown` (`held` true) and `onKeyUp` (`held` false). */
  function SetKey(kb: Keyboard, key: string, held: bool): (r: Keyboard)
    ensures !IsMovementKey(key) ==> r == kb
    ensures key == "w" ==> r == kb.(forward := held)
    ensures key == "s" ==> r == kb.(backward := held)
    ensures key == "a" ==> r == kb.(left := held)
    ensures key == "d" ==> r == kb.(right := held)
    ensures key == "Shift" ==> r == kb.(up := held)
    ensures key == "Control" ==> r == kb.(down := held)
  {
    if key == "w" then kb.(forward := held)
    else if key == "s" then kb.(backward := held)
    else if key == "a" then kb.(left := held)
    else if key == "d" then kb.(right := held)
    else if key == "Shift" then kb.(up := held)
    else if key == "Control" then kb.(down := held)
    else kb
  }

  /** Releasing a key undoes pressing it, and a key touches only its own flag: pressing
      and releasing it from a state where it was up gives back that state. */
  lemma ReleaseUndoesPress(kb: Keyboard, key: string)
    ensures SetKey(SetKey(kb, key, true), key, false) == SetKey(kb, key, false)
    ensures kb == SetKey(kb, key, false) ==> SetKey(SetKey(kb, key, true), key, false) == kb
  {
    if key == "w" {
    } else if key == "s" {
    } else if key == "a" {
    } else if key == "d" {
    } else if key == "Shift" {
    } else if key == "Control" {
    }
  }

  function Step(positive: bool, negative: bool): real {
    (if positive then MOVE_SPEED else 0.0) - (if negative then MOVE_SPEED else 0.0)
  }

  /** How far `moveCamera` moves the camera in one frame. */
  function Displacement(kb: Keyboard): (v: Vec3)
    ensures kb == NO_KEYS ==> v == Vec3(0.0, 0.0, 0.0)
    ensures kb.left == kb.right ==> v.x == 0.0
    ensures kb.right && !kb.left ==> v.x == MOVE_SPEED
    ensures kb.left && !kb.right ==> v.x == -MOVE_SPEED
    ensures kb.up == kb.down ==> v.y == 0.0
    ensures kb.up && !kb.down ==> v.y == MOVE_SPEED
    ensures kb.down && !kb.up ==> v.y == -MOVE_SPEED
    ensures kb.forward == kb.backward ==> v.z == 0.0
    ensures kb.backward && !kb.forward ==> v.z == MOVE_SPEED
    ensures kb.forward && !kb.backward ==> v.z == -MOVE_SPEED
  {
    Vec3(Step(kb.right, kb.left), Step(kb.up, kb.down), Step(kb.backward, kb.forward))
  }

  // ---------------------------------------------------------------------------------
  // Marker sequences

  predicate Distinct(ss: seq<Sphere>) {
    forall i, j :: 0 <= i < j < |ss| ==> ss[i] != ss[j]
  }

  function Positions(ss: seq<Sphere>): (ps: seq<Vec3>)
    ensures |ps| == |ss| && forall i :: 0 <= i < |ss| ==> ps[i] == ss[i].position
  {
    seq(|ss|, i requires 0 <= i < |ss| => ss[i].position)
  }

  /** Line `i` joins marker `i` to marker `i + 1`, and there is one line per adjacent pair. */
  predicate LinesJoin(lines: seq<Line>, ss: seq<Sphere>) {
    && |lines| == (if |ss| == 0 then 0 else |ss| - 1)
    && forall i :: 0 <= i < |lines| ==>
         lines[i].start == ss[i].position && lines[i].end == ss[i + 1].position
  }

  /** Appending a marker, and a line to it from the previous last marker, keeps the lines
      joining the markers. */
  lemma LinesJoinAppend(lines: seq<Line>, ss: seq<Sphere>, l: Line, s: Sphere)
    requires LinesJoin(lines, ss) && |ss| > 0
    requires l.start == ss[|ss| - 1].position && l.end == s.position
    ensures LinesJoin(lines + [l], ss + [s])
  {
    var lines', ss' := lines + [l], ss + [s];
    forall i | 0 <= i < |lines'|
      ensures lines'[i].start == ss'[i].position && lines'[i].end == ss'[i + 1].position
    {
      if i < |lines| {
        assert lines'[i] == lines[i] && ss'[i] == ss[i] && ss'[i + 1] == ss[i + 1];
      }
    }
  }

  function SphereSet(ss: seq<Sphere>): set<object> {
    set s | s in ss
  }

  function LineSet(lines: seq<Line>): set<object> {
    set l | l in lines
  }

  lemma LineSetAppend(lines: seq<Line>, l: Line)
    ensures LineSet(lines + [l]) == LineSet(lines) + {l}
  {
    assert forall x :: x in lines + [l] <==> x in lines || x == l;
  }

  lemma SphereSetAppend(ss: seq<Sphere>, s: Sphere)
    ensures SphereSet(ss + [s]) == SphereSet(ss) + {s}
  {
    assert forall x :: x in ss + [s] <==> x in ss || x == s;
  }

  /** `filter(sphere => sphere !== x)`: every marker but `x`, in order. */
  function Without(ss: seq<Sphere>, x: Sphere): seq<Sphere> {
    if ss == [] then []
    else (if ss[0] == x then [] else [ss[0]]) + Without(ss[1..], x)
  }

  /** Every marker the filter keeps was in the path, and none of them is `x`. */
  lemma {:induction false} WithoutKeeps(ss: seq<Sphere>, x: Sphere)
    ensures forall i :: 0 <= i < |Without(ss, x)| ==> Without(ss, x)[i] in ss && Without(ss, x)[i] != x
  {
    if ss != [] {
      WithoutKeeps(ss[1..], x);
      var head := if ss[0] == x then [] else [ss[0]];
      var r := Without(ss, x);
      forall i | 0 <= i < |r| ensures r[i] in ss && r[i] != x {
        if i >= |head| {
          assert r[i] == Without(ss[1..], x)[i - |head|];
        }
      }
    }
  }

  /** The filter keeps exactly the markers other than `x`. */
  lemma {:induction false} WithoutSet(ss: seq<Sphere>, x: Sphere)
    ensures SphereSet(Without(ss, x)) == SphereSet(ss) - {x}
  {
    if ss != [] {
      WithoutSet(ss[1..], x);
      assert ss == [ss[0]] + ss[1..];
      assert SphereSet(ss) == {ss[0]} + SphereSet(ss[1..]);
      var head := if ss[0] == x then [] else [ss[0]];
      assert SphereSet(head + Without(ss[1..], x)) == SphereSet(head) + SphereSet(Without(ss[1..], x));
    }
  }

  lemma {:induction false} WithoutAbsent(ss: seq<Sphere>, x: Sphere)
    requires x !in ss
    ensures Without(ss, x) == ss
  {
    if ss != [] {
      WithoutAbsent(ss[1..], x);
    }
  }

  /** When the clicked marker occurs once, the identity filter removes exactly it and keeps
      the others in order. */
  lemma {:induction false} WithoutRemovesOne(ss: seq<Sphere>, k: nat)
    requires k < |ss|
    requires forall i :: 0 <= i < |ss| && i != k ==> ss[i] != ss[k]
    ensures Without(ss, ss[k]) == ss[..k] + ss[k + 1..]
  {
    var rest := ss[1..];
    if k == 0 {
      assert ss[k] !in rest by {
        forall i | 0 <= i < |rest| ensures rest[i] != ss[k] {
          assert rest[i] == ss[i + 1];
        }
      }
      WithoutAbsent(rest, ss[k]);
    } else {
      assert rest[k - 1] == ss[k];
      forall i | 0 <= i < |rest| && i != k - 1 ensures rest[i] != rest[k - 1] {
        assert rest[i] == ss[i + 1];
      }
      WithoutRemovesOne(rest, k - 1);
      assert ss[0] != ss[k];
      assert Without(ss, ss[k]) == [ss[0]] + Without(rest, ss[k]);
      assert [ss[0]] + rest[..k - 1] + rest[k..] == ss[..k] + ss[k + 1..];
    }
  }

  lemma WithoutKeepsDistinct(ss: seq<Sphere>, x: Sphere)
    requires Distinct(ss)
    ensures Distinct(Without(ss, x))
  {
    if x in ss {
      var k :| 0 <= k < |ss| && ss[k] == x;
      WithoutRemovesOne(ss, k);
      var r := ss[..k] + ss[k + 1..];
      forall i, j | 0 <= i < j < |r| ensures r[i] != r[j] {
        var i', j' := if i < k then i else i + 1, if j < k then j else j + 1;
        assert r[i] == ss[i'] && r[j] == ss[j'];
      }
    } else {
      WithoutAbsent(ss, x);
    }
  }

  // ---------------------------------------------------------------------------------
  // Where a clicked line point is inserted

  /** The collinearity test: `p` is on the segment from `a` to `b` when going through `p`
      is less than `TOLERANCE` longer than going straight. */
  predicate OnSegment(engine: Engine, a: Vec3, b: Vec3, p: Vec3) {
    engine.distance(a, p) + engine.distance(p, b) - engine.distance(a, b) < TOLERANCE
  }

  function FirstOnSegmentFrom(engine: Engine, ps: seq<Vec3>, p: Vec3, i: nat): (r: nat)
    requires i >= 1
    ensures r == 0 || i <= r < |ps|
    decreases |ps| - i
  {
    if i >= |ps| then 0
    else if OnSegment(engine, ps[i - 1], ps[i], p) then i
    else FirstOnSegmentFrom(engine, ps, p, i + 1)
  }

  /** The index at which a point clicked on a line is inserted. */
  function InsertIndex(engine: Engine, ps: seq<Vec3>, p: Vec3): (r: nat)
    ensures r == 0 || 1 <= r < |ps|
  {
    FirstOnSegmentFrom(engine, ps, p, 1)
  }

  lemma {:induction false} FirstOnSegmentFromIsFirst(engine: Engine, ps: seq<Vec3>, p: Vec3, i: nat)
    requires i >= 1
    ensures var r := FirstOnSegmentFrom(engine, ps, p, i);
      || (r == 0 && forall j :: i <= j < |ps| ==> !OnSegment(engine, ps[j - 1], ps[j], p))
      || (i <= r < |ps| && OnSegment(engine, ps[r - 1], ps[r], p) &&
          forall j :: i <= j < r ==> !OnSegment(engine, ps[j - 1], ps[j], p))
    decreases |ps| - i
  {
    if i < |ps| && !OnSegment(engine, ps[i - 1], ps[i], p) {
      FirstOnSegmentFromIsFirst(engine, ps, p, i + 1);
    }
  }

  /** The insertion index is the first `i` from 1 whose segment from marker `i - 1` to
      marker `i` passes the collinearity test, and 0 when no segment passes. */
  lemma InsertIndexIsFirstMatch(engine: Engine, ps: seq<Vec3>, p: Vec3)
    ensures var r := InsertIndex(engine, ps, p);
      || (r == 0 && forall j :: 1 <= j < |ps| ==> !OnSegment(engine, ps[j - 1], ps[j], p))
      || (1 <= r < |ps| && OnSegment(engine, ps[r - 1], ps[r], p) &&
          forall j :: 1 <= j < r ==> !OnSegment(engine, ps[j - 1], ps[j], p))
  {
    FirstOnSegmentFromIsFirst(engine, ps, p, 1);
  }

  /** The search loop of the line-click branch, with its early exit. */
  method FindInsertIndex(engine: Engine, ps: seq<Vec3>, p: Vec3) returns (insertIndex: nat)
    ensures insertIndex == InsertIndex(engine, ps, p)
    ensures insertIndex <= |ps|
  {
    insertIndex := 0;
    var i := 1;
    while i < |ps|
      invariant 1 <= i
      invariant FirstOnSegmentFrom(engine, ps, p, i) == InsertIndex(engine, ps, p)
    {
      if OnSegment(engine, ps[i - 1], ps[i], p) {
        insertIndex := i;
        break;
      }
      i := i + 1;
    }
    FirstOnSegmentFromIsFirst(engine, ps, p, 1);
  }

  // ---------------------------------------------------------------------------------
  // Marker colours

  function ColoursOf(ss: seq<Sphere>): (cs: seq<Colour>)
    reads set s | s in ss
    ensures |cs| == |ss| && forall i :: 0 <= i < |ss| ==> cs[i] == ss[i].material
  {
    seq(|ss|, i reads set s | s in ss requires 0 <= i < |ss| => ss[i].material)
  }

  /** The colours the editor aims for: first green, last yellow, the others red. */
  function Standard(n: nat): (cs: seq<Colour>)
    ensures |cs| == n
  {
    seq(n, i => if i == 0 then Green else if i == n - 1 then Yellow else Red)
  }

  /** The recolouring of `addSphere`: a first marker is green; later ones are yellow and
      the previous last marker turns red, but only once there were two markers. */
  function AddColours(cs: seq<Colour>): (r: seq<Colour>)
  {
    if |cs| == 0 then [Green]
    else (if |cs| > 1 then cs[|cs| - 1 := Red] else cs) + [Yellow]
  }

  /** Adding a marker appends one colour, green for the first marker and yellow after
      that, turns the previous last marker red once there were two, and keeps the rest. */
  lemma AddColoursRecolours(cs: seq<Colour>)
    ensures |AddColours(cs)| == |cs| + 1
    ensures AddColours(cs)[|cs|] == if |cs| == 0 then Green else Yellow
    ensures |cs| > 1 ==> AddColours(cs)[|cs| - 1] == Red
    ensures forall i :: 0 <= i < |cs| && (i < |cs| - 1 || |cs| == 1) ==> AddColours(cs)[i] == cs[i]
  {
  }

  /** The recolouring after a removal or an insertion: the first marker green and, when
      there are two or more, the last yellow; the others keep their colour. */
  function FixEnds(cs: seq<Colour>): (r: seq<Colour>)
  {
    if |cs| == 0 then cs
    else if |cs| == 1 then [Green]
    else cs[0 := Green][|cs| - 1 := Yellow]
  }

  /** Fixing the ends turns the first colour green and, when there are two or more, the
      last yellow, and keeps every other colour. */
  lemma FixEndsRecolours(cs: seq<Colour>)
    ensures |FixEnds(cs)| == |cs|
    ensures |cs| > 0 ==> FixEnds(cs)[0] == Green
    ensures |cs| > 1 ==> FixEnds(cs)[|cs| - 1] == Yellow
    ensures forall i :: 0 < i < |cs| - 1 ==> FixEnds(cs)[i] == cs[i]
  {
  }

  function InsertAt(cs: seq<Colour>, k: nat, c: Colour): (r: seq<Colour>)
    requires k <= |cs|
  {
    cs[..k] + [c] + cs[k..]
  }

  /** Adding markers one by one keeps the standard colouring. */
  lemma AddKeepsStandard(n: nat)
    ensures AddColours(Standard(n)) == Standard(n + 1)
  {
    var r, s := AddColours(Standard(n)), Standard(n + 1);
    assert |r| == |s|;
    forall i | 0 <= i < |s| ensures r[i] == s[i] {
      if n > 1 && i < n - 1 {
        assert r[i] == Standard(n)[i];
      }
    }
  }

  /** Removing any marker from a standard colouring and fixing the ends gives the standard
      colouring again. */
  lemma RemoveKeepsStandard(n: nat, k: nat)
    requires k < n
    ensures FixEnds(Standard(n)[..k] + Standard(n)[k + 1..]) == Standard(n - 1)
  {
    var cs := Standard(n)[..k] + Standard(n)[k + 1..];
    var r, s := FixEnds(cs), Standard(n - 1);
    assert |cs| == n - 1;
    forall i | 0 <= i < |s| ensures r[i] == s[i] {
      if 0 < i < n - 2 {
        assert cs[i] == Standard(n)[if i < k then i else i + 1];
      }
    }
  }

  /** Inserting into the middle of a standard colouring leaves the new marker yellow,
      since only the two ends are fixed. */
  lemma MidInsertStaysYellow(n: nat, k: nat)
    requires 0 < k < n
    ensures FixEnds(InsertAt(Standard(n), k, Yellow)) == Standard(n + 1)[k := Yellow]
  {
    var cs := InsertAt(Standard(n), k, Yellow);
    var r, s := FixEnds(cs), Standard(n + 1)[k := Yellow];
    assert |cs| == n + 1;
    forall i | 0 <= i < |s| ensures r[i] == s[i] {
      if 0 < i < n && i != k {
        assert cs[i] == Standard(n)[if i < k then i else i - 1];
      }
    }
  }

  /** An insertion at the default index 0 makes the new marker green and leaves the old
      first marker green as well. */
  lemma DefaultInsertKeepsOldFirstGreen(n: nat)
    requires n >= 2
    ensures FixEnds(InsertAt(Standard(n), 0, Yellow)) == Standard(n + 1)[1 := Green]
  {
    var cs := InsertAt(Standard(n), 0, Yellow);
    var r, s := FixEnds(cs), Standard(n + 1)[1 := Green];
    assert |cs| == n + 1;
    forall i | 0 <= i < |s| ensures r[i] == s[i] {
      if 0 < i < n {
        assert cs[i] == Standard(n)[i - 1];
      }
    }
  }

  // ---------------------------------------------------------------------------------
  // The editor

  class Editor {
    var sphereArray: seq<Sphere>
    var lineArray: seq<Line>
    /** The editor's markers and lines that are currently in the scene. */
    var scene: set<object>
    var cameraPosition: Vec3
    var cameraRotation: Euler
    var isMouseDown: bool
    var lastMouseX: real
    var lastMouseY: real
    var keyboard: Keyboard

    ghost predicate Valid()
      reads this
    {
      && Distinct(sphereArray)
      && LinesJoin(lineArray, sphereArray)
      && SphereSet(sphereArray) <= scene
      && LineSet(lineArray) <= scene
      && -HALF_PI <= cameraRotation.x <= HALF_PI
    }

    function Colours(): (cs: seq<Colour>)
      reads this`sphereArray, set s | s in sphereArray
    {
      ColoursOf(sphereArray)
    }

    constructor ()
      ensures Valid()
      ensures sphereArray == [] && lineArray == [] && scene == {}
      ensures cameraPosition == START_POSITION && cameraRotation == Euler(0.0, 0.0, 0.0)
      ensures !isMouseDown && lastMouseX == 0.0 && lastMouseY == 0.0 && keyboard == NO_KEYS
    {
      sphereArray, lineArray, scene := [], [], {};
      cameraPosition, cameraRotation := START_POSITION, Euler(0.0, 0.0, 0.0);
      isMouseDown, lastMouseX, lastMouseY := false, 0.0, 0.0;
      keyboard := NO_KEYS;
    }

    /** `createLine`: a new line from `start` to `end`, added to the scene and the list. */
    method CreateLine(start: Vec3, end: Vec3)
      modifies this`lineArray, this`scene
      ensures |lineArray| > 0 && lineArray == old(lineArray) + [lineArray[|lineArray| - 1]]
      ensures var line := lineArray[|lineArray| - 1];
        fresh(line) && line.start == start && line.end == end && scene == old(scene) + {line}
      ensures Colours() == old(Colours())
    {
      var line := new Line(start, end);
      scene := scene + {line};
      LineSetAppend(lineArray, line);
      lineArray := lineArray + [line];
    }

    /** `addSphere`: a new marker at the camera position, appended to the path and joined
        to the previous last marker by one new line. */
    method AddSphere()
      requires Valid()
      modifies this`sphereArray, this`lineArray, this`scene, sphereArray
      ensures Valid()
      ensures |sphereArray| > 0 && sphereArray == old(sphereArray) + [sphereArray[|sphereArray| - 1]]
      ensures var added := sphereArray[|sphereArray| - 1];
        fresh(added) && added.position == cameraPosition
      ensures Colours() == AddColours(old(Colours()))
      ensures |old(sphereArray)| == 0 ==>
        lineArray == old(lineArray) && scene == old(scene) + {sphereArray[0]}
      ensures |old(sphereArray)| > 0 ==>
        |lineArray| > 0 && lineArray == old(lineArray) + [lineArray[|lineArray| - 1]] &&
        fresh(lineArray[|lineArray| - 1]) &&
        scene == old(scene) + {sphereArray[|sphereArray| - 1], lineArray[|lineArray| - 1]}
    {
      var sphere := AppendMarker();
      if |sphereArray| > 1 {
        var lastSpherePosition := sphereArray[|sphereArray| - 2].position;
        ghost var lines := lineArray;
        CreateLine(lastSpherePosition, sphere.position);
        ghost var line := lineArray[|lineArray| - 1];
        LineSetAppend(lines, line);
        LinesJoinAppend(lines, old(sphereArray), line, sphere);
      }
    }

    /** The marker half of `addSphere`: turn the previous last marker red once there are
        two, then append a new marker at the camera position, green if it is the first and
        yellow otherwise. */
    method AppendMarker() returns (sphere: Sphere)
      requires Distinct(sphereArray)
      modifies this`sphereArray, this`scene, sphereArray
      ensures fresh(sphere) && sphere.position == cameraPosition
      ensures sphereArray == old(sphereArray) + [sphere]
      ensures Distinct(sphereArray)
      ensures scene == old(scene) + {sphere}
      ensures SphereSet(sphereArray) == SphereSet(old(sphereArray)) + {sphere}
      ensures Colours() == AddColours(old(Colours()))
    {
      ghost var colours := Colours();
      var sphereMaterial: Colour;
      if |sphereArray| == 0 {
        sphereMaterial := Green;
      } else {
        if |sphereArray| > 1 {
          SetColour(|sphereArray| - 1, Red);
        }
        sphereMaterial := Yellow;
      }
      assert Colours() + [sphereMaterial] == AddColours(colours);
      sphere := new Sphere(cameraPosition, sphereMaterial);
      scene := scene + {sphere};
      Push(sphere);
    }

    /** `sphereArray.push(sphere)`. */
    method Push(sphere: Sphere)
      requires Distinct(sphereArray) && sphere !in sphereArray
      modifies this`sphereArray
      ensures sphereArray == old(sphereArray) + [sphere]
      ensures Distinct(sphereArray)
      ensures Colours() == old(Colours()) + [sphere.material]
      ensures SphereSet(sphereArray) == SphereSet(old(sphereArray)) + {sphere}
    {
      SphereSetAppend(sphereArray, sphere);
      ghost var colours := Colours() + [sphere.material];
      sphereArray := sphereArray + [sphere];
      assert Colours() == colours by {
        forall i | 0 <= i < |sphereArray| ensures sphereArray[i].material == colours[i] {
        }
      }
    }

    /** Replace the material of marker `i`; the other markers keep theirs. */
    method SetColour(i: nat, c: Colour)
      requires Distinct(sphereArray) && i < |sphereArray|
      modifies sphereArray[i]
      ensures Colours() == old(Colours())[i := c]
    {
      ghost var colours := Colours()[i := c];
      sphereArray[i].material := c;
      assert Colours() == colours by {
        forall j | 0 <= j < |sphereArray| ensures sphereArray[j].material == colours[j] {
          if j != i {
            assert sphereArray[j] != sphereArray[i];
          }
        }
      }
    }

    /** `recreateLines`: take every line out of the scene, then join each adjacent pair of
        markers with a new line. */
    method RecreateLines()
      modifies this`lineArray, this`scene
      ensures LinesJoin(lineArray, sphereArray)
      ensures forall l :: l in lineArray ==> fresh(l)
      ensures scene == old(scene) - LineSet(old(lineArray)) + LineSet(lineArray)
      ensures forall l :: l in old(lineArray) ==> l !in scene
      ensures LineSet(lineArray) <= scene
      ensures SphereSet(sphereArray) <= old(scene) ==> SphereSet(sphereArray) <= scene
      ensures Colours() == old(Colours())
    {
      ClearLines();
      JoinMarkers();
    }

    /** The first half of `recreateLines`: every line leaves the scene and the list is
        emptied. */
    method ClearLines()
      modifies this`lineArray, this`scene
      ensures lineArray == []
      ensures scene == old(scene) - LineSet(old(lineArray))
    {
      var i := 0;
      while i < |lineArray|
        invariant 0 <= i <= |lineArray| && lineArray == old(lineArray)
        invariant scene == old(scene) - LineSet(lineArray[..i])
      {
        assert lineArray[..i + 1] == lineArray[..i] + [lineArray[i]];
        LineSetAppend(lineArray[..i], lineArray[i]);
        scene := scene - {lineArray[i]};
        i := i + 1;
      }
      assert lineArray[..i] == old(lineArray);
      lineArray := [];
    }

    /** The second half of `recreateLines`: one new line per adjacent pair of markers. */
    method JoinMarkers()
      requires lineArray == []
      modifies this`lineArray, this`scene
      ensures LinesJoin(lineArray, sphereArray)
      ensures forall j :: 0 <= j < |lineArray| ==> fresh(lineArray[j])
      ensures scene == old(scene) + LineSet(lineArray)
    {
      var i := 1;
      while i < |sphereArray|
        invariant 1 <= i && (|sphereArray| == 0 ==> i == 1) && (|sphereArray| > 0 ==> i <= |sphereArray|)
        invariant |sphereArray| == 0 ==> lineArray == []
        invariant |sphereArray| > 0 ==> LinesJoin(lineArray, sphereArray[..i])
        invariant forall j :: 0 <= j < |lineArray| ==> fresh(lineArray[j])
        invariant scene == old(scene) + LineSet(lineArray)
      {
        var start := sphereArray[i - 1].position;
        var end := sphereArray[i].position;
        ghost var lines := lineArray;
        CreateLine(start, end);
        ghost var line := lineArray[|lineArray| - 1];
        LineSetAppend(lines, line);
        assert sphereArray[..i + 1] == sphereArray[..i] + [sphereArray[i]];
        LinesJoinAppend(lines, sphereArray[..i], line, sphereArray[i]);
        i := i + 1;
      }
      assert |sphereArray| > 0 ==> sphereArray[..i] == sphereArray;
    }

    /** `onMouseClick`, with the ray caster's hits passed in: the markers hit, nearest
        first, and the lines hit with the point on each.  A marker hit removes that marker;
        lines are looked at only when no marker was hit, and a line hit inserts a new marker
        at the point; a click that hits neither changes nothing. */
    method OnMouseClick(sphereHits: seq<Sphere>, lineHits: seq<LineHit>, engine: Engine)
      requires Valid()
      requires forall s :: s in sphereHits ==> s in sphereArray
      requires forall h :: h in lineHits ==> h.line in lineArray
      modifies this`sphereArray, this`lineArray, this`scene, sphereArray
      ensures Valid()
      ensures |sphereHits| > 0 ==>
        && sphereArray == Without(old(sphereArray), sphereHits[0])
        && Colours() == FixEnds(old(ColoursOf(Without(sphereArray, sphereHits[0]))))
        && sphereHits[0] !in scene
        && scene == old(scene) - {sphereHits[0]} - LineSet(old(lineArray)) + LineSet(lineArray)
      ensures |sphereHits| == 0 && |lineHits| > 0 ==>
        var k := InsertIndex(engine, old(Positions(sphereArray)), lineHits[0].point);
        && k <= |old(sphereArray)| && |sphereArray| == |old(sphereArray)| + 1
        && sphereArray == old(sphereArray)[..k] + [sphereArray[k]] + old(sphereArray)[k..]
        && fresh(sphereArray[k]) && sphereArray[k].position == lineHits[0].point
        && Colours() == FixEnds(InsertAt(old(Colours()), k, Yellow))
        && scene == old(scene) + {sphereArray[k]} - LineSet(old(lineArray)) + LineSet(lineArray)
      ensures |sphereHits| > 0 || |lineHits| > 0 ==>
        forall o :: o in old(lineArray) ==> o !in scene
      ensures |sphereHits| == 0 && |lineHits| == 0 ==>
        sphereArray == old(sphereArray) && lineArray == old(lineArray) &&
        scene == old(scene) && Colours() == old(Colours())
    {
      if |sphereHits| > 0 {
        RemoveSphere(sphereHits[0]);
      } else if |lineHits| > 0 {
        InsertSphere(lineHits[0].point, engine);
      }
    }

    /** The marker branch of `onMouseClick`: take the marker out of the scene and out of
        the path, recolour the ends, rebuild the lines. */
    method RemoveSphere(clickedSphere: Sphere)
      requires Valid() && clickedSphere in sphereArray
      modifies this`sphereArray, this`lineArray, this`scene, sphereArray
      ensures Valid()
      ensures sphereArray == Without(old(sphereArray), clickedSphere)
      ensures Colours() == FixEnds(old(ColoursOf(Without(sphereArray, clickedSphere))))
      ensures clickedSphere !in scene
      ensures forall o :: o in old(lineArray) ==> o !in scene
      ensures scene == old(scene) - {clickedSphere} - LineSet(old(lineArray)) + LineSet(lineArray)
    {
      TakeOutMarker(clickedSphere);
      RecreateLines();
    }

    /** The marker branch up to the line rebuild: the marker leaves the scene and the
        path, and the ends are recoloured. */
    method TakeOutMarker(clickedSphere: Sphere)
      requires Distinct(sphereArray)
      modifies this`sphereArray, this`scene, sphereArray
      ensures sphereArray == Without(old(sphereArray), clickedSphere)
      ensures Distinct(sphereArray)
      ensures SphereSet(sphereArray) == SphereSet(old(sphereArray)) - {clickedSphere}
      ensures scene == old(scene) - {clickedSphere}
      ensures Colours() == FixEnds(old(ColoursOf(Without(sphereArray, clickedSphere))))
    {
      ghost var colours := ColoursOf(Without(sphereArray, clickedSphere));
      scene := scene - {clickedSphere};
      WithoutKeepsDistinct(sphereArray, clickedSphere);
      WithoutSet(sphereArray, clickedSphere);
      WithoutKeeps(sphereArray, clickedSphere);
      sphereArray := Without(sphereArray, clickedSphere);
      FixEndColours();
    }

    /** The line branch of `onMouseClick`: a new yellow marker at the clicked point,
        inserted at the index the collinearity search finds, then the ends recoloured and
        the lines rebuilt. */
    method InsertSphere(positionOnLine: Vec3, engine: Engine)
      requires Valid()
      modifies this`sphereArray, this`lineArray, this`scene, sphereArray
      ensures Valid()
      ensures var k := InsertIndex(engine, old(Positions(sphereArray)), positionOnLine);
        && k <= |old(sphereArray)| && |sphereArray| == |old(sphereArray)| + 1
        && sphereArray == old(sphereArray)[..k] + [sphereArray[k]] + old(sphereArray)[k..]
        && fresh(sphereArray[k]) && sphereArray[k].position == positionOnLine
        && Colours() == FixEnds(InsertAt(old(Colours()), k, Yellow))
        && scene == old(scene) + {sphereArray[k]} - LineSet(old(lineArray)) + LineSet(lineArray)
      ensures forall o :: o in old(lineArray) ==> o !in scene
    {
      var insertIndex := SpliceNewMarker(positionOnLine, engine);
      RecreateLines();
    }

    /** The line branch up to the line rebuild: a new yellow marker at the clicked point
        enters the scene, is spliced into the path at the index the search finds, and the
        ends are recoloured. */
    method SpliceNewMarker(positionOnLine: Vec3, engine: Engine) returns (insertIndex: nat)
      requires Distinct(sphereArray)
      modifies this`sphereArray, this`scene, sphereArray
      ensures insertIndex == InsertIndex(engine, old(Positions(sphereArray)), positionOnLine)
      ensures insertIndex <= |old(sphereArray)| && |sphereArray| == |old(sphereArray)| + 1
      ensures var newSphere := sphereArray[insertIndex];
        && sphereArray == old(sphereArray)[..insertIndex] + [newSphere] + old(sphereArray)[insertIndex..]
        && fresh(newSphere) && newSphere.position == positionOnLine
        && scene == old(scene) + {newSphere}
        && SphereSet(sphereArray) == SphereSet(old(sphereArray)) + {newSphere}
      ensures Distinct(sphereArray)
      ensures Colours() == FixEnds(InsertAt(old(Colours()), insertIndex, Yellow))
    {
      insertIndex := SpliceIn(positionOnLine, engine);
      FixEndColours();
    }

    /** A new yellow marker at the clicked point enters the scene and is spliced into the
        path at the index the search finds. */
    method SpliceIn(positionOnLine: Vec3, engine: Engine) returns (insertIndex: nat)
      requires Distinct(sphereArray)
      modifies this`sphereArray, this`scene
      ensures insertIndex == InsertIndex(engine, old(Positions(sphereArray)), positionOnLine)
      ensures insertIndex <= |old(sphereArray)| && |sphereArray| == |old(sphereArray)| + 1
      ensures var newSphere := sphereArray[insertIndex];
        && sphereArray == old(sphereArray)[..insertIndex] + [newSphere] + old(sphereArray)[insertIndex..]
        && fresh(newSphere) && newSphere.position == positionOnLine
        && scene == old(scene) + {newSphere}
        && SphereSet(sphereArray) == SphereSet(old(sphereArray)) + {newSphere}
      ensures Distinct(sphereArray)
      ensures Colours() == InsertAt(old(Colours()), insertIndex, Yellow)
    {
      var newSphere := new Sphere(positionOnLine, Yellow);
      scene := scene + {newSphere};
      insertIndex := FindInsertIndex(engine, Positions(sphereArray), positionOnLine);
      Splice(insertIndex, newSphere);
      assert sphereArray[insertIndex] == newSphere;
    }

    /** `sphereArray.splice(index, 0, sphere)`. */
    method Splice(index: nat, sphere: Sphere)
      requires Distinct(sphereArray) && sphere !in sphereArray && index <= |sphereArray|
      modifies this`sphereArray
      ensures sphereArray == old(sphereArray)[..index] + [sphere] + old(sphereArray)[index..]
      ensures Distinct(sphereArray)
      ensures Colours() == InsertAt(old(Colours()), index, sphere.material)
      ensures SphereSet(sphereArray) == SphereSet(old(sphereArray)) + {sphere}
    {
      ghost var before := sphereArray;
      ghost var colours := InsertAt(Colours(), index, sphere.material);
      sphereArray := sphereArray[..index] + [sphere] + sphereArray[index..];
      assert Colours() == colours by {
        forall i | 0 <= i < |sphereArray|
          ensures sphereArray[i].material == colours[i]
        {
          if i < index {
            assert sphereArray[i] == before[i];
          } else if i > index {
            assert sphereArray[i] == before[i - 1];
          }
        }
      }
      assert Distinct(sphereArray) by {
        forall i, j | 0 <= i < j < |sphereArray| ensures sphereArray[i] != sphereArray[j] {
          var i', j' := if i < index then i else i - 1, if j < index then j else j - 1;
          if i != index && j != index {
            assert sphereArray[i] == before[i'] && sphereArray[j] == before[j'];
          }
        }
      }
      assert forall s :: s in sphereArray <==> s in before || s == sphere;
    }

    /** The recolouring both click branches do: first marker green, last yellow. */
    method FixEndColours()
      requires Distinct(sphereArray)
      modifies sphereArray
      ensures Colours() == FixEnds(old(Colours()))
    {
      if |sphereArray| > 0 {
        SetColour(0, Green);
        if |sphereArray| > 1 {
          SetColour(|sphereArray| - 1, Yellow);
        }
      }
    }

    /** `onKeyDown`: movement keys set their flag, 'p' adds a marker, 'o' resets the
        camera rotation. */
    method OnKeyDown(key: string)
      requires Valid()
      modifies this`keyboard, this`cameraRotation, this`sphereArray, this`lineArray, this`scene, sphereArray
      ensures Valid()
      ensures keyboard == SetKey(old(keyboard), key, true)
      ensures key == "p" ==>
        && |sphereArray| > 0 && sphereArray == old(sphereArray) + [sphereArray[|sphereArray| - 1]]
        && fresh(sphereArray[|sphereArray| - 1])
        && sphereArray[|sphereArray| - 1].position == cameraPosition
        && Colours() == AddColours(old(Colours()))
      ensures key == "p" && |old(sphereArray)| == 0 ==>
        lineArray == old(lineArray) && scene == old(scene) + {sphereArray[0]}
      ensures key == "p" && |old(sphereArray)| > 0 ==>
        && |lineArray| > 0 && lineArray == old(lineArray) + [lineArray[|lineArray| - 1]]
        && fresh(lineArray[|lineArray| - 1])
        && scene == old(scene) + {sphereArray[|sphereArray| - 1], lineArray[|lineArray| - 1]}
      ensures key == "o" ==> cameraRotation == Euler(0.0, 0.0, 0.0)
      ensures key != "p" ==>
        && sphereArray == old(sphereArray) && lineArray == old(lineArray)
        && scene == old(scene) && Colours() == old(Colours())
      ensures key != "o" ==> cameraRotation == old(cameraRotation)
    {
      if key == "w" { keyboard := keyboard.(forward := true); }
      else if key == "s" { keyboard := keyboard.(backward := true); }
      else if key == "a" { keyboard := keyboard.(left := true); }
      else if key == "d" { keyboard := keyboard.(right := true); }
      else if key == "Shift" { keyboard := keyboard.(up := true); }
      else if key == "Control" { keyboard := keyboard.(down := true); }
      else if key == "p" { AddSphere(); }
      else if key == "o" { ResetCameraRotation(); }
    }

    /** `onKeyUp`: movement keys clear their flag. */
    method OnKeyUp(key: string)
      modifies this`keyboard
      ensures keyboard == SetKey(old(keyboard), key, false)
    {
      if key == "w" { keyboard := keyboard.(forward := false); }
      else if key == "s" { keyboard := keyboard.(backward := false); }
      else if key == "a" { keyboard := keyboard.(left := false); }
      else if key == "d" { keyboard := keyboard.(right := false); }
      else if key == "Shift" { keyboard := keyboard.(up := false); }
      else if key == "Control" { keyboard := keyboard.(down := false); }
    }

    /** `moveCamera`, run once per frame. */
    method MoveCamera()
      modifies this`cameraPosition
      ensures cameraPosition == Add(old(cameraPosition), Displacement(keyboard))
    {
      if keyboard.forward { cameraPosition := cameraPosition.(z := cameraPosition.z - MOVE_SPEED); }
      if keyboard.backward { cameraPosition := cameraPosition.(z := cameraPosition.z + MOVE_SPEED); }
      if keyboard.left { cameraPosition := cameraPosition.(x := cameraPosition.x - MOVE_SPEED); }
      if keyboard.right { cameraPosition := cameraPosition.(x := cameraPosition.x + MOVE_SPEED); }
      if keyboard.up { cameraPosition := cameraPosition.(y := cameraPosition.y + MOVE_SPEED); }
      if keyboard.down { cameraPosition := cameraPosition.(y := cameraPosition.y - MOVE_SPEED); }
    }

    /** `resetCameraRotation`. */
    method ResetCameraRotation()
      modifies this`cameraRotation
      ensures cameraRotation == Euler(0.0, 0.0, 0.0)
    {
      cameraRotation := Euler(0.0, 0.0, 0.0);
    }

    method OnMouseDown(clientX: real, clientY: real)
      modifies this`isMouseDown, this`lastMouseX, this`lastMouseY
      ensures isMouseDown && lastMouseX == clientX && lastMouseY == clientY
    {
      isMouseDown := true;
      lastMouseX := clientX;
      lastMouseY := clientY;
    }

    method OnMouseUp()
      modifies this`isMouseDown
      ensures !isMouseDown
    {
      isMouseDown := false;
    }

    /** `onMouseMove`: while the button is held, dragging turns the camera; the pitch is
        kept between -pi/2 and pi/2 so the view never flips over. */
    method OnMouseMove(clientX: real, clientY: real)
      requires Valid()
      modifies this`cameraRotation, this`lastMouseX, this`lastMouseY
      ensures Valid()
      ensures -HALF_PI <= cameraRotation.x <= HALF_PI
      ensures !isMouseDown ==>
        cameraRotation == old(cameraRotation) && lastMouseX == old(lastMouseX) && lastMouseY == old(lastMouseY)
      ensures isMouseDown ==>
        && cameraRotation.y == old(cameraRotation.y) - (clientX - old(lastMouseX)) * ROTATION_SPEED
        && cameraRotation.x ==
             Clamp(-HALF_PI, HALF_PI, old(cameraRotation.x) - (clientY - old(lastMouseY)) * ROTATION_SPEED)
        && cameraRotation.z == old(cameraRotation.z)
        && lastMouseX == clientX && lastMouseY == clientY
    {
      if isMouseDown {
        var deltaX := clientX - lastMouseX;
        var deltaY := clientY - lastMouseY;
        cameraRotation := cameraRotation.(y := cameraRotation.y - deltaX * ROTATION_SPEED);
        cameraRotation := cameraRotation.(x := cameraRotation.x - deltaY * ROTATION_SPEED);
        cameraRotation := cameraRotation.(x := Clamp(-HALF_PI, HALF_PI, cameraRotation.x));
        lastMouseX := clientX;
        lastMouseY := clientY;
      }
    }
  }
}
