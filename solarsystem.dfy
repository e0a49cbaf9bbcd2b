/** The interactive solar-system scene (desktop and mobile components): the
    body layout, visibility while a body is inspected, the per-frame update of
    every body, and the camera that glides towards the focused body. */
module SolarSystem {
  import opened Wrappers
  import opened Geometry
  import opened Orbit

  /** The props a body is rendered with. */
  datatype BodyConfig = BodyConfig(name: string, radius: real, speed: real, size: real, isSun: bool)

  const Sun: BodyConfig := BodyConfig("Sun", 0.0, 0.0, 5.0, true)

  /** The nine bodies of the desktop scene, in render order. */
  const DesktopBodies: seq<BodyConfig> := [
    Sun,
    BodyConfig("Osmosis", 15.0, 0.25, 2.0, false),
    BodyConfig("Celestia", 25.0, 0.22, 2.2, false),
    BodyConfig("Mantra", 35.0, 0.28, 2.0, false),
    BodyConfig("Sei", 45.0, 0.3, 2.0, false),
    BodyConfig("Injective", 55.0, 0.24, 2.0, false),
    BodyConfig("THORChain", 65.0, 0.26, 2.0, false),
    BodyConfig("Secret", 75.0, 0.3, 2.0, false),
    BodyConfig("Akash", 85.0, 0.25, 2.4, false)
  ]

  /** The nine bodies of the mobile scene, in render order. */
  const MobileBodies: seq<BodyConfig> := [
    BodyConfig("Sun", 0.0, 0.0, 5.0, true),
    BodyConfig("Osmosis", 15.0, 0.25, 2.0, false),
    BodyConfig("Celestia", 25.0, 0.22, 2.2, false),
    BodyConfig("Mantra", 35.0, 0.28, 2.0, false),
    BodyConfig("Sei", 45.0, 0.3, 2.0, false),
    BodyConfig("Injective", 55.0, 0.24, 2.0, false),
    BodyConfig("THORChain", 65.0, 0.26, 2.0, false),
    BodyConfig("Secret", 75.0, 0.3, 2.0, false),
    BodyConfig("Akash", 85.0, 0.25, 2.4, false)
  ]

  /** Where the camera starts, far out on the z axis. */
  const StartCamera: Vec3 := Vec3(0.0, 0.0, 120.0)

  /** The camera aims at a point this far in front of the focused body. */
  const Standoff: Vec3 := Vec3(0.0, 0.0, 8.0)

  /** The point the camera aims at lies 8 units from the focused body. */
  lemma StandoffDistance(p: Vec3)
    ensures DistSq(p, Add(p, Standoff)) == 64.0
  {
    AddDistance(p, Standoff);
  }

  /** The fraction of the remaining way the camera moves per frame. */
  const FocusRate: real := 0.05

  predicate UniqueNames(bodies: seq<BodyConfig>) {
    forall i, j :: 0 <= i < j < |bodies| ==> bodies[i].name != bodies[j].name
  }

  /** The mobile scene lays out the same bodies as the desktop scene. */
  lemma MobileLayoutMatchesDesktop()
    ensures MobileBodies == DesktopBodies
  {
  }

  /** The layout: names are distinct, the Sun comes first and is the only
      body that does not orbit, and each of the eight planets has an orbit
      case of its own in the switch. */
  lemma LayoutWellFormed()
    ensures UniqueNames(DesktopBodies)
    ensures |DesktopBodies| == 9 && DesktopBodies[0] == Sun
    ensures forall i :: 1 <= i < |DesktopBodies| ==> !DesktopBodies[i].isSun
    ensures forall i :: 1 <= i < |DesktopBodies| ==> DesktopBodies[i].name in PlanetNames
    ensures forall n :: n in PlanetNames ==> exists i :: 1 <= i < |DesktopBodies| && DesktopBodies[i].name == n
  {
    assert DesktopBodies[1].name == "Osmosis";
    assert DesktopBodies[2].name == "Celestia";
    assert DesktopBodies[3].name == "Mantra";
    assert DesktopBodies[4].name == "Sei";
    assert DesktopBodies[5].name == "Injective";
    assert DesktopBodies[6].name == "THORChain";
    assert DesktopBodies[7].name == "Secret";
    assert DesktopBodies[8].name == "Akash";
  }

  /** isVisible(planetName): every body while nothing is inspected, otherwise
      only the inspected one. */
  predicate IsVisible(inspected: Option<string>, name: string) {
    if !Truthy(inspected) then true else inspected.value == name
  }

  /** The indices of the bodies that are drawn and animated. */
  function VisibleSet(bodies: seq<BodyConfig>, inspected: Option<string>): set<nat> {
    set i: nat | i < |bodies| && IsVisible(inspected, bodies[i].name)
  }

  /** While nothing is inspected every body is shown; while the body k is
      inspected it is the only one shown. */
  lemma VisibilityRule(bodies: seq<BodyConfig>, inspected: Option<string>, k: nat)
    requires UniqueNames(bodies)
    requires k < |bodies|
    ensures !Truthy(inspected) ==> forall i :: 0 <= i < |bodies| ==> i in VisibleSet(bodies, inspected)
    ensures Truthy(inspected) && inspected.value == bodies[k].name ==> VisibleSet(bodies, inspected) == {k}
  {
  }

  /** The ring a body's orbit keeps it in (see Orbit.PathBounds). */
  predicate InRing(b: BodyConfig, p: Vec3) {
    var k := PathOf(b.name);
    && Sq(InnerScale(k) * b.radius) <= Sq(p.x) + Sq(p.z) <= Sq(OuterScale(k) * b.radius)
    && Abs(p.y) <= Tilt(k) * Abs(b.radius)
  }

  /** A planet's centre keeps, horizontally, more than the two radii between
      itself and the Sun, for each planet of the layout. */
  predicate ClearOfSun(b: BodyConfig) {
    Sq(InnerScale(PathOf(b.name)) * b.radius) > Sq(Sun.size + b.size)
  }

  lemma LayoutClearOfSun()
    ensures forall i :: 1 <= i < |DesktopBodies| ==> ClearOfSun(DesktopBodies[i])
  {
    assert ClearOfSun(DesktopBodies[1]);
    assert ClearOfSun(DesktopBodies[2]);
    assert ClearOfSun(DesktopBodies[3]);
    assert ClearOfSun(DesktopBodies[4]);
    assert ClearOfSun(DesktopBodies[5]);
    assert ClearOfSun(DesktopBodies[6]);
    assert ClearOfSun(DesktopBodies[7]);
    assert ClearOfSun(DesktopBodies[8]);
  }

  /** The hover scale of 1.1 enlarges the drawn spheres; each planet's
      inner ring still clears the Sun with both drawn at that scale. */
  lemma LayoutClearOfSunWhenHovered()
    ensures forall i :: 1 <= i < |DesktopBodies| ==>
      Sq(InnerScale(PathOf(DesktopBodies[i].name)) * DesktopBodies[i].radius) > Sq(1.1 * (Sun.size + DesktopBodies[i].size))
  {
    assert Sq(InnerScale(PathOf(DesktopBodies[1].name)) * DesktopBodies[1].radius) > Sq(1.1 * (Sun.size + DesktopBodies[1].size));
    assert Sq(InnerScale(PathOf(DesktopBodies[2].name)) * DesktopBodies[2].radius) > Sq(1.1 * (Sun.size + DesktopBodies[2].size));
    assert Sq(InnerScale(PathOf(DesktopBodies[3].name)) * DesktopBodies[3].radius) > Sq(1.1 * (Sun.size + DesktopBodies[3].size));
    assert Sq(InnerScale(PathOf(DesktopBodies[4].name)) * DesktopBodies[4].radius) > Sq(1.1 * (Sun.size + DesktopBodies[4].size));
    assert Sq(InnerScale(PathOf(DesktopBodies[5].name)) * DesktopBodies[5].radius) > Sq(1.1 * (Sun.size + DesktopBodies[5].size));
    assert Sq(InnerScale(PathOf(DesktopBodies[6].name)) * DesktopBodies[6].radius) > Sq(1.1 * (Sun.size + DesktopBodies[6].size));
    assert Sq(InnerScale(PathOf(DesktopBodies[7].name)) * DesktopBodies[7].radius) > Sq(1.1 * (Sun.size + DesktopBodies[7].size));
    assert Sq(InnerScale(PathOf(DesktopBodies[8].name)) * DesktopBodies[8].radius) > Sq(1.1 * (Sun.size + DesktopBodies[8].size));
  }

  /** No planet of the layout ever touches the Sun's sphere: wherever its
      orbit puts it, its centre is farther from the Sun's centre than the sum
      of the two radii. */
  lemma NeverTouchesSun(tr: Trig, i: nat, t: real)
    requires tr.Valid()
    requires 1 <= i < |DesktopBodies|
    ensures var b := DesktopBodies[i];
      DistSq(Origin, OrbitPos(tr, b.name, b.radius, b.speed, t)) > Sq(Sun.size + b.size)
  {
    var b := DesktopBodies[i];
    PathBounds(tr, PathOf(b.name), b.radius, b.speed, t);
    LayoutClearOfSun();
    RingClearOfSun(b, OrbitPos(tr, b.name, b.radius, b.speed, t));
  }

  /** In the ring of a body that is clear of the Sun, the body does not touch it. */
  lemma RingClearOfSun(b: BodyConfig, p: Vec3)
    requires InRing(b, p) && ClearOfSun(b)
    ensures DistSq(Origin, p) > Sq(Sun.size + b.size)
  {
    SquareNonNegative(p.y);
  }

  /** One body's frame update: the Sun and hidden bodies keep their place,
      every other body moves to where its orbit puts it at time t. */
  function BodyStep(tr: Trig, b: BodyConfig, inspected: Option<string>, prev: Vec3, t: real): Vec3 {
    if !IsVisible(inspected, b.name) || b.isSun then prev else OrbitPos(tr, b.name, b.radius, b.speed, t)
  }

  /** Every body's frame update, body by body. ts[j] is the clock reading
      body j's callback takes: the clock advances on every reading, so each
      body may see a later time than the one before it. The readings of the
      Sun and of hidden bodies are never used, as their callbacks return
      before reading the clock. */
  function FramePositions(tr: Trig, bodies: seq<BodyConfig>, inspected: Option<string>, prev: seq<Vec3>, ts: seq<real>): (r: seq<Vec3>)
    requires |prev| == |bodies| && |ts| == |bodies|
    ensures |r| == |bodies|
  {
    seq(|bodies|, j requires 0 <= j < |bodies| => BodyStep(tr, bodies[j], inspected, prev[j], ts[j]))
  }

  /** The Sun never moves, a hidden body is frozen, and every other body is
      on its ring after a frame. */
  lemma BodyStepCases(tr: Trig, b: BodyConfig, inspected: Option<string>, prev: Vec3, t: real)
    requires tr.Valid()
    ensures b.isSun ==> BodyStep(tr, b, inspected, prev, t) == prev
    ensures !IsVisible(inspected, b.name) ==> BodyStep(tr, b, inspected, prev, t) == prev
    ensures IsVisible(inspected, b.name) && !b.isSun ==> InRing(b, BodyStep(tr, b, inspected, prev, t))
  {
    PathBounds(tr, PathOf(b.name), b.radius, b.speed, t);
  }

  /** The bodies' frame callbacks, run in render order: each visible body
      other than the Sun moves to where its orbit puts it at the time its
      own clock reading gives. */
  method StepBodies(tr: Trig, bodies: seq<BodyConfig>, inspected: Option<string>, prev: seq<Vec3>, ts: seq<real>)
    returns (ps: seq<Vec3>)
    requires |prev| == |bodies| && |ts| == |bodies|
    ensures ps == FramePositions(tr, bodies, inspected, prev, ts)
  {
    ps := prev;
    var i := 0;
    while i < |bodies|
      invariant 0 <= i <= |bodies| && |ps| == |bodies|
      invariant forall j :: 0 <= j < i ==> ps[j] == BodyStep(tr, bodies[j], inspected, prev[j], ts[j])
      invariant forall j :: i <= j < |bodies| ==> ps[j] == prev[j]
    {
      var b := bodies[i];
      if IsVisible(inspected, b.name) && !b.isSun {
        ps := ps[i := OrbitPos(tr, b.name, b.radius, b.speed, ts[i])];
      }
      i := i + 1;
    }
  }

  /** What holds of the bodies' positions at every frame: the Sun is at the
      origin, and every other body is still at its start (the origin) or on
      its ring. */
  predicate PositionsOk(bodies: seq<BodyConfig>, ps: seq<Vec3>) {
    && |ps| == |bodies|
    && (forall i :: 0 <= i < |bodies| && bodies[i].isSun ==> ps[i] == Origin)
    && (forall i :: 0 <= i < |bodies| ==> ps[i] == Origin || InRing(bodies[i], ps[i]))
  }

  /** A frame keeps PositionsOk. */
  lemma FrameKeepsPositionsOk(tr: Trig, bodies: seq<BodyConfig>, inspected: Option<string>, prev: seq<Vec3>, ts: seq<real>)
    requires tr.Valid() && PositionsOk(bodies, prev) && |ts| == |bodies|
    ensures PositionsOk(bodies, FramePositions(tr, bodies, inspected, prev, ts))
  {
    var next := FramePositions(tr, bodies, inspected, prev, ts);
    forall j | 0 <= j < |bodies|
      ensures next[j] == Origin || InRing(bodies[j], next[j])
      ensures bodies[j].isSun ==> next[j] == Origin
    {
      BodyStepCases(tr, bodies[j], inspected, prev[j], ts[j]);
    }
  }

  /** The camera's move towards a goal in one frame: Vector3.lerp by 0.05. */
  function FocusStep(camera: Vec3, goal: Vec3): Vec3 {
    Lerp(camera, goal, FocusRate)
  }

  /** One frame of focusing leaves 95% of the gap to the goal on every axis
      and never overshoots it. */
  lemma FocusStepGap(camera: Vec3, goal: Vec3)
    ensures var c := FocusStep(camera, goal);
      && goal.x - c.x == 0.95 * (goal.x - camera.x)
      && goal.y - c.y == 0.95 * (goal.y - camera.y)
      && goal.z - c.z == 0.95 * (goal.z - camera.z)
      && Between(c.x, camera.x, goal.x) && Between(c.y, camera.y, goal.y) && Between(c.z, camera.z, goal.z)
  {
  }

  /** One frame of focusing scales the squared distance to the goal by
      0.9025, so the camera strictly approaches any goal it is not at. */
  lemma FocusStepDistance(camera: Vec3, goal: Vec3)
    ensures DistSq(FocusStep(camera, goal), goal) == 0.9025 * DistSq(camera, goal)
    ensures DistSq(camera, goal) > 0.0 ==> DistSq(FocusStep(camera, goal), goal) < DistSq(camera, goal)
  {
    LerpScalesDistSq(camera, goal, FocusRate);
    assert Sq(1.0 - FocusRate) == 0.9025;
  }

  /** The camera after k frames of focusing on a goal that does not move. */
  function FocusSteps(camera: Vec3, goal: Vec3, k: nat): Vec3 {
    if k == 0 then camera else FocusStep(FocusSteps(camera, goal, k - 1), goal)
  }

  function Pow(b: real, k: nat): real {
    if k == 0 then 1.0 else b * Pow(b, k - 1)
  }

  /** Focused on a goal that stands still, the squared distance to it
      shrinks geometrically: after k frames it is 0.9025^k of what it was.
      This is FocusCamera's move alone. For the Sun, the one body that stands
      still, the orbit controls' minimum distance of 10 from their target (the origin)
      keeps the real camera short of the goal (0, 0, 8), which is 8 from the
      Sun. */
  lemma {:induction false} FocusConverges(camera: Vec3, goal: Vec3, k: nat)
    ensures DistSq(FocusSteps(camera, goal, k), goal) == Pow(0.9025, k) * DistSq(camera, goal)
  {
    if k > 0 {
      var prev := FocusSteps(camera, goal, k - 1);
      FocusConverges(camera, goal, k - 1);
      FocusStepDistance(prev, goal);
      Regroup(0.9025, Pow(0.9025, k - 1), DistSq(camera, goal));
    }
  }

  lemma Regroup(c: real, p: real, d: real)
    ensures c * (p * d) == (c * p) * d
  {
  }

  /** The text over the desktop canvas. */
  datatype Hud = NoHud | Hint(text: string) | Panel(title: string, button: string)

  function DesktopHud(inspected: Option<string>): Hud {
    if !Truthy(inspected) then Hint("Click a planet to inspect")
    else Panel(inspected.value + " inspection", "Close Inspection")
  }

  function MobileHud(inspected: Option<string>): Hud {
    if Truthy(inspected) then Panel(inspected.value + " Inspection", "Close") else NoHud
  }

  /** Both layouts show an inspection panel exactly while a name is
      inspected, titled with that name; only the desktop shows a hint
      otherwise. */
  lemma HudsAgree(inspected: Option<string>)
    ensures DesktopHud(inspected).Panel? <==> Truthy(inspected)
    ensures MobileHud(inspected).Panel? <==> Truthy(inspected)
    ensures DesktopHud(inspected).Hint? <==> MobileHud(inspected).NoHud?
    ensures Truthy(inspected) ==>
      && DesktopHud(inspected).title[..|inspected.value|] == inspected.value
      && MobileHud(inspected).title[..|inspected.value|] == inspected.value
  {
  }

  /** The running scene: the bodies' positions, what is focused and
      inspected, and the camera. focused is the ref of the clicked body
      (an index into bodies), inspected its name. */
  class Scene {
    const trig: Trig
    const bodies: seq<BodyConfig>
    var positions: seq<Vec3>
    var focused: Option<nat>
    var inspected: Option<string>
    var camera: Vec3
    var lookAt: Option<Vec3>

    ghost predicate Valid()
      reads this
    {
      && trig.Valid()
      && PositionsOk(bodies, positions)
      && (focused.Some? <==> inspected.Some?)
      && (focused.Some? ==> focused.value < |bodies| && inspected.value == bodies[focused.value].name)
    }

    /** The scene as first rendered: every body at the origin, the camera at
        its start, nothing focused. */
    constructor (tr: Trig, bs: seq<BodyConfig>)
      requires tr.Valid()
      ensures Valid()
      ensures trig == tr && bodies == bs
      ensures positions == seq(|bs|, _ => Origin)
      ensures focused == None && inspected == None
      ensures camera == StartCamera && lookAt == None
    {
      trig := tr;
      bodies := bs;
      positions := seq(|bs|, _ => Origin);
      focused := None;
      inspected := None;
      camera := StartCamera;
      lookAt := None;
    }

    /** handlePlanetClick: the clicked body becomes focused and inspected. */
    method Click(i: nat)
      requires Valid() && i < |bodies|
      modifies this
      ensures Valid()
      ensures focused == Some(i) && inspected == Some(bodies[i].name)
      ensures positions == old(positions) && camera == old(camera) && lookAt == old(lookAt)
    {
      focused := Some(i);
      inspected := Some(bodies[i].name);
    }

    /** The close button: nothing is focused or inspected any more. */
    method Close()
      requires Valid()
      modifies this
      ensures Valid()
      ensures focused == None && inspected == None
      ensures positions == old(positions) && camera == old(camera) && lookAt == old(lookAt)
    {
      focused := None;
      inspected := None;
    }

    /** One animation frame: every body's frame callback in render order,
        body j reading the clock as ts[j], then the camera's. */
    method Frame(ts: seq<real>)
      requires Valid() && |ts| == |bodies|
      modifies this
      ensures Valid()
      ensures positions == FramePositions(trig, bodies, inspected, old(positions), ts)
      ensures focused == old(focused) && inspected == old(inspected)
      ensures focused.None? ==> camera == old(camera) && lookAt == old(lookAt)
      ensures focused.Some? ==>
        && camera == FocusStep(old(camera), Add(positions[focused.value], Standoff))
        && lookAt == Some(positions[focused.value])
    {
      var ps := StepBodies(trig, bodies, inspected, positions, ts);
      FrameKeepsPositionsOk(trig, bodies, inspected, positions, ts);
      positions := ps;
      if focused.Some? {
        var p := positions[focused.value];
        camera := FocusStep(camera, Add(p, Standoff));
        lookAt := Some(p);
      }
    }
  }
}
