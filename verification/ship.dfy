/**
 * The randomised route planners of `ShipService`: the fly-by ship and the mothership
 * drones. Every `randomIntFromInterval` call is an integer draw that lies in the interval
 * the call was made with, and every `Math.round(Math.random())` is a draw of 0 or 1, so
 * each planner is a function of its draws. The planners produce the start position and
 * the integer waypoint lists handed to the tween engine.
 */
module Ship {
  import opened Wrappers
  import opened Utils

  const XMin: int := -50
  const XMax: int := 50
  const YMin: int := -10
  const YMax: int := 0
  const ZMin: int := -10
  const ZMax: int := -2

  /** The coordinate a waypoint gives besides x: y for types 1 and 2, z for types 0 and 3. */
  datatype Axis = AxisY | AxisZ

  /** A waypoint `{x, y}` or `{x, z}`; which one is the leg's axis. */
  datatype Point = Point(x: int, c: int)

  /** One bezier tween: its waypoints and its duration in seconds. */
  datatype Leg = Leg(axis: Axis, points: seq<Point>, duration: int)

  /** The draws of one `animateMovingShip` call, in the order the source makes them. */
  datatype FlyByDraws = FlyByDraws(
    y: int, z: int,               // start position
    kind: int, dir: int,          // `type` in 0..3 and direction in 0..1
    time1: int, time2: int,
    params: seq<int>,             // the draws that fill `params`
    shootaway: int,               // Math.round(Math.random())
    awayDir: int, awayTime1: int, awayTime2: int,
    away: seq<int>)               // the draws of the shoot-away bezier

  datatype FlyByPlan = FlyByPlan(
    startX: int, startY: int, startZ: int,
    params: seq<Point>,
    first: Leg,
    second: Option<Leg>)

  function SecondAxis(kind: int): Axis {
    if kind == 0 || kind == 3 then AxisZ else AxisY
  }

  function SecondRange(kind: int): Interval {
    if SecondAxis(kind) == AxisZ then Interval(ZMin, ZMax) else Interval(YMin, YMax)
  }

  function Time1Range(dir: int): Interval {
    if dir == 0 then Interval(2, 10) else Interval(1, 2)
  }

  function Time2Range(dir: int): Interval {
    if dir == 0 then Interval(1, 2) else Interval(2, 10)
  }

  function StartX(dir: int): int {
    if dir == 0 then XMin else XMax
  }

  function EndX(dir: int): int {
    if dir == 0 then XMax else XMin
  }

  /** The intervals of the draws that fill `params`, per type and direction, in call order. */
  function ParamRanges(kind: int, dir: int): seq<Interval> {
    var c := SecondRange(kind);
    var centre := Interval(-2, 2);
    var nearSide := if dir == 0 then Interval(XMin / 2 - 2, XMin / 2 + 2) else Interval(XMax / 2 - 2, XMax / 2 + 2);
    var farSide := if dir == 0 then Interval(XMax / 2 - 2, XMax / 2 + 2) else Interval(XMin / 2 - 2, XMin / 2 + 2);
    if kind == 0 || kind == 1 then [centre, c, c]
    else [nearSide, c, centre, c, farSide, c, c]
  }

  /** The `params` waypoint list the switch statement builds from its draws. */
  function BuildParams(kind: int, dir: int, w: seq<int>): (ps: seq<Point>)
    requires 0 <= kind <= 3 && 0 <= dir <= 1
    requires Fits(w, ParamRanges(kind, dir))
    ensures |ps| == (if kind <= 1 then 2 else 4)
    ensures ps[|ps| - 1].x == EndX(dir)
    ensures forall i :: 0 <= i < |ps| ==> In(ps[i].c, SecondRange(kind))
    ensures -2 <= ps[if kind <= 1 then 0 else 1].x <= 2
    ensures dir == 0 ==> StartX(dir) < ps[0].x && forall i :: 0 < i < |ps| ==> ps[i - 1].x < ps[i].x
    ensures dir == 1 ==> StartX(dir) > ps[0].x && forall i :: 0 < i < |ps| ==> ps[i - 1].x > ps[i].x
  {
    assert forall i :: 0 <= i < |w| ==> In(w[i], ParamRanges(kind, dir)[i]);
    if kind <= 1 then [Point(w[0], w[1]), Point(EndX(dir), w[2])]
    else [Point(w[0], w[1]), Point(w[2], w[3]), Point(w[4], w[5]), Point(EndX(dir), w[6])]
  }

  predicate ShootsAway(d: FlyByDraws) {
    (d.kind == 2 || d.kind == 3) && d.shootaway == 1
  }

  function AwayRanges(dir: int): seq<Interval> {
    if dir == 0 then [Interval(30, 70), Interval(1, 5)] else []
  }

  /** The shoot-away bezier, an `{x, z}` path that ends 1000 units away. */
  function AwayPoints(dir: int, w: seq<int>): (ps: seq<Point>)
    requires Fits(w, AwayRanges(dir))
    ensures |ps| == 2 && ps[1].c == -1000
  {
    if dir == 0 then [Point(10, -w[0]), Point(w[1], -1000)]
    else [Point(-70, -50), Point(-50, -1000)]
  }

  /** The draws an `animateMovingShip` call can make. */
  predicate ValidFlyByDraws(d: FlyByDraws) {
    && In(d.y, Interval(YMin, YMax)) && In(d.z, Interval(ZMin, ZMax))
    && 0 <= d.kind <= 3 && 0 <= d.dir <= 1
    && In(d.time1, Time1Range(d.dir)) && In(d.time2, Time2Range(d.dir))
    && Fits(d.params, ParamRanges(d.kind, d.dir))
    && 0 <= d.shootaway <= 1
    && (ShootsAway(d) ==>
          && 0 <= d.awayDir <= 1
          && In(d.awayTime1, Time1Range(d.awayDir)) && In(d.awayTime2, Time2Range(d.awayDir))
          && Fits(d.away, AwayRanges(d.awayDir)))
  }

  /** The direction whose duration rule the two tween durations follow. */
  function TimingDir(d: FlyByDraws): int {
    if ShootsAway(d) then d.awayDir else d.dir
  }

  /**
   * `animateMovingShip`: where the ship starts and the tweens it runs. Types 0 and 1 fly
   * one leg through two waypoints; types 2 and 3 fly two legs, the second either through
   * the last two planned waypoints or, when shooting away, off to z = -1000.
   */
  function PlanFlyBy(d: FlyByDraws): (p: FlyByPlan)
    requires ValidFlyByDraws(d)
    ensures p.startX == (if d.dir == 0 then -50 else 50) && p.startY == d.y && p.startZ == d.z
    ensures |p.params| == (if d.kind <= 1 then 2 else 4)
    ensures p.params[|p.params| - 1].x == (if d.dir == 0 then 50 else -50)
    ensures forall i :: 0 <= i < |p.params| ==>
      if d.kind == 0 || d.kind == 3 then -10 <= p.params[i].c <= -2 else -10 <= p.params[i].c <= 0
    ensures -2 <= p.params[if d.kind <= 1 then 0 else 1].x <= 2
    ensures d.dir == 0 ==> p.startX < p.params[0].x && forall i :: 0 < i < |p.params| ==> p.params[i - 1].x < p.params[i].x
    ensures d.dir == 1 ==> p.startX > p.params[0].x && forall i :: 0 < i < |p.params| ==> p.params[i - 1].x > p.params[i].x
    ensures p.first == Leg(SecondAxis(d.kind), p.params[..2], p.first.duration)
    ensures p.second.Some? <==> d.kind == 2 || d.kind == 3
    ensures ShootsAway(d) ==>
      && p.second.value.axis == AxisZ && |p.second.value.points| == 2
      && p.second.value.points[1].c == -1000
    ensures p.second.Some? && !ShootsAway(d) ==>
      p.second.value.axis == SecondAxis(d.kind) && p.second.value.points == p.params[2..]
    ensures TimingDir(d) == 0 ==>
      2 <= p.first.duration <= 10 && (p.second.Some? ==> 1 <= p.second.value.duration <= 2)
    ensures TimingDir(d) == 1 ==>
      1 <= p.first.duration <= 2 && (p.second.Some? ==> 2 <= p.second.value.duration <= 10)
  {
    var ps := BuildParams(d.kind, d.dir, d.params);
    var axis := SecondAxis(d.kind);
    var time1 := if ShootsAway(d) then d.awayTime1 else d.time1;
    var time2 := if ShootsAway(d) then d.awayTime2 else d.time2;
    var second :=
      if d.kind <= 1 then None
      else if ShootsAway(d) then Some(Leg(AxisZ, AwayPoints(d.awayDir, d.away), time2))
      else Some(Leg(axis, ps[2..], time2));
    FlyByPlan(StartX(d.dir), d.y, d.z, ps, Leg(axis, ps[..2], time1), second)
  }

  /**
   * Raw draws in [0, 1) always give `params` draws that fit the `randomIntFromInterval`
   * calls of one type and direction.
   */
  lemma ParamDrawsFit(kind: int, dir: int, rs: seq<real>)
    requires |rs| == |ParamRanges(kind, dir)| && ProperDraws(rs)
    ensures Fits(DrawAll(ParamRanges(kind, dir), rs), ParamRanges(kind, dir))
  {
    assert NonEmpty(ParamRanges(kind, dir));
  }

  /** Every fitting `params` list of one type and direction is what some raw draws give. */
  lemma ParamDrawsReachable(kind: int, dir: int, w: seq<int>)
    requires Fits(w, ParamRanges(kind, dir))
    ensures exists rs :: |rs| == |ParamRanges(kind, dir)| && ProperDraws(rs) && DrawAll(ParamRanges(kind, dir), rs) == w
  {
    var ivs := ParamRanges(kind, dir);
    assert NonEmpty(ivs);
    FittingDrawsReachable(ivs, w);
  }

  /** The positions of the draws that give an x coordinate, per type. */
  predicate IsXDraw(kind: int, i: int) {
    if kind <= 1 then i == 0 else i == 0 || i == 2 || i == 4
  }

  function MirrorDraws(kind: int, w: seq<int>): (m: seq<int>)
    ensures |m| == |w|
  {
    seq(|w|, i requires 0 <= i < |w| => if IsXDraw(kind, i) then -w[i] else w[i])
  }

  function Mirror(ps: seq<Point>): (m: seq<Point>)
    ensures |m| == |ps|
  {
    seq(|ps|, i requires 0 <= i < |ps| => Point(-ps[i].x, ps[i].c))
  }

  /**
   * Direction 1 is the mirror image of direction 0: negating the x draws of a direction-0
   * plan gives draws direction 1 can make, and its waypoints are the mirrored waypoints.
   */
  lemma FlyByMirror(kind: int, w: seq<int>)
    requires 0 <= kind <= 3
    requires Fits(w, ParamRanges(kind, 0))
    ensures Fits(MirrorDraws(kind, w), ParamRanges(kind, 1))
    ensures BuildParams(kind, 1, MirrorDraws(kind, w)) == Mirror(BuildParams(kind, 0, w))
    ensures StartX(1) == -StartX(0)
  {
    var m := MirrorDraws(kind, w);
    forall i | 0 <= i < |w| ensures In(m[i], ParamRanges(kind, 1)[i]) {
      assert In(w[i], ParamRanges(kind, 0)[i]);
    }
  }

  /** The draws of one `animateMotherShipDrone` call, in the order the source makes them. */
  datatype DroneDraws = DroneDraws(
    haven: int,          // Math.round(Math.random()): 0 docks at z = 4, 1 at z = 6
    leaveOrDock: int,    // Math.round(Math.random()): 0 leaves, 1 docks
    path: seq<int>,      // the draws of the bezier
    time: int, delay: int)

  datatype DronePlan = DronePlan(
    leaving: bool, havenZ: int,
    startX: real, startZ: real,
    path: seq<Point>,    // `{x, z}` waypoints
    duration: int, delay: int)

  function DroneRanges(leaveOrDock: int): seq<Interval> {
    if leaveOrDock == 0 then
      [Interval(5, 10), Interval(50, 500), Interval(-500, 500), Interval(500, 1000), Interval(-1000, 1000)]
    else
      [Interval(500, 1000), Interval(-1000, 1000), Interval(100, 500), Interval(-500, 500), Interval(5, 10)]
  }

  predicate ValidDroneDraws(d: DroneDraws) {
    && 0 <= d.haven <= 1 && 0 <= d.leaveOrDock <= 1
    && Fits(d.path, DroneRanges(d.leaveOrDock))
    && In(d.time, Interval(10, 20)) && In(d.delay, Interval(5, 20))
  }

  function HavenZ(haven: int): int {
    if haven == 0 then 4 else 6
  }

  /** The bezier a drone flies: out from its haven, or in from far away to the haven. */
  function DroneRoute(d: DroneDraws): (ps: seq<Point>)
    requires ValidDroneDraws(d)
    ensures d.leaveOrDock == 0 ==>
      |ps| == 3 && 5 <= ps[0].x <= 10 && ps[0].c == HavenZ(d.haven) && 500 <= ps[2].x <= 1000
    ensures d.leaveOrDock == 1 ==>
      |ps| == 4 && 500 <= ps[0].x <= 1000 && -1000 <= ps[0].c <= 1000
      && ps[3] == Point(0, HavenZ(d.haven)) && ps[2].c == HavenZ(d.haven) && 5 <= ps[2].x <= 10
  {
    var w := d.path;
    assert forall i :: 0 <= i < |w| ==> In(w[i], DroneRanges(d.leaveOrDock)[i]);
    var hz := HavenZ(d.haven);
    if d.leaveOrDock == 0 then [Point(w[0], hz), Point(w[1], w[2]), Point(w[3], w[4])]
    else [Point(w[0], w[1]), Point(w[2], w[3]), Point(w[4], hz), Point(0, hz)]
  }

  /**
   * `animateMotherShipDrone`: a leaving drone is put at x = 0 just off its haven (z = 4.5
   * or 6); a docking drone is put at the first waypoint of its path.
   */
  function PlanDrone(d: DroneDraws): (p: DronePlan)
    requires ValidDroneDraws(d)
    ensures p.havenZ == 4 || p.havenZ == 6
    ensures p.leaving <==> d.leaveOrDock == 0
    ensures |p.path| == (if p.leaving then 3 else 4)
    ensures !p.leaving ==>
      && p.path[|p.path| - 1] == Point(0, p.havenZ)
      && p.startX == p.path[0].x as real && p.startZ == p.path[0].c as real
    ensures p.leaving ==>
      && p.startX == 0.0 && p.startZ == (if p.havenZ == 4 then 4.5 else 6.0)
      && 5 <= p.path[0].x <= 10 && p.path[0].c == p.havenZ
    ensures 10 <= p.duration <= 20 && 5 <= p.delay <= 20
  {
    var route := DroneRoute(d);
    var leaving := d.leaveOrDock == 0;
    var startX := if leaving then 0.0 else route[0].x as real;
    var startZ := if leaving then (if d.haven == 0 then 4.5 else 6.0) else route[0].c as real;
    DronePlan(leaving, HavenZ(d.haven), startX, startZ, route, d.time, d.delay)
  }

  /** What the model keeps of a `THREE.Mesh`: its position. */
  class Mesh {
    var x: real
    var y: real
    var z: real

    constructor (x: real, y: real, z: real)
      ensures this.x == x && this.y == y && this.z == z
    {
      this.x, this.y, this.z := x, y, z;
    }
  }

  class ShipService {
    const movingShip: Mesh

    /**
     * The fly-by ship as `create` first places it. The same `create` call then runs
     * `animateMovingShip`, which moves it to the planned start (`AnimateMovingShip`).
     */
    constructor ()
      ensures fresh(movingShip)
      ensures movingShip.x == -50.0 && movingShip.y == -5.0 && movingShip.z == -19.0
    {
      movingShip := new Mesh(-50.0, -5.0, -19.0);
    }

    /** `hideMovingShip`: park the ship far outside the view; only its position changes. */
    method HideMovingShip()
      modifies movingShip`x, movingShip`y, movingShip`z
      ensures movingShip.x == -10000.0 && movingShip.y == -10000.0 && movingShip.z == -10000.0
    {
      movingShip.x := -10000.0;
      movingShip.y := -10000.0;
      movingShip.z := -10000.0;
    }

    /** `animateMovingShip`: place the ship at its start and hand back the planned tweens. */
    method AnimateMovingShip(d: FlyByDraws) returns (p: FlyByPlan)
      requires ValidFlyByDraws(d)
      modifies movingShip`x, movingShip`y, movingShip`z
      ensures p == PlanFlyBy(d)
      ensures movingShip.x == p.startX as real && movingShip.y == p.startY as real && movingShip.z == p.startZ as real
    {
      movingShip.y := d.y as real;
      movingShip.z := d.z as real;
      movingShip.x := StartX(d.dir) as real;
      p := PlanFlyBy(d);
    }

    /** The last tween's `onComplete`: hide the ship (the wormhole flash is not modelled). */
    method OnFlyByComplete()
      modifies movingShip`x, movingShip`y, movingShip`z
      ensures movingShip.x == -10000.0 && movingShip.y == -10000.0 && movingShip.z == -10000.0
    {
      HideMovingShip();
    }

    /** `animateMotherShipDrone`: place the drone and hand back its tween. */
    method AnimateMotherShipDrone(drone: Mesh, d: DroneDraws) returns (p: DronePlan)
      requires ValidDroneDraws(d)
      modifies drone`x, drone`z
      ensures p == PlanDrone(d)
      ensures drone.x == p.startX && drone.z == p.startZ
    {
      p := PlanDrone(d);
      drone.z := if d.haven == 0 then 4.5 else 6.0;
      if d.leaveOrDock == 0 {
        drone.x := 0.0;
      } else {
        drone.x := p.path[0].x as real;
        drone.z := p.path[0].c as real;
      }
    }
  }
}
