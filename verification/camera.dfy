/**
 * The camera selector (`CameraService`): three fixed perspective cameras, one of which
 * is active; the per-camera initial position that the idle drift is centred on is
 * recorded once.
 */
module Camera {
  import opened Wrappers

  /** The three cameras, as an enumeration rather than three scene-graph objects. */
  datatype CameraId = Camera1 | Camera2 | Camera3

  datatype Vec3 = Vec3(x: real, y: real, z: real)

  /** What the model keeps of one `THREE.PerspectiveCamera`. */
  datatype Lens = Lens(
    fov: real, aspect: real, near: real, far: real,
    position: Vec3,
    initialPos: Option<Vec3>)  // `userData.initialPos*`, absent until the first drift

  const FieldOfView: real := 75.0
  const NearClippingPane: real := 1.0
  const FarClippingPane: real := 1100.0
  const IntroFieldOfView: real := 200.0

  /** Where `create` places each camera. */
  function StartPosition(id: CameraId): Vec3 {
    match id
    case Camera1 => Vec3(0.0, 2.0, 2.0)
    case Camera2 => Vec3(20.0, 5.0, -20.0)
    case Camera3 => Vec3(15.0, -10.0, -40.0)
  }

  /** The camera `create` builds for `id`, before anything has moved it. */
  function NewCamera(id: CameraId, aspect: real): (c: Lens)
    ensures c.fov == 75.0 && c.near == 1.0 && c.far == 1100.0
    ensures c.aspect == aspect && c.initialPos == None
  {
    Lens(FieldOfView, aspect, NearClippingPane, FarClippingPane, StartPosition(id), None)
  }

  /** The record-once rule of `animate`: keep a recorded position, else record the current one. */
  function RecordInitial(c: Lens): (r: Lens)
    ensures r.initialPos.Some?
    ensures c.initialPos.Some? ==> r == c
    ensures c.initialPos.None? ==> r == c.(initialPos := Some(c.position))
  {
    if c.initialPos.Some? then c else c.(initialPos := Some(c.position))
  }

  /** Recording twice is recording once: later drifts never move the recorded centre. */
  lemma RecordInitialIdempotent(c: Lens, moved: Vec3)
    ensures RecordInitial(RecordInitial(c).(position := moved)) == RecordInitial(c).(position := moved)
    ensures RecordInitial(RecordInitial(c).(position := moved)).initialPos == RecordInitial(c).initialPos
  {
  }

  /**
   * What a finished drift tween leaves behind: camera `k`, the one the tween was started
   * on, stands at `(x, y)` at its old depth; every other camera and every lens setting
   * is as before.
   */
  function Drifted(cams: map<CameraId, Lens>, k: CameraId, x: real, y: real): (r: map<CameraId, Lens>)
    requires k in cams
    ensures r.Keys == cams.Keys
    ensures r[k].position == Vec3(x, y, cams[k].position.z)
    ensures forall id :: id in cams ==> r[id].(position := cams[id].position) == cams[id]
    ensures forall id :: id in cams && id != k ==> r[id] == cams[id]
  {
    cams[k := cams[k].(position := Vec3(x, y, cams[k].position.z))]
  }

  /**
   * A drift completing on camera `k` followed by the next `animate` on the active camera
   * `a`: no recorded centre moves, only `a` may gain one, only `k` moves, and only in x
   * and y.
   */
  lemma DriftKeepsCentres(cams: map<CameraId, Lens>, k: CameraId, a: CameraId, x: real, y: real)
    requires k in cams && a in cams && cams[k].initialPos.Some?
    ensures var m := Drifted(cams, k, x, y);
      var r := m[a := RecordInitial(m[a])];
      && r.Keys == cams.Keys
      && (forall id :: id in cams && cams[id].initialPos.Some? ==> r[id].initialPos == cams[id].initialPos)
      && (forall id :: id in cams && id != a ==> r[id].initialPos == cams[id].initialPos)
      && r[a].initialPos.Some?
      && (forall id :: id in cams && id != k ==> r[id].position == cams[id].position)
      && r[k].position == Vec3(x, y, cams[k].position.z)
      && (forall id :: id in cams ==>
            (r[id].fov, r[id].aspect, r[id].near, r[id].far) == (cams[id].fov, cams[id].aspect, cams[id].near, cams[id].far))
  {
  }

  class CameraService {
    var activeCamera: CameraId
    var cameras: map<CameraId, Lens>
    /**
     * The drift tween in progress, if one was started: the camera it moves (the one that
     * was active when `animate` started it) and its duration in seconds.
     */
    var drift: Option<(CameraId, int)>

    ghost predicate Valid()
      reads this
    {
      && Camera1 in cameras && Camera2 in cameras && Camera3 in cameras
      && activeCamera in cameras
      && (drift.Some? ==>
            1 <= drift.value.1 <= 3 && drift.value.0 in cameras && cameras[drift.value.0].initialPos.Some?)
    }

    /** The `camera` getter: the active camera. */
    function Camera(): (c: Lens)
      reads this
      requires Valid()
      ensures c == cameras[activeCamera]
    {
      cameras[activeCamera]
    }

    /** `create`: three cameras with the same lens settings, camera1 active. */
    constructor Create(aspect: real)
      ensures Valid()
      ensures activeCamera == Camera1
      ensures forall id :: id in cameras ==> cameras[id] == NewCamera(id, aspect)
      ensures cameras.Keys == {Camera1, Camera2, Camera3}
      ensures drift == None
    {
      activeCamera := Camera1;
      cameras := map[Camera1 := NewCamera(Camera1, aspect),
                     Camera2 := NewCamera(Camera2, aspect),
                     Camera3 := NewCamera(Camera3, aspect)];
      drift := None;
    }

    method ToCam(id: CameraId)
      requires Valid()
      modifies this`activeCamera
      ensures Valid()
      ensures activeCamera == id && Camera() == cameras[id]
    {
      activeCamera := id;
    }

    method ToCam1()
      requires Valid()
      modifies this`activeCamera
      ensures Valid() && activeCamera == Camera1 && Camera() == cameras[Camera1]
    {
      ToCam(Camera1);
    }

    method ToCam2()
      requires Valid()
      modifies this`activeCamera
      ensures Valid() && activeCamera == Camera2 && Camera() == cameras[Camera2]
    {
      ToCam(Camera2);
    }

    method ToCam3()
      requires Valid()
      modifies this`activeCamera
      ensures Valid() && activeCamera == Camera3 && Camera() == cameras[Camera3]
    {
      ToCam(Camera3);
    }

    /** `beforeIntro`: switch to camera1 and widen its field of view for the intro zoom. */
    method BeforeIntro()
      requires Valid()
      modifies this`activeCamera, this`cameras
      ensures Valid()
      ensures activeCamera == Camera1
      ensures cameras == old(cameras)[Camera1 := old(cameras)[Camera1].(fov := IntroFieldOfView)]
      ensures Camera().fov == 200.0
    {
      ToCam1();
      cameras := cameras[Camera1 := cameras[Camera1].(fov := IntroFieldOfView)];
    }

    /**
     * `animate`: record the active camera's initial position if none is recorded, then
     * start a drift tween of `time` seconds (`time` is the draw `randomIntFromInterval(1, 3)`).
     */
    method Animate(time: int)
      requires Valid()
      requires 1 <= time <= 3
      modifies this`cameras, this`drift
      ensures Valid()
      ensures cameras == old(cameras)[activeCamera := RecordInitial(old(cameras)[activeCamera])]
      ensures old(cameras)[activeCamera].initialPos.Some? ==> cameras == old(cameras)
      ensures Camera().initialPos.Some?
      ensures drift == Some((activeCamera, time))
    {
      cameras := cameras[activeCamera := RecordInitial(cameras[activeCamera])];
      drift := Some((activeCamera, time));
    }

    /**
     * Completion of a drift tween: the camera the tween was started on has been moved to
     * `(x, y)`, whichever camera is active now, and `onComplete` runs `animate` again,
     * which drifts the camera active at that moment (`nextTime` is its duration draw).
     */
    method CompleteDrift(x: real, y: real, nextTime: int)
      requires Valid() && drift.Some?
      requires 1 <= nextTime <= 3
      modifies this`cameras, this`drift
      ensures Valid()
      ensures var moved := Drifted(old(cameras), old(drift).value.0, x, y);
        cameras == moved[activeCamera := RecordInitial(moved[activeCamera])]
      ensures cameras[old(drift).value.0].initialPos == old(cameras)[old(drift).value.0].initialPos
      ensures drift == Some((activeCamera, nextTime))
    {
      cameras := Drifted(cameras, drift.value.0, x, y);
      Animate(nextTime);
    }
  }
}
