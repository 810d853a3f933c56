/**
 * The earlier, all-in-one scene component (`SceneComponent` in `scene.component.1.ts`):
 * its own two-list preloader that ends by building the scene, the view's aspect ratio,
 * the latitude clamp of the mouse look, and its copies of the fly-by planner, the drone
 * planner and the panel text loop.
 *
 * The fly-by plan is the same function of the draws as `ShipService`'s, and the panel
 * pass is the same step as `PanelService`'s with every panel always projected; they are
 * reused here. The drone planner differs in where a leaving drone starts.
 */
module LegacyScene {
  import opened Wrappers
  import opened Assets
  import Ship
  import Panels

  /** The component's texture list, in declaration order. */
  const LegacyTextureEntries: seq<LoadEntry> := [
    Tex("ship", "ship/ship3.jpg"),
    Tex("ship_bump", "ship/ship3_bump.jpg"),
    Tex("star", "star_moving.png"),
    Tex("planetcloud", "planet/cloud.png"),
    Tex("planetsurface", "planet/surface.jpg"),
    Tex("glas", "glas_uv.png"),
    Tex("glas_bump", "glas_uv_bump.jpg"),
    Tex("projection", "projection.png")
  ]

  /** The component's model list, in declaration order. */
  const LegacyModelEntries: seq<LoadEntry> := [
    Geo("ship", "ship3.json"),
    Geo("glas", "glas.json"),
    Geo("ship_complete", "ship_complete.json"),
    Geo("mothership", "mothership.json"),
    Geo("mothership_ring1", "mothership_ring1.json"),
    Geo("mothership_ring2", "mothership_ring2.json"),
    Geo("projection", "projection.json")
  ]

  /** Every load the component's `preload` issues, in order; there is no cubemap list. */
  function LegacySchedule(): seq<Load> {
    Pending(LegacyTextureEntries, LegacyModelEntries, [])
  }

  /**
   * 8 + 7 loads: all textures first, each list drained from its end, so the first load
   * is the last-declared texture and the first model load the last-declared model.
   */
  lemma LegacyScheduleShape()
    ensures |LegacySchedule()| == 15
    ensures forall i :: 0 <= i < 15 ==> (LegacySchedule()[i].kind == Texture <==> i < 8)
    ensures forall i :: 0 <= i < 15 ==> (LegacySchedule()[i].kind == Model <==> 8 <= i)
    ensures LegacySchedule()[0] == Load(Texture, Tex("projection", "projection.png"))
    ensures LegacySchedule()[7] == Load(Texture, Tex("ship", "ship/ship3.jpg"))
    ensures LegacySchedule()[8] == Load(Model, Geo("projection", "projection.json"))
    ensures LegacySchedule()[14] == Load(Model, Geo("ship", "ship3.json"))
  {
    var t := Schedule(Texture, LegacyTextureEntries);
    var m := Schedule(Model, LegacyModelEntries);
    assert LegacySchedule() == t + m + [];
    forall i | 0 <= i < 15 ensures LegacySchedule()[i].kind == if i < 8 then Texture else Model {
      if i < 8 {
        assert LegacySchedule()[i] == t[i];
      } else {
        assert LegacySchedule()[i] == m[i - 8];
      }
    }
    assert LegacySchedule()[8] == m[0];
    assert LegacySchedule()[14] == m[6];
  }

  /**
   * `getAspectRatio`: the canvas's client width over its client height, or 0 for a
   * canvas of height 0 (the client sizes are whole pixels).
   */
  function GetAspectRatio(width: nat, height: nat): (r: real)
    ensures height == 0 ==> r == 0.0
    ensures height > 0 ==> r * height as real == width as real
    ensures r >= 0.0
    ensures height > 0 ==> (r >= 1.0 <==> width >= height)
  {
    if height == 0 then 0.0 else width as real / height as real
  }

  const MaxLatitude: real := 85.0

  /**
   * `Math.max(-85, Math.min(85, latitude))`: latitude kept within [-85, 85], unchanged
   * inside the range, pinned to the nearer bound outside it; hence clamping twice is
   * clamping once.
   */
  function ClampLatitude(lat: real): (r: real)
    ensures -MaxLatitude <= r <= MaxLatitude
    ensures -MaxLatitude <= lat <= MaxLatitude ==> r == lat
    ensures lat > MaxLatitude ==> r == MaxLatitude
    ensures lat < -MaxLatitude ==> r == -MaxLatitude
  {
    var upper := if MaxLatitude < lat then MaxLatitude else lat;
    if -MaxLatitude > upper then -MaxLatitude else upper
  }

  /**
   * The component's `animateMotherShipDrone`: the same route, duration and delay as the
   * service's planner, but a leaving drone starts exactly on its haven, z = 4 or 6, where
   * the service puts it at 4.5 or 6.
   */
  function LegacyPlanDrone(d: Ship.DroneDraws): (p: Ship.DronePlan)
    requires Ship.ValidDroneDraws(d)
    ensures p.havenZ == Ship.HavenZ(d.haven) && (p.havenZ == 4 || p.havenZ == 6)
    ensures p.leaving <==> d.leaveOrDock == 0
    ensures |p.path| == (if p.leaving then 3 else 4)
    ensures p.leaving ==> p.startX == 0.0 && p.startZ == p.havenZ as real
    ensures !p.leaving ==> p.startX == p.path[0].x as real && p.startZ == p.path[0].c as real
    ensures !p.leaving ==> p.path[|p.path| - 1] == Ship.Point(0, p.havenZ)
    ensures var q := Ship.PlanDrone(d);
      && p.path == q.path && p.duration == q.duration && p.delay == q.delay
      && p.startX == q.startX
      && (p.startZ == q.startZ <==> !(d.leaveOrDock == 0 && d.haven == 0))
  {
    var route := Ship.DroneRoute(d);
    var leaving := d.leaveOrDock == 0;
    var hz := Ship.HavenZ(d.haven);
    var startX := if leaving then 0.0 else route[0].x as real;
    var startZ := if leaving then hz as real else route[0].c as real;
    Ship.DronePlan(leaving, hz, startX, startZ, route, d.time, d.delay)
  }

  /** The three panels `initPanels` registers, with an empty line list each. */
  function LegacyPanels(): seq<Panels.Panel> {
    [Panels.Panel("leftbottom", true, [], Panels.Unplaced),
     Panels.Panel("rightbottom", true, [], Panels.Unplaced),
     Panels.Panel("main", false, [], Panels.Unplaced)]
  }

  class SceneComponent {
    var loadTextures: seq<LoadEntry>
    var loadModels: seq<LoadEntry>
    var textures: map<string, Asset>
    var models: map<string, Asset>
    /** The entry whose loader callback is awaited: `textureLoading` or `modelLoading`. */
    var inFlight: Option<Load>
    /** How many times `preload` has called `initScene`. */
    var sceneInits: nat
    /** Every load issued so far, in order. */
    ghost var issued: seq<Load>
    /** The two lists as declared. */
    ghost const declTextures: seq<LoadEntry>
    ghost const declModels: seq<LoadEntry>

    var latitude: real
    var panels: seq<Panels.Panel>
    var randomPanelStrings: seq<string>

    ghost function Plan(): seq<Load>
      reads this
    {
      Pending(declTextures, declModels, [])
    }

    function Remaining(): nat
      reads this
    {
      |loadTextures| + |loadModels|
    }

    /** The issued loads whose callback has run. */
    ghost function Done(): seq<Load>
      reads this
    {
      if inFlight.Some? && |issued| > 0 then issued[..|issued| - 1] else issued
    }

    /** The preloader's invariant between any two statements. */
    ghost predicate Inv()
      reads this
    {
      && |loadTextures| <= |declTextures| && loadTextures == declTextures[..|loadTextures|]
      && |loadModels| <= |declModels| && loadModels == declModels[..|loadModels|]
      && issued + Pending(loadTextures, loadModels, []) == Plan()
      && (inFlight.Some? ==> |issued| > 0 && inFlight.value == issued[|issued| - 1])
      && textures.Keys == NamesOf(Done(), Texture)
      && models.Keys == NamesOf(Done(), Model)
      && (sceneInits > 0 ==> issued == Plan() && inFlight.None?)
    }

    /**
     * The preloader as its callers see it: a load is in flight unless preloading has not
     * started or the scene has been built, and the scene is built once everything is in.
     */
    ghost predicate Valid()
      reads this
    {
      && Inv()
      && (inFlight.None? ==> issued == [] || sceneInits > 0)
      && (issued == Plan() && inFlight.None? ==> sceneInits > 0)
    }

    /** The panel state `animatePanels` keeps: a bounded pool and at most 10 lines a panel. */
    ghost predicate PanelsValid()
      reads this
    {
      && |Panels.InitialPool| <= |randomPanelStrings| <= Panels.PoolLimit
      && forall i :: 0 <= i < |panels| ==> |panels[i].lines| <= Panels.MaxLines
    }

    /** The component as constructed: both lists full, nothing loaded, no panel yet. */
    constructor ()
      ensures Valid() && PanelsValid()
      ensures declTextures == LegacyTextureEntries && declModels == LegacyModelEntries
      ensures Plan() == LegacySchedule()
      ensures loadTextures == LegacyTextureEntries && loadModels == LegacyModelEntries
      ensures textures == map[] && models == map[]
      ensures inFlight == None && sceneInits == 0 && issued == []
      ensures latitude == 0.0 && panels == [] && randomPanelStrings == Panels.InitialPool
    {
      declTextures, declModels := LegacyTextureEntries, LegacyModelEntries;
      loadTextures, loadModels := LegacyTextureEntries, LegacyModelEntries;
      textures, models := map[], map[];
      inFlight, sceneInits := None, 0;
      issued := [];
      latitude := 0.0;
      panels := [];
      randomPanelStrings := Panels.InitialPool;
    }

    /**
     * `preload`: start loading the last texture if any remain, else the last model; with
     * both lists empty, call `initScene`.
     */
    method Preload()
      requires Inv() && inFlight.None?
      modifies this`loadTextures, this`loadModels, this`inFlight, this`issued, this`sceneInits
      ensures Valid()
      ensures old(loadTextures) != [] ==>
        && inFlight == Some(Load(Texture, old(loadTextures)[|old(loadTextures)| - 1]))
        && loadTextures == old(loadTextures)[..|old(loadTextures)| - 1]
        && loadModels == old(loadModels)
      ensures old(loadTextures) == [] && old(loadModels) != [] ==>
        && inFlight == Some(Load(Model, old(loadModels)[|old(loadModels)| - 1]))
        && loadModels == old(loadModels)[..|old(loadModels)| - 1]
        && loadTextures == old(loadTextures)
      ensures old(Remaining()) > 0 ==>
        && Remaining() == old(Remaining()) - 1 && sceneInits == old(sceneInits)
        && issued == old(issued) + [inFlight.value]
      ensures old(Remaining()) == 0 ==>
        && sceneInits == old(sceneInits) + 1 && inFlight == None
        && issued == old(issued) && Remaining() == 0
    {
      if |loadTextures| > 0 {
        PopTexture();
      } else if |loadModels| > 0 {
        PopModel();
      } else {
        sceneInits := sceneInits + 1;
      }
    }

    /** The texture branch of `preload`. */
    method PopTexture()
      requires Inv() && inFlight.None? && loadTextures != []
      modifies this`loadTextures, this`inFlight, this`issued
      ensures Inv()
      ensures inFlight == Some(Load(Texture, old(loadTextures)[|old(loadTextures)| - 1]))
      ensures loadTextures == old(loadTextures)[..|old(loadTextures)| - 1]
      ensures issued == old(issued) + [inFlight.value]
    {
      var e := loadTextures[|loadTextures| - 1];
      PopSchedule(Texture, loadTextures);
      loadTextures := loadTextures[..|loadTextures| - 1];
      IssueNext(Load(Texture, e));
    }

    /** The model branch of `preload`, taken once no texture remains. */
    method PopModel()
      requires Inv() && inFlight.None? && loadTextures == [] && loadModels != []
      modifies this`loadModels, this`inFlight, this`issued
      ensures Inv()
      ensures inFlight == Some(Load(Model, old(loadModels)[|old(loadModels)| - 1]))
      ensures loadModels == old(loadModels)[..|old(loadModels)| - 1]
      ensures issued == old(issued) + [inFlight.value]
    {
      var e := loadModels[|loadModels| - 1];
      PopSchedule(Model, loadModels);
      loadModels := loadModels[..|loadModels| - 1];
      IssueNext(Load(Model, e));
    }

    /** Record `l`, just popped from its list, as the load in flight. */
    method IssueNext(l: Load)
      requires inFlight.None?
      requires issued + ([l] + Pending(loadTextures, loadModels, [])) == Plan()
      modifies this`inFlight, this`issued
      ensures inFlight == Some(l) && issued == old(issued) + [l]
      ensures issued + Pending(loadTextures, loadModels, []) == Plan()
      ensures Done() == old(issued)
    {
      inFlight := Some(l);
      issued := issued + [l];
      assert issued[..|issued| - 1] == old(issued);
    }

    /**
     * A loader's completion callback: store `result` under the in-flight entry's name in
     * `textures` or `models`, then call `preload` again.
     */
    method OnLoaded(result: Asset)
      requires Valid() && inFlight.Some?
      modifies this`loadTextures, this`loadModels, this`inFlight, this`issued, this`sceneInits
      modifies this`textures, this`models
      ensures Valid()
      ensures var l := old(inFlight).value;
        && (l.kind == Texture ==> textures == old(textures)[l.entry.name := result] && models == old(models))
        && (l.kind != Texture ==> textures == old(textures))
        && (l.kind == Model ==> models == old(models)[l.entry.name := result])
      ensures old(loadTextures) != [] ==>
        && inFlight == Some(Load(Texture, old(loadTextures)[|old(loadTextures)| - 1]))
        && loadTextures == old(loadTextures)[..|old(loadTextures)| - 1]
        && loadModels == old(loadModels)
      ensures old(loadTextures) == [] && old(loadModels) != [] ==>
        && inFlight == Some(Load(Model, old(loadModels)[|old(loadModels)| - 1]))
        && loadModels == old(loadModels)[..|old(loadModels)| - 1]
        && loadTextures == old(loadTextures)
      ensures old(Remaining()) > 0 ==>
        && Remaining() == old(Remaining()) - 1 && sceneInits == 0
        && issued == old(issued) + [inFlight.value]
      ensures old(Remaining()) == 0 ==>
        && inFlight == None && sceneInits == 1 && issued == old(issued) && Remaining() == 0
    {
      ghost var t, m := loadTextures, loadModels;
      Store(result);
      assert loadTextures == t && loadModels == m;
      Preload();
    }

    /** The first half of the callback: store the result and clear the load in flight. */
    method Store(result: Asset)
      requires Valid() && inFlight.Some?
      modifies this`inFlight, this`textures, this`models
      ensures Inv() && inFlight.None? && sceneInits == 0
      ensures var l := old(inFlight).value;
        && (l.kind == Texture ==> textures == old(textures)[l.entry.name := result] && models == old(models))
        && (l.kind != Texture ==> textures == old(textures) && models == old(models)[l.entry.name := result])
    {
      var l := inFlight.value;
      NamesOfAppend(Done(), l, Texture);
      NamesOfAppend(Done(), l, Model);
      assert issued == Done() + [l];
      assert l in Plan();
      ScheduleKind(Texture, declTextures);
      ScheduleKind(Model, declModels);
      if l.kind == Texture {
        textures := textures[l.entry.name := result];
      } else {
        models := models[l.entry.name := result];
      }
      inFlight := None;
    }

    /** `initPanels`: register the two text panels and the main panel. */
    method InitPanels()
      requires PanelsValid()
      modifies this`panels
      ensures PanelsValid()
      ensures panels == old(panels) + LegacyPanels()
    {
      panels := panels + LegacyPanels();
    }

    /** `rotateCamera`: the latitude is clamped before the look direction is derived from it. */
    method RotateCamera()
      modifies this`latitude
      ensures latitude == ClampLatitude(old(latitude))
    {
      latitude := ClampLatitude(latitude);
    }

    /** `rotateSkybox`: the same clamp. */
    method RotateSkybox()
      modifies this`latitude
      ensures latitude == ClampLatitude(old(latitude))
    {
      latitude := ClampLatitude(latitude);
    }

    /**
     * `animatePanels`: the panel loop with every panel projected on screen; text panels
     * may take a new line from the pool or a freshly generated one.
     */
    method AnimatePanels(ds: seq<Panels.LineDraw>)
      requires PanelsValid()
      requires |ds| == |panels| && Panels.AllValid(ds)
      modifies this`panels, this`randomPanelStrings
      ensures PanelsValid()
      ensures (panels, randomPanelStrings) == Panels.AnimateSpec(old(panels), old(randomPanelStrings), ds, true)
    {
      Panels.AnimateSpecFacts(panels, randomPanelStrings, ds, true);
      panels, randomPanelStrings := Panels.AnimateAll(panels, randomPanelStrings, ds, true);
    }

    /** `animateFlyBy`: place the fly-by ship at its start and hand back the planned tweens. */
    method AnimateFlyBy(ship: Ship.Mesh, d: Ship.FlyByDraws) returns (p: Ship.FlyByPlan)
      requires Ship.ValidFlyByDraws(d)
      modifies ship`x, ship`y, ship`z
      ensures p == Ship.PlanFlyBy(d)
      ensures ship.x == p.startX as real && ship.y == p.startY as real && ship.z == p.startZ as real
    {
      ship.y := d.y as real;
      ship.z := d.z as real;
      ship.x := Ship.StartX(d.dir) as real;
      p := Ship.PlanFlyBy(d);
    }

    /** `animateMotherShipDrone`: place the drone and hand back its tween. */
    method AnimateMotherShipDrone(drone: Ship.Mesh, d: Ship.DroneDraws) returns (p: Ship.DronePlan)
      requires Ship.ValidDroneDraws(d)
      modifies drone`x, drone`z
      ensures p == LegacyPlanDrone(d)
      ensures drone.x == p.startX && drone.z == p.startZ
    {
      p := LegacyPlanDrone(d);
      drone.z := if d.haven == 0 then 4.0 else 6.0;
      if d.leaveOrDock == 0 {
        drone.x := 0.0;
      } else {
        drone.x := p.path[0].x as real;
        drone.z := p.path[0].c as real;
      }
    }
  }

  /** When `initScene` runs, every declared texture and model has been stored by name. */
  lemma InitSceneSeesEveryAsset(c: SceneComponent)
    requires c.Valid() && c.sceneInits > 0
    ensures forall e :: e in c.declTextures ==> e.name in c.textures
    ensures forall e :: e in c.declModels ==> e.name in c.models
  {
    var t, m := c.declTextures, c.declModels;
    assert c.Done() == Pending(t, m, []);
    forall e | e in t ensures e.name in c.textures {
      ScheduleCovers(Texture, t, e);
      assert Load(Texture, e) in Pending(t, m, []);
    }
    forall e | e in m ensures e.name in c.models {
      ScheduleCovers(Model, m, e);
      assert Load(Model, e) in Pending(t, m, []);
    }
  }

  /**
   * The component's use of its preloader: construct it, call `preload`, and let the
   * loaders answer every load. The scene is built once, after 15 callbacks, and then
   * holds every declared texture and model.
   */
  method PreloadAndInit(loader: Load -> Asset) returns (c: SceneComponent, callbacks: nat)
    ensures fresh(c) && c.Valid() && c.sceneInits == 1
    ensures callbacks == 15
    ensures c.issued == LegacySchedule()
    ensures forall e :: e in LegacyTextureEntries ==> e.name in c.textures
    ensures forall e :: e in LegacyModelEntries ==> e.name in c.models
  {
    c := new SceneComponent();
    LegacyScheduleShape();
    c.Preload();
    callbacks := 0;
    while c.inFlight.Some?
      invariant c.Valid()
      invariant c.Plan() == LegacySchedule()
      invariant c.declTextures == LegacyTextureEntries && c.declModels == LegacyModelEntries
      invariant callbacks + c.Remaining() + (if c.inFlight.Some? then 1 else 0) == 15
      invariant c.inFlight.None? ==> c.sceneInits == 1
      invariant c.sceneInits <= 1
      decreases c.Remaining() + (if c.inFlight.Some? then 1 else 0)
    {
      c.OnLoaded(loader(c.inFlight.value));
      callbacks := callbacks + 1;
    }
    InitSceneSeesEveryAsset(c);
  }
}
