/**
 * The asset preloader (`AssetService`): three work lists (textures, models, cubemaps)
 * drained one entry at a time from their ends, each result stored by name, and a
 * completion flag plus a `preloadDone$` event once everything is loaded.
 *
 * The asynchronous loaders are not modelled: starting a load records it as in flight,
 * and the loader's completion callback is the explicit call `OnLoaded(result)`.
 */
module Assets {
  import opened Wrappers

  datatype Kind = Texture | Model | Cubemap

  /** One work-list entry: the dictionary key and the file(s) the loader fetches. */
  datatype LoadEntry = LoadEntry(name: string, files: seq<string>)

  /** A load as issued: which list it came from and its entry. */
  datatype Load = Load(kind: Kind, entry: LoadEntry)

  /** What a loader hands to its callback; opaque to this model. */
  datatype Asset = Asset(handle: nat)

  function Tex(name: string, file: string): LoadEntry {
    LoadEntry(name, ["assets/textures/" + file])
  }

  function Geo(name: string, file: string): LoadEntry {
    LoadEntry(name, ["assets/models/" + file])
  }

  const TextureEntries: seq<LoadEntry> := [
    Tex("ship", "ship/ship3.jpg"),
    Tex("ship_bump", "ship/ship3_bump.jpg"),
    Tex("glas", "ship/glas_uv.png"),
    Tex("glas_bump", "ship/glas_uv_bump.jpg"),
    Tex("wormhole", "ship/wormhole.png"),
    Tex("star", "star_moving.png"),
    Tex("planetcloud", "planet/cloud.png"),
    Tex("planetsurface", "planet/surface.jpg"),
    Tex("projection", "projection.png"),
    Tex("planet_ring", "planet/planet_ring.png"),
    Tex("nebula", "nebula.png")
  ]

  const ModelEntries: seq<LoadEntry> := [
    Geo("ship", "ship5.json"),
    Geo("glas", "ship5_glas.json"),
    Geo("ship_complete", "ship_complete.json"),
    Geo("mothership", "mothership.json"),
    Geo("mothership_ring1", "mothership_ring1.json"),
    Geo("mothership_ring2", "mothership_ring2.json"),
    Geo("mothership_sphere", "mothership_sphere.json"),
    Geo("projection", "projection.json"),
    Geo("asteroid1", "asteroid1.json"),
    Geo("asteroid2", "asteroid2.json"),
    Geo("asteroid3", "asteroid3.json"),
    Geo("planet_ring", "planet_ring.json")
  ]

  const CubemapEntries: seq<LoadEntry> := [
    LoadEntry("ship", [
      "assets/textures/cubemap_ship/east.jpg",
      "assets/textures/cubemap_ship/west.jpg",
      "assets/textures/cubemap_ship/up.jpg",
      "assets/textures/cubemap_ship/down.jpg",
      "assets/textures/cubemap_ship/north.jpg",
      "assets/textures/cubemap_ship/south.jpg"])
  ]

  /** The order in which `pop` hands out the entries of one list, tagged with the list's kind. */
  function Schedule(k: Kind, s: seq<LoadEntry>): (r: seq<Load>)
    ensures |r| == |s|
  {
    seq(|s|, i requires 0 <= i < |s| => Load(k, s[|s| - 1 - i]))
  }

  /** The loads still to be issued, in issue order, when the lists hold `t`, `m` and `c`. */
  function Pending(t: seq<LoadEntry>, m: seq<LoadEntry>, c: seq<LoadEntry>): (r: seq<Load>)
    ensures |r| == |t| + |m| + |c|
  {
    Schedule(Texture, t) + Schedule(Model, m) + Schedule(Cubemap, c)
  }

  /** Every load the preloader issues, in order. */
  function FullSchedule(): seq<Load> {
    Pending(TextureEntries, ModelEntries, CubemapEntries)
  }

  /** One list's schedule holds loads of that list's kind only. */
  lemma ScheduleKind(k: Kind, s: seq<LoadEntry>)
    ensures forall l :: l in Schedule(k, s) ==> l.kind == k
  {
  }

  function Rank(k: Kind): nat {
    match k
    case Texture => 0
    case Model => 1
    case Cubemap => 2
  }

  /** No model is issued before a texture, and no cubemap before a model or texture. */
  lemma PendingOrdered(t: seq<LoadEntry>, m: seq<LoadEntry>, c: seq<LoadEntry>)
    ensures forall i, j :: 0 <= i < j < |Pending(t, m, c)| ==>
      Rank(Pending(t, m, c)[i].kind) <= Rank(Pending(t, m, c)[j].kind)
  {
    ScheduleKind(Texture, t);
    ScheduleKind(Model, m);
    ScheduleKind(Cubemap, c);
    var p := Pending(t, m, c);
    forall i | 0 <= i < |p| ensures Rank(p[i].kind) == if i < |t| then 0 else if i < |t| + |m| then 1 else 2 {
      if i < |t| {
        assert p[i] == Schedule(Texture, t)[i];
        assert p[i] in Schedule(Texture, t);
      } else if i < |t| + |m| {
        assert p[i] == Schedule(Model, m)[i - |t|];
        assert p[i] in Schedule(Model, m);
      } else {
        assert p[i] == Schedule(Cubemap, c)[i - |t| - |m|];
        assert p[i] in Schedule(Cubemap, c);
      }
    }
  }

  /** There are 11 + 12 + 1 loads, the first being the last-declared texture. */
  lemma FullScheduleShape()
    ensures |FullSchedule()| == 24
    ensures FullSchedule()[0] == Load(Texture, Tex("nebula", "nebula.png"))
    ensures FullSchedule()[11] == Load(Model, Geo("planet_ring", "planet_ring.json"))
    ensures FullSchedule()[23] == Load(Cubemap, CubemapEntries[0])
  {
    assert FullSchedule()[11] == Schedule(Model, ModelEntries)[0];
    assert FullSchedule()[23] == Schedule(Cubemap, CubemapEntries)[0];
  }

  /** The names that the loads of kind `k` among `done` have stored. */
  function NamesOf(done: seq<Load>, k: Kind): (r: set<string>)
    ensures forall l :: l in done && l.kind == k ==> l.entry.name in r
  {
    set l | l in done && l.kind == k :: l.entry.name
  }

  lemma NamesOfAppend(done: seq<Load>, l: Load, k: Kind)
    ensures NamesOf(done + [l], k) == NamesOf(done, k) + (if l.kind == k then {l.entry.name} else {})
  {
    var lhs := NamesOf(done + [l], k);
    var rhs := NamesOf(done, k) + (if l.kind == k then {l.entry.name} else {});
    forall n | n in lhs ensures n in rhs {
      var x :| x in done + [l] && x.kind == k && x.entry.name == n;
      if x != l { assert x in done; }
    }
    forall n | n in rhs ensures n in lhs {
      if n in NamesOf(done, k) {
        var x :| x in done && x.kind == k && x.entry.name == n;
        assert x in done + [l];
      } else {
        assert l in done + [l];
      }
    }
  }

  /** Every entry of a list is loaded at some point of its schedule. */
  lemma ScheduleCovers(k: Kind, s: seq<LoadEntry>, e: LoadEntry)
    requires e in s
    ensures Load(k, e) in Schedule(k, s)
  {
    var i :| 0 <= i < |s| && s[i] == e;
    assert Schedule(k, s)[|s| - 1 - i] == Load(k, e);
  }

  /** Popping the last entry takes the head of that list's schedule. */
  lemma PopSchedule(k: Kind, s: seq<LoadEntry>)
    requires s != []
    ensures Schedule(k, s) == [Load(k, s[|s| - 1])] + Schedule(k, s[..|s| - 1])
  {
    var rest := Schedule(k, s[..|s| - 1]);
    forall i | 1 <= i < |s| ensures Schedule(k, s)[i] == ([Load(k, s[|s| - 1])] + rest)[i] {
      assert rest[i - 1] == Load(k, s[..|s| - 1][|s| - 2 - (i - 1)]);
    }
  }

  /** The three pop branches of `preload`, as steps of the remaining schedule. */
  lemma PendingPopTexture(t: seq<LoadEntry>, m: seq<LoadEntry>, c: seq<LoadEntry>)
    requires t != []
    ensures Pending(t, m, c) == [Load(Texture, t[|t| - 1])] + Pending(t[..|t| - 1], m, c)
  {
    PopSchedule(Texture, t);
  }

  lemma PendingPopModel(m: seq<LoadEntry>, c: seq<LoadEntry>)
    requires m != []
    ensures Pending([], m, c) == [Load(Model, m[|m| - 1])] + Pending([], m[..|m| - 1], c)
  {
    PopSchedule(Model, m);
    assert Schedule(Texture, []) == [];
  }

  lemma PendingPopCubemap(c: seq<LoadEntry>)
    requires c != []
    ensures Pending([], [], c) == [Load(Cubemap, c[|c| - 1])] + Pending([], [], c[..|c| - 1])
  {
    PopSchedule(Cubemap, c);
    assert Schedule(Texture, []) == [] && Schedule(Model, []) == [];
  }

  class AssetService {
    var loadTextures: seq<LoadEntry>
    var loadModels: seq<LoadEntry>
    var loadCubemaps: seq<LoadEntry>
    var textures: map<string, Asset>
    var models: map<string, Asset>
    var cubemaps: map<string, Asset>
    var isPreloaded: bool
    /** How many times `preloadDone$` has been emitted. */
    var doneEmitted: nat
    /** The load whose callback is awaited; `textureLoading`/`modelLoading`/`cubemapLoading`. */
    var inFlight: Option<Load>
    /** Every load issued so far, in order. */
    ghost var issued: seq<Load>
    /** The three lists as declared. */
    ghost const declTextures: seq<LoadEntry>
    ghost const declModels: seq<LoadEntry>
    ghost const declCubemaps: seq<LoadEntry>

    ghost function Plan(): seq<Load>
      reads this
    {
      Pending(declTextures, declModels, declCubemaps)
    }

    /** Entries still waiting in the three lists: the measure that each `preload` lowers. */
    function Remaining(): nat
      reads this
    {
      |loadTextures| + |loadModels| + |loadCubemaps|
    }

    /** The issued loads whose callback has run. */
    ghost function Done(): seq<Load>
      reads this
    {
      if inFlight.Some? && |issued| > 0 then issued[..|issued| - 1] else issued
    }

    /** The invariant that holds between any two statements of the service's methods. */
    ghost predicate Inv()
      reads this
    {
      && |loadTextures| <= |declTextures| && loadTextures == declTextures[..|loadTextures|]
      && |loadModels| <= |declModels| && loadModels == declModels[..|loadModels|]
      && |loadCubemaps| <= |declCubemaps| && loadCubemaps == declCubemaps[..|loadCubemaps|]
      && issued + Pending(loadTextures, loadModels, loadCubemaps) == Plan()
      && (inFlight.Some? ==> |issued| > 0 && inFlight.value == issued[|issued| - 1])
      && textures.Keys == NamesOf(Done(), Texture)
      && models.Keys == NamesOf(Done(), Model)
      && cubemaps.Keys == NamesOf(Done(), Cubemap)
      && (isPreloaded ==> issued == Plan() && inFlight.None?)
      && (isPreloaded <==> doneEmitted > 0)
    }

    /**
     * The invariant seen by the service's callers: a load is in flight unless preloading
     * has not started or has finished, and it has finished exactly when `isPreloaded` is set.
     */
    ghost predicate Valid()
      reads this
    {
      && Inv()
      && (inFlight.None? ==> issued == [] || isPreloaded)
      && (issued == Plan() && inFlight.None? ==> isPreloaded)
    }

    /** The service as constructed: all lists full, nothing loaded. */
    constructor ()
      ensures Valid()
      ensures declTextures == TextureEntries && declModels == ModelEntries && declCubemaps == CubemapEntries
      ensures Plan() == FullSchedule()
      ensures loadTextures == TextureEntries && loadModels == ModelEntries && loadCubemaps == CubemapEntries
      ensures textures == map[] && models == map[] && cubemaps == map[]
      ensures !isPreloaded && doneEmitted == 0 && inFlight == None && issued == []
    {
      declTextures, declModels, declCubemaps := TextureEntries, ModelEntries, CubemapEntries;
      loadTextures, loadModels, loadCubemaps := TextureEntries, ModelEntries, CubemapEntries;
      textures, models, cubemaps := map[], map[], map[];
      isPreloaded, doneEmitted, inFlight := false, 0, None;
      issued := [];
      FullScheduleShape();
    }

    /**
     * One `preload` step from lists `t`, `m`, `c`, issued log `log` and emission count
     * `emitted`: the last texture is put in flight if any remain, else the last model,
     * else the last cubemap, and only that list shrinks; with all three empty, preloading
     * is marked done and emitted once, and nothing is put in flight.
     */
    ghost predicate PreloadStep(t: seq<LoadEntry>, m: seq<LoadEntry>, c: seq<LoadEntry>, log: seq<Load>, emitted: nat)
      reads this
    {
      && (t != [] ==>
            && inFlight == Some(Load(Texture, t[|t| - 1]))
            && loadTextures == t[..|t| - 1] && loadModels == m && loadCubemaps == c)
      && (t == [] && m != [] ==>
            && inFlight == Some(Load(Model, m[|m| - 1]))
            && loadModels == m[..|m| - 1] && loadTextures == t && loadCubemaps == c)
      && (t == [] && m == [] && c != [] ==>
            && inFlight == Some(Load(Cubemap, c[|c| - 1]))
            && loadCubemaps == c[..|c| - 1] && loadTextures == t && loadModels == m)
      && (|t| + |m| + |c| > 0 ==>
            && inFlight.Some? && issued == log + [inFlight.value] && doneEmitted == emitted
            && Remaining() == |t| + |m| + |c| - 1)
      && (|t| + |m| + |c| == 0 ==>
            && isPreloaded && doneEmitted == emitted + 1 && inFlight == None
            && issued == log && Remaining() == 0)
    }

    /**
     * `preload`: start loading the last texture if any remain, else the last model,
     * else the last cubemap; with all three lists empty, mark preloading done and emit.
     */
    method Preload()
      requires Inv() && inFlight.None?
      modifies this`loadTextures, this`loadModels, this`loadCubemaps, this`inFlight, this`issued
      modifies this`isPreloaded, this`doneEmitted
      ensures Valid()
      ensures PreloadStep(old(loadTextures), old(loadModels), old(loadCubemaps), old(issued), old(doneEmitted))
      ensures old(Remaining()) > 0 ==> isPreloaded == old(isPreloaded)
    {
      if |loadTextures| > 0 {
        PopTexture();
      } else if |loadModels| > 0 {
        PopModel();
      } else if |loadCubemaps| > 0 {
        PopCubemap();
      } else {
        Finish();
      }
    }

    /** The last branch of `preload`: every list is empty, so mark preloading done and emit. */
    method Finish()
      requires Inv() && inFlight.None? && Remaining() == 0
      modifies this`isPreloaded, this`doneEmitted
      ensures Valid()
      ensures isPreloaded && doneEmitted == old(doneEmitted) + 1
    {
      assert Pending(loadTextures, loadModels, loadCubemaps) == [];
      isPreloaded := true;
      doneEmitted := doneEmitted + 1;
    }

    /** The texture branch of `preload`: pop the last texture and start loading it. */
    method PopTexture()
      requires Inv() && inFlight.None? && loadTextures != []
      modifies this`loadTextures, this`inFlight, this`issued
      ensures Inv()
      ensures inFlight == Some(Load(Texture, old(loadTextures)[|old(loadTextures)| - 1]))
      ensures loadTextures == old(loadTextures)[..|old(loadTextures)| - 1]
      ensures issued == old(issued) + [inFlight.value]
    {
      var e := loadTextures[|loadTextures| - 1];
      PendingPopTexture(loadTextures, loadModels, loadCubemaps);
      loadTextures := loadTextures[..|loadTextures| - 1];
      IssueNext(Load(Texture, e));
    }

    /** The model branch of `preload`, taken once no texture remains. */
    method PopModel()
      requires Inv() && inFlight.None? && loadTextures == [] && loadModels != []
      modifies this`loadModels, this`inFlight, this`issued
      ensures Inv()
      ensures inFlight == Some(Load(Model, old(loadModels)[|old(loadModels)| - 1]))
      ensures loadModels == old(loadModels)[..|old(loadModels)| - 1]
      ensures issued == old(issued) + [inFlight.value]
    {
      var e := loadModels[|loadModels| - 1];
      PendingPopModel(loadModels, loadCubemaps);
      loadModels := loadModels[..|loadModels| - 1];
      IssueNext(Load(Model, e));
    }

    /** The cubemap branch of `preload`, taken once no texture and no model remains. */
    method PopCubemap()
      requires Inv() && inFlight.None? && loadTextures == [] && loadModels == [] && loadCubemaps != []
      modifies this`loadCubemaps, this`inFlight, this`issued
      ensures Inv()
      ensures inFlight == Some(Load(Cubemap, old(loadCubemaps)[|old(loadCubemaps)| - 1]))
      ensures loadCubemaps == old(loadCubemaps)[..|old(loadCubemaps)| - 1]
      ensures issued == old(issued) + [inFlight.value]
    {
      var e := loadCubemaps[|loadCubemaps| - 1];
      PendingPopCubemap(loadCubemaps);
      loadCubemaps := loadCubemaps[..|loadCubemaps| - 1];
      IssueNext(Load(Cubemap, e));
    }

    /** Record `l`, just popped from its list, as the load in flight. */
    method IssueNext(l: Load)
      requires inFlight.None?
      requires issued + ([l] + Pending(loadTextures, loadModels, loadCubemaps)) == Plan()
      modifies this`inFlight, this`issued
      ensures inFlight == Some(l) && issued == old(issued) + [l]
      ensures issued + Pending(loadTextures, loadModels, loadCubemaps) == Plan()
      ensures Done() == old(issued)
    {
      inFlight := Some(l);
      issued := issued + [l];
      assert issued[..|issued| - 1] == old(issued);
    }

    /** `start`. The scene calls it once, before any load has been started. */
    method Start()
      requires Valid() && inFlight.None?
      modifies this`loadTextures, this`loadModels, this`loadCubemaps, this`inFlight, this`issued
      modifies this`isPreloaded, this`doneEmitted
      ensures Valid()
      ensures PreloadStep(old(loadTextures), old(loadModels), old(loadCubemaps), old(issued), old(doneEmitted))
      ensures old(Remaining()) > 0 ==> isPreloaded == old(isPreloaded)
    {
      Preload();
    }

    /**
     * The loader's completion callback: store `result` under the in-flight entry's name in
     * that entry's dictionary, then call `preload` again.
     */
    method OnLoaded(result: Asset)
      requires Valid() && inFlight.Some?
      modifies this`loadTextures, this`loadModels, this`loadCubemaps, this`inFlight, this`issued
      modifies this`isPreloaded, this`doneEmitted, this`textures, this`models, this`cubemaps
      ensures Valid()
      ensures var l := old(inFlight).value;
        && (l.kind == Texture ==> textures == old(textures)[l.entry.name := result])
        && (l.kind != Texture ==> textures == old(textures))
        && (l.kind == Model ==> models == old(models)[l.entry.name := result])
        && (l.kind != Model ==> models == old(models))
        && (l.kind == Cubemap ==> cubemaps == old(cubemaps)[l.entry.name := result])
        && (l.kind != Cubemap ==> cubemaps == old(cubemaps))
      ensures PreloadStep(old(loadTextures), old(loadModels), old(loadCubemaps), old(issued), old(doneEmitted))
      ensures old(Remaining()) > 0 ==> !isPreloaded
    {
      ghost var t, m, c, log := loadTextures, loadModels, loadCubemaps, issued;
      Store(result);
      assert loadTextures == t && loadModels == m && loadCubemaps == c && issued == log;
      Preload();
    }

    /** The first half of the callback: store the result and clear the load in flight. */
    method Store(result: Asset)
      requires Valid() && inFlight.Some?
      modifies this`inFlight, this`textures, this`models, this`cubemaps
      ensures Inv() && inFlight.None? && !isPreloaded
      ensures var l := old(inFlight).value;
        && (l.kind == Texture ==> textures == old(textures)[l.entry.name := result])
        && (l.kind != Texture ==> textures == old(textures))
        && (l.kind == Model ==> models == old(models)[l.entry.name := result])
        && (l.kind != Model ==> models == old(models))
        && (l.kind == Cubemap ==> cubemaps == old(cubemaps)[l.entry.name := result])
        && (l.kind != Cubemap ==> cubemaps == old(cubemaps))
    {
      match inFlight.value.kind {
        case Texture => StoreTexture(result);
        case Model => StoreModel(result);
        case Cubemap => StoreCubemap(result);
      }
    }

    /** `textures[textureLoading.name] = texture`. */
    method StoreTexture(result: Asset)
      requires Valid() && inFlight.Some? && inFlight.value.kind == Texture
      modifies this`inFlight, this`textures
      ensures Inv() && inFlight.None? && !isPreloaded
      ensures textures == old(textures)[old(inFlight).value.entry.name := result]
    {
      var l := inFlight.value;
      NamesOfAppend(Done(), l, Texture);
      NamesOfAppend(Done(), l, Model);
      NamesOfAppend(Done(), l, Cubemap);
      assert issued == Done() + [l];
      textures := textures[l.entry.name := result];
      inFlight := None;
    }

    /** `models[modelLoading.name] = geo`. */
    method StoreModel(result: Asset)
      requires Valid() && inFlight.Some? && inFlight.value.kind == Model
      modifies this`inFlight, this`models
      ensures Inv() && inFlight.None? && !isPreloaded
      ensures models == old(models)[old(inFlight).value.entry.name := result]
    {
      var l := inFlight.value;
      NamesOfAppend(Done(), l, Texture);
      NamesOfAppend(Done(), l, Model);
      NamesOfAppend(Done(), l, Cubemap);
      assert issued == Done() + [l];
      models := models[l.entry.name := result];
      inFlight := None;
    }

    /** `cubemaps[cubemapLoading.name] = texture`. */
    method StoreCubemap(result: Asset)
      requires Valid() && inFlight.Some? && inFlight.value.kind == Cubemap
      modifies this`inFlight, this`cubemaps
      ensures Inv() && inFlight.None? && !isPreloaded
      ensures cubemaps == old(cubemaps)[old(inFlight).value.entry.name := result]
    {
      var l := inFlight.value;
      NamesOfAppend(Done(), l, Texture);
      NamesOfAppend(Done(), l, Model);
      NamesOfAppend(Done(), l, Cubemap);
      assert issued == Done() + [l];
      cubemaps := cubemaps[l.entry.name := result];
      inFlight := None;
    }

    /** `getTexture`: the stored texture, or `undefined` (None) when the name was never loaded. */
    function GetTexture(t: string): (r: Option<Asset>)
      reads this
      ensures r.Some? <==> t in textures
      ensures r.Some? ==> r.value == textures[t]
    {
      if t in textures then Some(textures[t]) else None
    }

    /** `getModel`. */
    function GetModel(m: string): (r: Option<Asset>)
      reads this
      ensures r.Some? <==> m in models
      ensures r.Some? ==> r.value == models[m]
    {
      if m in models then Some(models[m]) else None
    }

    /** `getCubemap`. */
    function GetCubemap(c: string): (r: Option<Asset>)
      reads this
      ensures r.Some? <==> c in cubemaps
      ensures r.Some? ==> r.value == cubemaps[c]
    {
      if c in cubemaps then Some(cubemaps[c]) else None
    }

    /**
     * Feed the callback chain to its end: after `Start`, the loader keeps answering the
     * load in flight (with `loader(load)`) until no load is left. Completion takes exactly
     * one callback per declared entry.
     */
    method RunToCompletion(loader: Load -> Asset) returns (callbacks: nat)
      requires Valid() && inFlight.None? && !isPreloaded
      modifies this
      ensures Valid() && isPreloaded && doneEmitted == 1
      ensures callbacks == |declTextures| + |declModels| + |declCubemaps|
      ensures issued == Plan()
    {
      ghost var total := |declTextures| + |declModels| + |declCubemaps|;
      Start();
      callbacks := 0;
      while inFlight.Some?
        invariant Valid()
        invariant callbacks + Remaining() + (if inFlight.Some? then 1 else 0) == total
        invariant !isPreloaded ==> inFlight.Some?
        invariant isPreloaded ==> doneEmitted == 1
        decreases Remaining() + (if inFlight.Some? then 1 else 0)
      {
        OnLoaded(loader(inFlight.value));
        callbacks := callbacks + 1;
      }
    }
  }

  /** After completion every declared entry has a stored value, returned by its getter. */
  lemma PreloadedGettersDefined(a: AssetService)
    requires a.Valid() && a.isPreloaded
    ensures forall e :: e in a.declTextures ==> a.GetTexture(e.name).Some?
    ensures forall e :: e in a.declModels ==> a.GetModel(e.name).Some?
    ensures forall e :: e in a.declCubemaps ==> a.GetCubemap(e.name).Some?
  {
    var t, m, c := a.declTextures, a.declModels, a.declCubemaps;
    assert a.issued == Pending(t, m, c);
    assert a.Done() == Pending(t, m, c);
    forall e | e in t ensures e.name in a.textures {
      ScheduleCovers(Texture, t, e);
      assert Load(Texture, e) in Pending(t, m, c);
    }
    forall e | e in m ensures e.name in a.models {
      ScheduleCovers(Model, m, e);
      assert Load(Model, e) in Pending(t, m, c);
    }
    forall e | e in c ensures e.name in a.cubemaps {
      ScheduleCovers(Cubemap, c, e);
      assert Load(Cubemap, e) in Pending(t, m, c);
    }
  }

  /**
   * The scene's use of the service: construct it, `start` it, and let the loader answer
   * every load. Preloading completes after one callback per declared entry, 24 in all,
   * and every getter then answers for every declared name.
   */
  method PreloadAll(loader: Load -> Asset) returns (a: AssetService, callbacks: nat)
    ensures fresh(a) && a.Valid() && a.isPreloaded && a.doneEmitted == 1
    ensures callbacks == 24
    ensures a.issued == FullSchedule()
    ensures forall e :: e in TextureEntries ==> a.GetTexture(e.name).Some?
    ensures forall e :: e in ModelEntries ==> a.GetModel(e.name).Some?
    ensures forall e :: e in CubemapEntries ==> a.GetCubemap(e.name).Some?
  {
    a := new AssetService();
    FullScheduleShape();
    callbacks := a.RunToCompletion(loader);
    PreloadedGettersDefined(a);
  }
}
