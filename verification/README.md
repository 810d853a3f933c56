# Space-station scene: preloader, planners, panel text and camera selector

This project models the non-graphical core of an Angular/three.js space-station scene:

- the asset preloader, `AssetService`. It keeps three work lists (textures, models, cubemaps). It pops one entry at a time from the end of a list, stores each loaded asset by name and flags completion once all lists are empty;
- the randomised route planners of `ShipService`. The fly-by ship picks a type 0–3 and a direction, then plans one or two bezier legs. A mothership drone either leaves its haven at z = 4 or 6 or docks there;
- the panel "alien text" of `PanelService`. A shared pool of random lower-case strings grows to at most 100 entries. Each text panel shows at most 10 lines and, once full, recycles its oldest line to the end;
- the camera selector of `CameraService`. It holds three fixed cameras, one of them active. Each camera's initial position is recorded once and the idle drift is centred on it;
- `randomIntFromInterval`, the helper every planner draws from;
- the earlier all-in-one `SceneComponent`. It has its own two-list preloader that ends in `initScene`, the aspect ratio, the latitude clamp, and its own copies of the fly-by planner, the drone planner and the panel loop.

Every `Math.random()` result is a parameter of the model.

- A `randomIntFromInterval(min, max)` call becomes an integer draw constrained to [min, max].
- `Utils` proves that, computed in exact real arithmetic, this is exactly the set of values the floor expression can return. The source computes it in IEEE doubles, where the top draws can round up to max + 1 (see "## Left out").
- `Math.round(Math.random())` becomes a 0/1 draw.

The tween engine, timers and loader callbacks are explicit calls:

- `OnLoaded` is the loader's completion callback;
- `CompleteDrift` and `OnFlyByComplete` are the tweens' `onComplete` handlers;
- a planner returns the waypoint lists and durations it hands to the tween engine.

The modules are:

- `Wrappers` (Option);
- `Utils` (random draws);
- `Camera`;
- `Assets`;
- `Ship`;
- `Panels`;
- `LegacyScene` (the old component).

The old component's preloader is a class of its own. Its fly-by planning and its panel step are the `Ship` and `Panels` functions, since the source computes them identically. Its `randomIntFromInterval` (src/app/scene/scene.component.1.ts:804-806) is the same expression as `Utils.RandomIntFromInterval`.

## Model

| member | source | states |
|---|---|---|
| Utils.RandomIntFromInterval | src/app/three/utils.service.ts:8-10 | for min ≤ max and a draw in [0, 1), the result is an integer in [min, max]; for min = max it is min |
| Utils.EveryValueReachable | src/app/three/utils.service.ts:9 | every integer k of [min, max] is the result for the draw (k − min)/(max − min + 1) |
| Utils.DrawAll | src/app/three/utils.service.ts:8-10 | successive calls on non-empty intervals return one integer per call, each inside its call's interval |
| Utils.FittingDrawsReachable | src/app/three/utils.service.ts:8-10 | every integer sequence inside the intervals is returned for some sequence of draws in [0, 1) |
| Camera.NewCamera | src/app/three/camera.service.ts:69-76 | a new camera has field of view 75, near plane 1, far plane 1100, the canvas aspect and no recorded initial position |
| Camera.RecordInitial | src/app/three/camera.service.ts:116-120 | the initial position is recorded when absent and left untouched when present |
| Camera.RecordInitialIdempotent | src/app/three/camera.service.ts:116-120 | after the camera has moved, recording again keeps the first recorded position |
| Camera.CameraService.Camera | src/app/three/camera.service.ts:24-26 | the `camera` getter is the active camera |
| Camera.CameraService.Create | src/app/three/camera.service.ts:65-109 | exactly the three cameras exist, each as `NewCamera` builds it at its start position; camera 1 is active |
| Camera.CameraService.ToCam1 | src/app/three/camera.service.ts:50-53 | camera 1 becomes active; no camera changes |
| Camera.CameraService.ToCam2 | src/app/three/camera.service.ts:55-58 | camera 2 becomes active; no camera changes |
| Camera.CameraService.ToCam3 | src/app/three/camera.service.ts:60-63 | camera 3 becomes active; no camera changes |
| Camera.CameraService.BeforeIntro | src/app/three/camera.service.ts:38-42 | camera 1 is active and its field of view is 200; nothing else changes |
| Camera.CameraService.Animate | src/app/three/camera.service.ts:115-128 | the active camera's initial position is recorded once and never overwritten; a drift of 1–3 s starts on that camera |
| Camera.Drifted | src/app/three/camera.service.ts:128-138 | a finished drift moves only the tween's camera, to the reached x and y at its old depth; lens settings, recorded centres and every other camera are unchanged |
| Camera.DriftKeepsCentres | src/app/three/camera.service.ts:115-142 | a drift completion followed by the next `animate`: no recorded centre moves, only the active camera may gain one, only the tween's camera moves and only in x and y, and no lens setting changes |
| Camera.CameraService.CompleteDrift | src/app/three/camera.service.ts:128-142 | the camera the tween was started on (not necessarily the active one) moves to the reached x and y; the whole new camera map is `Drifted` followed by `animate`'s record-once on the active camera, whose drift then starts |
| Assets.PendingOrdered | src/app/three/asset.service.ts:76-100 | in every remaining schedule no model precedes a texture and no cubemap precedes a model or texture |
| Assets.FullScheduleShape | src/app/three/asset.service.ts:25-72 | 11 + 12 + 1 = 24 loads; the first is the last-declared texture (nebula), the twelfth the last-declared model (planet_ring), the last the ship cubemap |
| Assets.PopSchedule | src/app/three/asset.service.ts:79 | popping a list issues its last entry, the head of the remaining schedule of that list |
| Assets.AssetService.constructor | src/app/three/asset.service.ts:11-74 | all three lists full, dictionaries empty, not preloaded, nothing emitted |
| Assets.AssetService.Preload | src/app/three/asset.service.ts:76-100 | `PreloadStep` of the old lists: pops the last texture, else the last model, else the last cubemap, and only that list shrinks; with all lists empty, sets `isPreloaded` and emits once |
| Assets.AssetService.PopTexture | src/app/three/asset.service.ts:78-80 | the texture branch issues the last texture and shortens only that list |
| Assets.AssetService.PopModel | src/app/three/asset.service.ts:84-86 | the model branch issues the last model once no texture is left |
| Assets.AssetService.PopCubemap | src/app/three/asset.service.ts:90-92 | the cubemap branch issues the last cubemap once no texture or model is left |
| Assets.AssetService.Start | src/app/three/asset.service.ts:102-104 | `start` is one `preload` step: it puts the last texture, else the last model, else the last cubemap in flight and shortens only that list, or with every list empty completes and emits once; the stored dictionaries are outside its frame |
| Assets.AssetService.OnLoaded | src/app/three/asset.service.ts:80-95 | the result is stored under the in-flight entry's name in that entry's dictionary only; then, as in `Preload` (`PreloadStep` of the old lists), the last texture, else model, else cubemap goes in flight and only that list shrinks, or with every list empty preloading completes and emits once |
| Assets.AssetService.GetTexture | src/app/three/asset.service.ts:106-108 | the stored texture, or none exactly when the name was never stored |
| Assets.AssetService.GetModel | src/app/three/asset.service.ts:110-112 | the stored model, or none exactly when the name was never stored |
| Assets.AssetService.GetCubemap | src/app/three/asset.service.ts:114-116 | the stored cubemap, or none exactly when the name was never stored |
| Assets.AssetService.RunToCompletion | src/app/three/asset.service.ts:76-104 | answering every load terminates after one callback per declared entry, with `isPreloaded` set and one emission |
| Assets.PreloadedGettersDefined | src/app/three/asset.service.ts:76-116 | once preloaded, every declared texture, model and cubemap name has a stored value |
| Assets.PreloadAll | src/app/three/asset.service.ts:25-104 | the real lists complete after 24 callbacks, issued in schedule order, and every getter answers every declared name |
| Ship.BuildParams | src/app/three/ship.service.ts:253-304 | types 0–1 plan 2 waypoints and types 2–3 plan 4; the last x is the far edge, the centre waypoint's x is within [-2, 2], x moves strictly away from the start, second coordinates stay in the y or z range |
| Ship.AwayPoints | src/app/three/ship.service.ts:316-325 | the shoot-away path has two waypoints ending at z = -1000 |
| Ship.PlanFlyBy | src/app/three/ship.service.ts:234-410 | direction 0 starts at x = -50 and ends at 50, direction 1 mirrored; types 2–3 fly a second leg through the last two waypoints or, when shooting away, to z = -1000; durations follow the direction rule |
| Ship.ParamDrawsFit | src/app/three/ship.service.ts:253-304 | for one type and direction, raw draws in [0, 1) always give `params` draws inside the intervals of the `randomIntFromInterval` calls |
| Ship.ParamDrawsReachable | src/app/three/ship.service.ts:253-304 | for one type and direction, every `params` list inside those intervals is what some raw draws in [0, 1) give |
| Ship.FlyByMirror | src/app/three/ship.service.ts:253-304 | direction 1 is direction 0 mirrored: negated x draws are valid direction-1 draws, and they give the mirrored waypoints |
| Ship.DroneRoute | src/app/three/ship.service.ts:425-438 | a leaving drone flies 3 waypoints starting 5–10 units out at its haven's z; a docking drone flies 4 ending at {x: 0, z: havenZ} |
| Ship.PlanDrone | src/app/three/ship.service.ts:415-455 | haven z is 4 or 6; a leaving drone starts at x = 0, at z = 4.5 for haven 4 and z = 6 for haven 6; a docking drone starts at its first waypoint and ends on its haven; durations 10–20 s and delays 5–20 s |
| Ship.ShipService.constructor | src/app/three/ship.service.ts:98-102 | the fly-by ship is first placed at (-50, -5, -19); the same `create` then calls `animateMovingShip` (line 130), which moves it to the plan's start (`AnimateMovingShip`) |
| Ship.ShipService.HideMovingShip | src/app/three/ship.service.ts:228-232 | the ship is parked at (-10000, -10000, -10000); nothing else changes |
| Ship.ShipService.AnimateMovingShip | src/app/three/ship.service.ts:234-304 | the ship is placed at the plan's start and the plan is `PlanFlyBy` of the draws |
| Ship.ShipService.OnFlyByComplete | src/app/three/ship.service.ts:341-346 | when the last leg completes the ship is hidden |
| Ship.ShipService.AnimateMotherShipDrone | src/app/three/ship.service.ts:415-440 | the drone is placed at the plan's start; only its x and z change |
| Panels.CharCount | src/app/three/panel.service.ts:128-129 | the character loop runs ⌈numChars⌉ times, the least integer not below numChars |
| Panels.GeneratedLine | src/app/three/panel.service.ts:127-131 | a generated line has at most 25 characters, all lower-case letters |
| Panels.RandomString | src/app/three/panel.service.ts:127-131 | the character loop appends one drawn letter per pass, ⌈numChars⌉ ≤ 25 letters in all |
| Panels.PushLineKeepsNewest | src/app/three/panel.service.ts:137-144 | a line list is a drop-oldest queue: the newest 10 of old lines plus the new one, the new line last; below 10 lines the old lines are kept, at 10 the oldest is dropped |
| Panels.NewLine | src/app/three/panel.service.ts:126-135 | below 100 entries a fresh lower-case string of at most 25 letters is appended to the pool; at 100 a pool string is reused and the pool is unchanged |
| Panels.StepPanel | src/app/three/panel.service.ts:107-147 | off camera 1 a panel is moved off screen and nothing is drawn; on camera 1 it is projected and a text panel gains a line on a roll of 0, and the pool becomes exactly `NewLine`'s pool (below 100 the shown string is appended, at 100 it is unchanged); otherwise the pool is unchanged |
| Panels.AnimateSpec | src/app/three/panel.service.ts:105-148 | the loop keeps the number of panels and a pool of at most 100 entries |
| Panels.AnimateSpecFacts | src/app/three/panel.service.ts:105-148 | the pool only grows, by appending, and stays fixed once full; names and kinds are kept; non-text panels keep their lines; no panel exceeds 10 lines; off camera 1 all panels are hidden and the pool is unchanged |
| Panels.AnimatePanel | src/app/three/panel.service.ts:107-147 | one pass of the loop body computes `StepPanel` |
| Panels.AnimateAll | src/app/three/panel.service.ts:105-148 | updating the panels in place, one after another, computes `AnimateSpec` |
| Panels.PanelService.Create | src/app/three/panel.service.ts:23-93 | the pool holds 20 placeholders; panels leftbottom and rightbottom show text, main does not |
| Panels.PanelService.Animate | src/app/three/panel.service.ts:98-148 | the new panels and pool are `AnimateSpec` of the old ones, with camera 1's activity deciding visibility; the pool and line bounds are kept |
| LegacyScene.LegacyScheduleShape | src/app/scene/scene.component.1.ts:78-104 | 8 + 7 loads, all textures before any model; the first is the last texture (projection), the ninth the last model (projection) |
| LegacyScene.GetAspectRatio | src/app/scene/scene.component.1.ts:707-715 | 0 for height 0; otherwise ratio × height = width, so the ratio is at least 1 exactly when width ≥ height |
| LegacyScene.ClampLatitude | src/app/scene/scene.component.1.ts:725 | the latitude lies in [-85, 85], is unchanged inside it and pinned to the nearer bound outside it, so clamping is idempotent |
| LegacyScene.LegacyPlanDrone | src/app/scene/scene.component.1.ts:614-650 | the same route, duration and delay as the service's planner; a leaving drone starts at x = 0 exactly on its haven z (4 or 6), so the start differs from the service's only for haven 4 |
| LegacyScene.SceneComponent.constructor | src/app/scene/scene.component.1.ts:78-104 | both lists full, dictionaries empty, the scene not built, the pool at its 20 placeholders |
| LegacyScene.SceneComponent.Preload | src/app/scene/scene.component.1.ts:1069-1088 | pops the last texture, else the last model; `initScene` runs only when both lists are empty |
| LegacyScene.SceneComponent.PopTexture | src/app/scene/scene.component.1.ts:1071-1072 | the texture branch issues the last texture |
| LegacyScene.SceneComponent.PopModel | src/app/scene/scene.component.1.ts:1077-1078 | the model branch issues the last model once no texture is left |
| LegacyScene.SceneComponent.OnLoaded | src/app/scene/scene.component.1.ts:1073-1082 | each completed load is stored under the name of the entry just popped, in `textures` or `models`; then the last remaining texture, else model, goes in flight and only that list shrinks, or with both lists empty `initScene` runs, once |
| LegacyScene.SceneComponent.InitPanels | src/app/scene/scene.component.1.ts:188-231 | registers leftbottom and rightbottom as text panels and main as a plain panel |
| LegacyScene.SceneComponent.RotateCamera | src/app/scene/scene.component.1.ts:725 | the stored latitude becomes its clamp |
| LegacyScene.SceneComponent.RotateSkybox | src/app/scene/scene.component.1.ts:737 | the stored latitude becomes its clamp |
| LegacyScene.SceneComponent.AnimatePanels | src/app/scene/scene.component.1.ts:876-927 | the panel loop with every panel projected: `AnimateSpec` on camera 1, keeping the 100-entry pool and the 10-line bound |
| LegacyScene.SceneComponent.AnimateFlyBy | src/app/scene/scene.component.1.ts:1114-1207 | the ship is placed at the start of `PlanFlyBy` of the draws |
| LegacyScene.SceneComponent.AnimateMotherShipDrone | src/app/scene/scene.component.1.ts:614-640 | the drone is placed at `LegacyPlanDrone`'s start |
| LegacyScene.InitSceneSeesEveryAsset | src/app/scene/scene.component.1.ts:1069-1088 | when `initScene` runs, every declared texture and model has been stored |
| LegacyScene.PreloadAndInit | src/app/scene/scene.component.1.ts:1069-1088 | the real lists finish after 15 callbacks in schedule order and build the scene exactly once |

## Left out

- Rendering is not modelled: three.js meshes, materials, shaders, the bloom and film passes, the composer and the canvas star field.
- Floating-point motion is not modelled. This covers the light, planet, ring, skybox and asteroid motion, the preload-effect texture offset, `moveStars`, the mouse latitude/longitude arithmetic and the projection texture offset and opacity.
- Tween interpolation, easing and `setTimeout`/`requestAnimationFrame` scheduling are not modelled. The plans hand over waypoint lists and durations only. The 2000–10000 ms restart delay after a fly-by is not part of any plan.
- Loaders are asynchronous in the source. Here a load in flight is the `inFlight` field and the callback is an explicit `OnLoaded` call.
- Failed loads are not modelled: the source passes no error handler to the loaders, so a load that fails never calls back and preloading stalls with that entry in flight. In the model this is the run in which `OnLoaded` is never called.
- Audio loading in `ShipService` and `openWormhole`'s flash are not modelled.
- Camera.CameraService.CompleteDrift: the drift waypoints (camera.service.ts:121-137) scale non-integer bounds by 1000 and floor them. The model takes the reached x and y as parameters rather than their ranges.
- Utils.RandomIntFromInterval: the draw and the arithmetic are exact reals. The source evaluates `Math.floor(Math.random() * (max - min + 1) + min)` in IEEE doubles, where a top draw such as 1 − 2⁻⁵² rounds the sum up and returns max + 1 for intervals such as (10, 20), (30, 70), (23, 27) and (-27, -23). The model's result always stays in [min, max].
- Utils.DrawAll: each result lies in its call's interval only in exact real arithmetic; for the same reason a double evaluation can return max + 1 at the top draw.
- Ship.ParamDrawsFit: this lemma and `Ship.ParamDrawsReachable` cover only the `params` draws; the y, z, type, direction, duration and shoot-away draws are constrained by `ValidFlyByDraws` without a reachability lemma of their own, and the drone draws by `ValidDroneDraws`. The `params` intervals are exact real arithmetic. The double evaluation can return one more than the upper bound at the top draw (for the drone duration, the shoot-away z and the side waypoints). Those values are outside every planner's `requires`.
- LegacyScene.GetAspectRatio: the ratio is the exact quotient. The source's double division rounds it.
- Camera.CameraService.Create: the aspect ratio `clientWidth / clientHeight` is a parameter. `listener` objects and `lookAt` targets are not modelled. The Angular constructor and `create` are one constructor.
- Camera.CameraService.ToCam1: `update()` (projection-matrix refresh) is graphics only and is not modelled. The same holds for the other camera switches.
- Assets.AssetService.GetTexture: the source's dictionary is a plain object, so a name that is an `Object.prototype` property (`constructor`, `toString`, `__proto__`) returns an inherited member rather than `undefined`. The model returns none for it. Every call site passes a declared asset name.
- Assets.AssetService.GetModel: the same inherited `Object.prototype` names are not modelled; every call site passes a declared model name.
- Assets.AssetService.GetCubemap: the same inherited `Object.prototype` names are not modelled; every call site passes a declared cubemap name.
- Assets.AssetService.Start: the scene calls `start` once, so the model requires that no load is in flight. A second `start` during preloading would pop another entry while one is pending; that case is not modelled.
- Panels.StepPanel: `toScreenPosition` coordinates and the main panel's width are floating-point DOM geometry. A panel's placement records only whether it is off screen or projected.
- Panels.PanelService.Create: a panel's initial DOM line list comes from the HTML template, which is not part of this model. It is taken to be empty.
- LegacyScene.SceneComponent.AnimatePanels: the legacy loop also advances the projection texture's offset (floating point). That is not modelled.
- LegacyScene.SceneComponent.Preload: `initScene` itself (scene construction) is not modelled. Each call is only counted in `sceneInits`.
- The mouse and resize handlers, `app.module.ts`, `app.component.ts` and the newer `scene.component.ts` are not part of this model. The light, planet, skybox, asteroid and preload-effect services are not part of it either.
- The spec files only check that a service exists and are not modelled.
