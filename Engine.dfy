/**
 * The engine (rae/Engine.cpp): the lists of registered systems, the deferred destroy and
 * defragment requests, the per-tick `update`, the entity wiring helpers, and the mouse and key
 * handlers.
 *
 * The systems themselves are abstract `System` handles (module Scheduler); the entity registry,
 * the transform table, the owned asset tables, the render system's link tables and the selection
 * are the objects of modules World and Visual. The clock, the window, the GL pixel read-back and
 * the random numbers are parameters.
 */
module Engine {
  import opened Types
  import opened Input
  import opened World
  import opened Visual
  import opened Scheduler

  /** One colour channel of the picking read-back (`unsigned char`). */
  newtype Byte = x: int | 0 <= x < 256

  /** Line 402: the picked entity is the red channel plus 256 times the green channel. */
  function PickedId(red: Byte, green: Byte): (id: int)
    ensures 0 <= id < 65536
    ensures id % 256 == red as int && id / 256 == green as int
  {
    red as int + green as int * 256
  }

  /**
   * The colour the picking shader paints for entity `id`: its low byte in red, the next byte in
   * green. The shader source is not part of this model; this is the encoding `PickedId` undoes.
   */
  function PickColor(id: Id): (c: (Byte, Byte))
    ensures c.0 as int == id % 256 && c.1 as int == (id / 256) % 256
  {
    ((id % 256) as Byte, ((id / 256) % 256) as Byte)
  }

  /** Decoding the colour of an entity below 65536 gives back that entity. */
  lemma PickRoundTrip(id: Id)
    requires 0 <= id < 65536
    ensures PickedId(PickColor(id).0, PickColor(id).1) == id
  {
  }

  /** Every colour is the colour of the entity it decodes to. */
  lemma PickColorRoundTrip(red: Byte, green: Byte)
    ensures PickColor(PickedId(red, green)) == (red, green)
  {
  }

  /** Entities 65536 apart paint the same colour, so the higher one is picked as the lower. */
  lemma PickAliasing(id: Id)
    requires id >= 0
    ensures PickedId(PickColor(id).0, PickColor(id).1) == id % 65536
  {
  }

  /** The picked id that the source treats as its "add object" button. */
  const AddObjectButtonId: Id := 13

  /** What a first-button press does with the picked id. */
  datatype PickAction = ClearSelection | SpawnCubeAndBunny | Select(id: Id)

  /** Lines 406-420: 0 is the background, 13 the button, anything else an entity to select. */
  function PickActionOf(id: Id): (a: PickAction)
    ensures a == ClearSelection <==> id == InvalidId
    ensures a == SpawnCubeAndBunny <==> id == AddObjectButtonId
    ensures a.Select? <==> id != InvalidId && id != AddObjectButtonId
    ensures a.Select? ==> a.id == id
  {
    if id == InvalidId then ClearSelection
    else if id == AddObjectButtonId then SpawnCubeAndBunny
    else Select(id)
  }

  /** Clicking the pixel an entity was drawn in by the picking pass selects that entity. */
  lemma PickingSelectsDrawnEntity(entities: seq<Id>, sc: Scene, d: PickDraw)
    requires d in PickList(entities, sc)
    requires 0 <= d.id < 65536 && d.id != InvalidId && d.id != AddObjectButtonId
    ensures PickActionOf(PickedId(PickColor(d.id).0, PickColor(d.id).1)) == Select(d.id)
    ensures d.id in entities && Pickable(sc, d.id)
  {
    PickRoundTrip(d.id);
  }

  /**
   * What `createCube` leaves behind (an entity with a position and its own material, no mesh of
   * its own, a link to the shared box mesh) is drawn as a box in that material.
   */
  lemma CreatedCubeIsDrawn(sc: Scene, id: Id, meshID: Id)
    requires id in sc.transforms && id in sc.materials && id !in sc.meshes
    requires id in sc.meshLinks && sc.meshLinks[id] == meshID
    requires meshID in sc.meshes && sc.meshes[meshID] == BoxMesh
    ensures Drawable(sc, id)
    ensures DrawOf(sc, id) == Draw(id, sc.transforms[id], BoxMesh, sc.materials[id], id in sc.selected)
  {
  }

  /**
   * What `createBunny` and the random-entity helpers leave behind (an entity with a position,
   * no assets of its own, and links to a shared mesh and a shared material) is drawn with those.
   */
  lemma LinkedEntityIsDrawn(sc: Scene, id: Id, meshID: Id, materialID: Id)
    requires id in sc.transforms && id !in sc.meshes && id !in sc.materials
    requires id in sc.meshLinks && sc.meshLinks[id] == meshID && meshID in sc.meshes
    requires id in sc.materialLinks && sc.materialLinks[id] == materialID && materialID in sc.materials
    ensures Drawable(sc, id)
    ensures DrawOf(sc, id) == Draw(id, sc.transforms[id], sc.meshes[meshID], sc.materials[materialID], id in sc.selected)
  {
  }

  /** Lines 367-377: `osKeyEvent` maps GLFW's press and release codes; repeats become Undefined. */
  function KeyEventTypeOf(action: int): (t: EventType)
    ensures t == KeyPress <==> action == GlfwPress
    ensures t == KeyRelease <==> action == GlfwRelease
    ensures t == Undefined <==> action != GlfwPress && action != GlfwRelease
  {
    if action == GlfwPress then KeyPress
    else if action == GlfwRelease then KeyRelease
    else Undefined
  }

  /** The event `osKeyEvent` hands to the input system; the modifier bits are dropped. */
  function OsKeyEvent(key: int, scancode: int, action: int, mods: int): (e: KeyEvent)
    ensures e.key == key && e.scancode == scancode
    ensures e.eventType == KeyPress <==> action == GlfwPress
    ensures e.eventType == KeyRelease <==> action == GlfwRelease
    ensures e.eventType != KeyPress && e.eventType != KeyRelease ==> e.eventType == Undefined
  {
    KeyEvent(KeyEventTypeOf(action), key, scancode)
  }

  /** Calls into the renderer and the ray tracer whose effects lie outside this model. */
  datatype Request = ClearImageRenderer | ToggleBufferQuality | ShowScene(n: int) | MinusBounces | PlusBounces

  /** What one tick reads from the outside world. */
  datatype TickInput = TickInput(
    held: set<KeySym>,   // the keys `getKeyState` reports down
    victim: Id,          // `getRandomInt(20, biggestId())`, the entity key O destroys
    cubePos: Vec3,       // the random position key I gives the new cube
    bunnyPos: Vec3)      // the random position key I gives the new bunny

  /** The ray tracer's display toggles (RayTracer.hpp), with their member initialisers. */
  class RayTracer {
    var infoText: bool
    var fastMode: bool
    var visualizeFocusDistance: bool

    constructor ()
      ensures infoText && !fastMode && visualizeFocusDistance
    {
      infoText, fastMode, visualizeFocusDistance := true, false, true;
    }

    method ToggleInfoText()
      modifies this
      ensures infoText == !old(infoText)
      ensures fastMode == old(fastMode) && visualizeFocusDistance == old(visualizeFocusDistance)
    {
      infoText := !infoText;
    }

    method ToggleFastMode()
      modifies this
      ensures fastMode == !old(fastMode)
      ensures infoText == old(infoText) && visualizeFocusDistance == old(visualizeFocusDistance)
    {
      fastMode := !fastMode;
    }

    method ToggleVisualizeFocusDistance()
      modifies this
      ensures visualizeFocusDistance == !old(visualizeFocusDistance)
      ensures infoText == old(infoText) && fastMode == old(fastMode)
    {
      visualizeFocusDistance := !visualizeFocusDistance;
    }
  }

  /** The model file the constructor loads as the bunny mesh. */
  const BunnyPath: string := "./data/models/bunny.obj"

  /** The order in which the constructor registers the systems, lines 34-42. */
  const RegistrationOrder: seq<SystemName> :=
    [InputSys, TransformSys, CameraSys, AssetSys, SelectionSys, EditorSys, UiSys, RayTracerSys, RenderSys]

  function Names(ss: seq<System>): (r: seq<SystemName>)
    ensures |r| == |ss| && forall i :: 0 <= i < |ss| ==> r[i] == ss[i].name
  {
    seq(|ss|, i requires 0 <= i < |ss| => ss[i].name)
  }

  /** The engine's system members, lines 18-29: one handle per system. */
  method NewSystems()
    returns (input: System, transform: System, camera: System, asset: System, selection: System,
             editor: System, ui: System, rayTracer: System, render: System, debug: System)
    ensures input.name == InputSys
    ensures transform.name == TransformSys
    ensures camera.name == CameraSys
    ensures asset.name == AssetSys
    ensures selection.name == SelectionSys
    ensures editor.name == EditorSys
    ensures ui.name == UiSys
    ensures rayTracer.name == RayTracerSys
    ensures render.name == RenderSys
    ensures debug.name == DebugSys
  {
    input := new System(InputSys);
    transform := new System(TransformSys);
    camera := new System(CameraSys);
    asset := new System(AssetSys);
    selection := new System(SelectionSys);
    editor := new System(EditorSys);
    ui := new System(UiSys);
    rayTracer := new System(RayTracerSys);
    render := new System(RenderSys);
    debug := new System(DebugSys);
  }

  /**
   * What the registrations of lines 34-48 amount to: nine systems in registration order, three
   * 3D renderers and two 2D renderers. The debug system is only a renderer, so it is never
   * updated.
   */
  lemma RegistrationsAsListed(ss: seq<System>, rs3: seq<System>, rs2: seq<System>)
    requires |ss| == 9 && |rs3| == 3 && |rs2| == 2
    requires ss[0].name == InputSys && ss[1].name == TransformSys && ss[2].name == CameraSys
    requires ss[3].name == AssetSys && ss[4].name == SelectionSys && ss[5].name == EditorSys
    requires ss[6].name == UiSys && ss[7].name == RayTracerSys && ss[8].name == RenderSys
    requires rs3[0] == ss[8] && rs3[1] == ss[5] && rs3[2].name == DebugSys
    requires rs2[0] == ss[8] && rs2[1] == ss[6]
    ensures Names(ss) == RegistrationOrder
    ensures Names(rs3) == [RenderSys, EditorSys, DebugSys] && Names(rs2) == [RenderSys, UiSys]
    ensures rs3[2] !in ss
  {
    assert Names(ss) == RegistrationOrder;
  }

  /** The shared materials of lines 59-61: the random cubes', the bunnies', and the animating button's. */
  const CubeMaterial := Material(Color(0.2, 0.5, 0.7, 0.0), false)
  const BunnyMaterial := Material(Color(0.7, 0.3, 0.1, 0.0), false)
  const ButtonMaterial := Material(Color(0.0, 0.0, 0.1, 0.0), true)

  /**
   * The tables the constructor fills before the test world, lines 50-61: entity 0 is reserved
   * for the picking background, then the bunny model, the shared box mesh and the three shared
   * materials are each a new entity that owns its asset.
   */
  method NewTables(frames0: int, timer0: real)
    returns (es: EntitySystem, ts: TransformSystem, ast: AssetSystem, rs: RenderSystem,
             model: Id, mesh: Id, material: Id, bunnyMaterial: Id, buttonMaterial: Id)
    ensures fresh(es) && fresh(ts) && fresh(ast) && fresh(rs)
    ensures es.Valid() && es.next == 6
    ensures model == 1 && mesh == 2 && material == 3 && bunnyMaterial == 4 && buttonMaterial == 5
    ensures ts.transforms == map[]
    ensures ast.meshes == map[1 := ModelMesh(BunnyPath), 2 := BoxMesh]
    ensures ast.materials == map[3 := CubeMaterial, 4 := BunnyMaterial, 5 := ButtonMaterial]
    ensures !rs.glRendererOn && rs.nroFrames == frames0 && rs.fpsTimer == timer0
    ensures rs.meshLinks == map[] && rs.materialLinks == map[]
  {
    es := new EntitySystem();
    ts := new TransformSystem();
    ast := new AssetSystem();
    rs := new RenderSystem(frames0, timer0);
    var emptyEntityId := es.CreateEntity();
    model := ast.CreateMesh(es, BunnyPath);
    mesh := rs.CreateBox(es, ast);
    material := ast.CreateMaterial(es, CubeMaterial.color, CubeMaterial.animating);
    bunnyMaterial := ast.CreateMaterial(es, BunnyMaterial.color, BunnyMaterial.animating);
    buttonMaterial := ast.CreateMaterial(es, ButtonMaterial.color, ButtonMaterial.animating);
  }

  /** The registrations of lines 34-48, made from fresh handles. */
  method NewRegistrations() returns (ss: seq<System>, rs3: seq<System>, rs2: seq<System>)
    ensures Names(ss) == RegistrationOrder
    ensures Names(rs3) == [RenderSys, EditorSys, DebugSys]
    ensures Names(rs2) == [RenderSys, UiSys]
    ensures rs3[0] == ss[8] && rs3[1] == ss[5] && rs3[2] !in ss
    ensures rs2[0] == ss[8] && rs2[1] == ss[6]
  {
    var input, transform, camera, asset, selection, editor, ui, rayTracer, render, debug := NewSystems();
    ss := [input, transform, camera, asset, selection, editor, ui, rayTracer, render];
    rs3, rs2 := [render, editor, debug], [render, ui];
    RegistrationsAsListed(ss, rs3, rs2);
  }

  /** The loop of lines 150-158 over `ss`: the `update()` calls it makes and the status it folds. */
  method UpdateLoop(ss: seq<System>, oracle: System -> Outcome, ghost en0: Flags) returns (calls: seq<Event>, status: UpdateStatus)
    requires forall s :: s in ss ==> s in en0
    requires forall s :: s in en0 ==> s.enabled == en0[s]
    modifies ss
    ensures calls == UpdatePhase(ss, en0, oracle)
    ensures status == StatusAfter(ss, en0, oracle)
    ensures forall s :: s in en0 ==> s.enabled == EnabledAfter(ss, en0, oracle, s)
  {
    status := NotChanged;
    calls := [];
    for i := 0 to |ss|
      invariant calls == UpdatePhase(ss[..i], en0, oracle)
      invariant status == StatusAfter(ss[..i], en0, oracle)
      invariant forall s :: s in en0 ==> s.enabled == EnabledAfter(ss[..i], en0, oracle, s)
    {
      var s := ss[i];
      ghost var p := ss[..i + 1];
      assert p[..|p| - 1] == ss[..i] && p[|p| - 1] == s;
      if s.enabled {
        var st := s.Update(oracle(s));
        calls := calls + [Updated(s, st)];
        status := if st == Changed then Changed else status;
      }
      forall t | t in en0
        ensures t.enabled == EnabledAfter(p, en0, oracle, t)
      {
        EnabledAfterStep(p, en0, oracle, t);
      }
    }
    assert ss[..|ss|] == ss;
  }

  lemma ConcatAssoc<T>(a: seq<T>, b: seq<T>, c: seq<T>)
    ensures a + b + c == a + (b + c)
  {
  }

  lemma ConcatAssoc5<T>(a: seq<T>, b: seq<T>, c: seq<T>, d: seq<T>, e: seq<T>)
    ensures a + b + c + d + e == a + (b + c + d + e)
  {
  }

  class Engine {
    var systems: seq<System>
    var renderers3D: seq<System>
    var renderers2D: seq<System>
    /** `m_destroyEntities` and `m_defragmentTables`: requests the next tick carries out. */
    var destroyList: seq<Id>
    var defragPending: bool
    /** Every call the ticks have made so far. */
    var trace: seq<Event>
    var running: bool
    var requests: seq<Request>

    const entities: EntitySystem
    const transforms: TransformSystem
    const assets: AssetSystem
    const renderSystem: RenderSystem
    const selection: SelectionSystem
    const rayTracer: RayTracer
    /** The ray tracer system, whose enabled flag key G toggles. */
    const rayTracerSystem: System

    /** The shared assets the constructor creates and the entity helpers link to. */
    const modelID: Id
    const meshID: Id
    const materialID: Id
    const bunnyMaterialID: Id
    const buttonMaterialID: Id

    /**
     * `Engine(window)`, lines 17-68: register the systems and the renderers, reserve entity 0
     * for the picking background, load the shared assets, and build the test world. The systems'
     * initial enabled flags are set by ISystem, which is not part of this model, so they are left
     * open; the render system's uninitialised frame counter and timer are parameters.
     */
    constructor (frames0: int, timer0: real)
      ensures Valid()
      ensures Names(systems) == RegistrationOrder
      ensures Names(renderers3D) == [RenderSys, EditorSys, DebugSys]
      ensures Names(renderers2D) == [RenderSys, UiSys]
      ensures renderers3D[0] == systems[8] && renderers3D[1] == systems[5] && renderers3D[2] !in systems
      ensures renderers2D[0] == systems[8] && renderers2D[1] == systems[6]
      ensures rayTracerSystem == systems[7]
      ensures modelID == 1 && meshID == 2 && materialID == 3 && bunnyMaterialID == 4 && buttonMaterialID == 5
      ensures entities.Valid() && entities.next == 12
      ensures assets.meshes == map[1 := ModelMesh(BunnyPath), 2 := BoxMesh]
      ensures trace == [] && destroyList == [] && !defragPending && running && requests == []
      ensures !renderSystem.glRendererOn && selection.pixelClicked == []
      ensures rayTracer.infoText && !rayTracer.fastMode && rayTracer.visualizeFocusDistance
    {
      var es, ts, ast, rs, model, mesh, material, bunnyMaterial, buttonMaterial := NewTables(frames0, timer0);
      entities, transforms, assets, renderSystem := es, ts, ast, rs;
      modelID, meshID, materialID, bunnyMaterialID, buttonMaterialID := model, mesh, material, bunnyMaterial, buttonMaterial;
      var ss, rs3, rs2 := NewRegistrations();
      systems, renderers3D, renderers2D := ss, rs3, rs2;
      rayTracerSystem := ss[7];
      selection := new SelectionSystem();
      rayTracer := new RayTracer();
      trace, destroyList, defragPending, running, requests := [], [], false, true, [];
      new;
      CreateTestWorld2();
    }

    /** Every id an asset table holds was handed out, and the shared assets exist. */
    ghost predicate Valid()
      reads this, entities, assets
    {
      && entities.Valid()
      && (forall k :: k in assets.meshes ==> k < entities.next)
      && (forall k :: k in assets.materials ==> k < entities.next)
      && meshID in assets.meshes && assets.meshes[meshID] == BoxMesh
      && modelID in assets.meshes
      && materialID in assets.materials && bunnyMaterialID in assets.materials
    }

    /** Every registered handle, in any of the three lists. */
    ghost function Registered(): set<System>
      reads this
    {
      set s | s in systems + renderers3D + renderers2D
    }

    /** The enabled flags of the registered systems now. */
    ghost function EnabledFlags(): (f: Flags)
      reads this, Registered()
      ensures f.Keys == Registered()
    {
      map s | s in Registered() :: s.enabled
    }

    /** The scene the render system draws from now, with `selected` highlighted. */
    function CurrentScene(selected: set<Id>): Scene
      reads this, renderSystem, transforms, assets
    {
      renderSystem.SceneOf(transforms.transforms, assets, selected)
    }

    twostate predicate ListsKept()
      reads this
    {
      systems == old(systems) && renderers3D == old(renderers3D) && renderers2D == old(renderers2D)
    }

    /** `destroyEntity(id)`: the request is queued, duplicates included; nothing is called. */
    method DestroyEntity(id: Id)
      modifies this
      ensures destroyList == old(destroyList) + [id]
      ensures ListsKept() && trace == old(trace) && defragPending == old(defragPending)
      ensures running == old(running) && requests == old(requests)
    {
      destroyList := destroyList + [id];
    }

    /** `defragmentTablesAsync()`: only the flag is set, so asking twice is asking once. */
    method DefragmentTablesAsync()
      modifies this
      ensures defragPending
      ensures ListsKept() && trace == old(trace) && destroyList == old(destroyList)
      ensures running == old(running) && requests == old(requests)
    {
      defragPending := true;
    }

    /** `addSystem(system)`: appended after every system registered before it. */
    method AddSystem(s: System)
      modifies this
      ensures systems == old(systems) + [s]
      ensures renderers3D == old(renderers3D) && renderers2D == old(renderers2D)
      ensures trace == old(trace) && destroyList == old(destroyList) && defragPending == old(defragPending)
      ensures running == old(running) && requests == old(requests)
    {
      systems := systems + [s];
    }

    method AddRenderer3D(s: System)
      modifies this
      ensures renderers3D == old(renderers3D) + [s]
      ensures systems == old(systems) && renderers2D == old(renderers2D)
      ensures trace == old(trace) && destroyList == old(destroyList) && defragPending == old(defragPending)
      ensures running == old(running) && requests == old(requests)
    {
      renderers3D := renderers3D + [s];
    }

    method AddRenderer2D(s: System)
      modifies this
      ensures renderers2D == old(renderers2D) + [s]
      ensures systems == old(systems) && renderers3D == old(renderers3D)
      ensures trace == old(trace) && destroyList == old(destroyList) && defragPending == old(defragPending)
      ensures running == old(running) && requests == old(requests)
    {
      renderers2D := renderers2D + [s];
    }

    /**
     * `createCube(position, color)`: a new entity at `position` that owns its material and
     * borrows the shared box mesh; it is drawn as a box in its own colour.
     */
    method CreateCube(position: Vec3, color: Color) returns (id: Id)
      requires Valid()
      modifies entities, transforms, assets, renderSystem
      ensures Valid()
      ensures id == old(entities.next) && id !in old(entities.alive) && entities.alive == old(entities.alive) + {id}
      ensures entities.next == old(entities.next) + 1
      ensures transforms.transforms == old(transforms.transforms)[id := position]
      ensures assets.materials == old(assets.materials)[id := Material(color, false)] && assets.meshes == old(assets.meshes)
      ensures renderSystem.meshLinks == old(renderSystem.meshLinks)[id := meshID]
      ensures renderSystem.materialLinks == old(renderSystem.materialLinks)
      ensures renderSystem.glRendererOn == old(renderSystem.glRendererOn)
      ensures id !in assets.meshes
      ensures renderSystem.OwnedKept() && renderSystem.CountersKept()
    {
      id := entities.CreateEntity();
      transforms.AddTransform(id, position);
      assets.AddMaterial(id, Material(color, false));
      renderSystem.AddMeshLink(id, meshID);
    }

    /**
     * `createBunny(position, color)`: a new entity at `position` linked to the bunny model and
     * the bunny material. The `color` argument is not used by the source.
     */
    method CreateBunny(position: Vec3, color: Color) returns (id: Id)
      requires Valid()
      modifies entities, transforms, renderSystem
      ensures Valid()
      ensures id == old(entities.next) && id !in old(entities.alive) && entities.alive == old(entities.alive) + {id}
      ensures entities.next == old(entities.next) + 1
      ensures transforms.transforms == old(transforms.transforms)[id := position]
      ensures renderSystem.meshLinks == old(renderSystem.meshLinks)[id := modelID]
      ensures renderSystem.materialLinks == old(renderSystem.materialLinks)[id := bunnyMaterialID]
      ensures renderSystem.glRendererOn == old(renderSystem.glRendererOn)
      ensures id !in assets.meshes && id !in assets.materials
      ensures renderSystem.OwnedKept() && renderSystem.CountersKept()
    {
      id := entities.CreateEntity();
      transforms.AddTransform(id, position);
      renderSystem.AddMaterialLink(id, bunnyMaterialID);
      renderSystem.AddMeshLink(id, modelID);
    }

    /** `createRandomCubeEntity()`: a box with the shared cube material at a random position. */
    method CreateRandomCubeEntity(position: Vec3) returns (id: Id)
      requires Valid()
      modifies entities, transforms, renderSystem
      ensures Valid()
      ensures id == old(entities.next) && id !in old(entities.alive) && entities.alive == old(entities.alive) + {id}
      ensures entities.next == old(entities.next) + 1
      ensures transforms.transforms == old(transforms.transforms)[id := position]
      ensures renderSystem.meshLinks == old(renderSystem.meshLinks)[id := meshID]
      ensures renderSystem.materialLinks == old(renderSystem.materialLinks)[id := materialID]
      ensures renderSystem.glRendererOn == old(renderSystem.glRendererOn)
      ensures id !in assets.meshes && id !in assets.materials
      ensures renderSystem.OwnedKept() && renderSystem.CountersKept()
    {
      id := entities.CreateEntity();
      transforms.AddTransform(id, position);
      renderSystem.AddMaterialLink(id, materialID);
      renderSystem.AddMeshLink(id, meshID);
    }

    /** `createRandomBunnyEntity()`: a bunny with the shared bunny material at a random position. */
    method CreateRandomBunnyEntity(position: Vec3) returns (id: Id)
      requires Valid()
      modifies entities, transforms, renderSystem
      ensures Valid()
      ensures id == old(entities.next) && id !in old(entities.alive) && entities.alive == old(entities.alive) + {id}
      ensures entities.next == old(entities.next) + 1
      ensures transforms.transforms == old(transforms.transforms)[id := position]
      ensures renderSystem.meshLinks == old(renderSystem.meshLinks)[id := modelID]
      ensures renderSystem.materialLinks == old(renderSystem.materialLinks)[id := bunnyMaterialID]
      ensures renderSystem.glRendererOn == old(renderSystem.glRendererOn)
      ensures id !in assets.meshes && id !in assets.materials
      ensures renderSystem.OwnedKept() && renderSystem.CountersKept()
    {
      id := entities.CreateEntity();
      transforms.AddTransform(id, position);
      renderSystem.AddMaterialLink(id, bunnyMaterialID);
      renderSystem.AddMeshLink(id, modelID);
    }

    /**
     * The pair that key I and the "add object" button spawn (lines 412-413 and 454-455): a random
     * cube entity, then a random bunny entity.
     */
    method SpawnRandomPair(cubePos: Vec3, bunnyPos: Vec3) returns (cube: Id, bunny: Id)
      requires Valid()
      modifies entities, transforms, renderSystem
      ensures Valid()
      ensures cube == old(entities.next) && bunny == cube + 1 && entities.next == old(entities.next) + 2
      ensures entities.alive == old(entities.alive) + {cube, bunny}
      ensures transforms.transforms == old(transforms.transforms)[cube := cubePos][bunny := bunnyPos]
      ensures renderSystem.meshLinks == old(renderSystem.meshLinks)[cube := meshID][bunny := modelID]
      ensures renderSystem.materialLinks == old(renderSystem.materialLinks)[cube := materialID][bunny := bunnyMaterialID]
      ensures renderSystem.glRendererOn == old(renderSystem.glRendererOn)
      ensures renderSystem.OwnedKept() && renderSystem.CountersKept()
    {
      cube := CreateRandomCubeEntity(cubePos);
      bunny := CreateRandomBunnyEntity(bunnyPos);
    }

    /** Lines 125-133. */
    method RunDestroyPhase()
      requires Valid()
      modifies this, entities
      ensures Valid()
      ensures trace == old(trace) + DestroyPhase(systems, old(destroyList))
      ensures destroyList == []
      ensures entities.alive == old(entities.alive) - set i | i in old(destroyList)
      ensures entities.next == old(entities.next)
      ensures ListsKept() && defragPending == old(defragPending)
      ensures running == old(running) && requests == old(requests)
    {
      if destroyList != [] {
        var calls: seq<Event> := [];
        for i := 0 to |systems|
          invariant calls == Broadcast(systems[..i], DestroyEntities(destroyList))
        {
          assert Broadcast(systems[..i + 1], DestroyEntities(destroyList))
            == Broadcast(systems[..i], DestroyEntities(destroyList)) + [Call(systems[i], DestroyEntities(destroyList))];
          calls := calls + [Call(systems[i], DestroyEntities(destroyList))];
        }
        assert systems[..|systems|] == systems;
        entities.DestroyEntities(destroyList);
        trace := trace + calls + [CommitDestroy(destroyList)];
        destroyList := [];
      }
    }

    /** Lines 135-142. */
    method RunDefragPhase()
      modifies this
      ensures trace == old(trace) + DefragPhase(systems, old(defragPending))
      ensures !defragPending
      ensures ListsKept() && destroyList == old(destroyList)
      ensures running == old(running) && requests == old(requests)
    {
      if defragPending {
        var calls: seq<Event> := [];
        for i := 0 to |systems|
          invariant calls == Broadcast(systems[..i], DefragmentTables)
        {
          assert Broadcast(systems[..i + 1], DefragmentTables)
            == Broadcast(systems[..i], DefragmentTables) + [Call(systems[i], DefragmentTables)];
          calls := calls + [Call(systems[i], DefragmentTables)];
        }
        assert systems[..|systems|] == systems;
        trace := trace + calls;
        defragPending := false;
      }
    }

    /**
     * `reactToInput`, lines 450-471: held I spawns a random cube and a random bunny, O queues
     * the destruction of a random entity, P asks for defragmentation, K and L change the ray
     * tracer's bounce count.
     */
    method ReactToInput(input: TickInput)
      requires Valid()
      modifies this, entities, transforms, renderSystem
      ensures Valid()
      ensures trace == old(trace) + [InputReaction]
      ensures destroyList == old(destroyList) + (if O in input.held then [input.victim] else [])
      ensures defragPending == (old(defragPending) || P in input.held)
      ensures entities.next == old(entities.next) + (if I in input.held then 2 else 0)
      ensures entities.alive == old(entities.alive) + (if I in input.held then {old(entities.next), old(entities.next) + 1} else {})
      ensures transforms.transforms == if I in input.held
        then old(transforms.transforms)[old(entities.next) := input.cubePos][old(entities.next) + 1 := input.bunnyPos]
        else old(transforms.transforms)
      ensures renderSystem.meshLinks == if I in input.held
        then old(renderSystem.meshLinks)[old(entities.next) := meshID][old(entities.next) + 1 := modelID]
        else old(renderSystem.meshLinks)
      ensures renderSystem.materialLinks == if I in input.held
        then old(renderSystem.materialLinks)[old(entities.next) := materialID][old(entities.next) + 1 := bunnyMaterialID]
        else old(renderSystem.materialLinks)
      ensures requests == old(requests) + (if K in input.held then [MinusBounces] else []) + (if L in input.held then [PlusBounces] else [])
      ensures ListsKept() && running == old(running)
      ensures renderSystem.glRendererOn == old(renderSystem.glRendererOn)
      ensures renderSystem.OwnedKept() && renderSystem.CountersKept()
    {
      trace := trace + [InputReaction];
      if I in input.held {
        var cube, bunny := SpawnRandomPair(input.cubePos, input.bunnyPos);
      }
      QueueHeldRequests(input);
    }

    /** Lines 458-470: keys O, P, K and L only queue requests, for this tick and the ray tracer. */
    method QueueHeldRequests(input: TickInput)
      modifies this
      ensures destroyList == old(destroyList) + (if O in input.held then [input.victim] else [])
      ensures defragPending == (old(defragPending) || P in input.held)
      ensures requests == old(requests) + (if K in input.held then [MinusBounces] else []) + (if L in input.held then [PlusBounces] else [])
      ensures ListsKept() && trace == old(trace) && running == old(running)
    {
      if O in input.held {
        DestroyEntity(input.victim);
      }
      if P in input.held {
        DefragmentTablesAsync();
      }
      requests := requests + (if K in input.held then [MinusBounces] else [])
                           + (if L in input.held then [PlusBounces] else []);
    }

    /**
     * Lines 146-158: update every system enabled when the loop reaches it and fold the results;
     * a Changed does not stop the loop.
     */
    method RunUpdatePhase(oracle: System -> Outcome, ghost en0: Flags) returns (status: UpdateStatus)
      requires en0.Keys == Registered()
      requires forall s :: s in en0 ==> s.enabled == en0[s]
      modifies this, Registered()
      ensures trace == old(trace) + UpdatePhase(systems, en0, oracle)
      ensures status == StatusAfter(systems, en0, oracle)
      ensures forall s :: s in en0 ==> s.enabled == EnabledAfter(systems, en0, oracle, s)
      ensures ListsKept() && destroyList == old(destroyList) && defragPending == old(defragPending)
      ensures running == old(running) && requests == old(requests)
    {
      var calls;
      calls, status := UpdateLoop(systems, oracle, en0);
      trace := trace + calls;
    }

    /** The `hook` calls the loop over `ss` makes: one per system enabled now, in list order. */
    method EnabledCalls(ss: seq<System>, hook: Hook, ghost f: Flags) returns (calls: seq<Event>)
      requires forall s :: s in ss ==> s in f && s.enabled == f[s]
      ensures calls == CallEnabled(ss, f, hook)
    {
      calls := [];
      for i := 0 to |ss|
        invariant calls == CallEnabled(ss[..i], f, hook)
      {
        var p := ss[..i + 1];
        assert p[..|p| - 1] == ss[..i] && p[|p| - 1] == ss[i];
        if ss[i].enabled {
          calls := calls + [Call(ss[i], hook)];
        }
      }
      assert ss[..|ss|] == ss;
    }

    /**
     * Lines 125-158: commit the queued destructions, run a pending defragmentation, react to the
     * held keys, and update the systems, starting from the flags `en0`.
     */
    method RunPrelude(input: TickInput, oracle: System -> Outcome, ghost en0: Flags) returns (status: UpdateStatus)
      requires Valid()
      requires en0.Keys == Registered()
      requires forall s :: s in en0 ==> s.enabled == en0[s]
      modifies this, entities, transforms, renderSystem, Registered()
      ensures Valid()
      ensures trace == old(trace) + Prelude(systems, old(destroyList), old(defragPending), en0, oracle)
      ensures status == StatusAfter(systems, en0, oracle)
      ensures forall s :: s in en0 ==> s.enabled == EnabledAfter(systems, en0, oracle, s)
      ensures ListsKept() && running == old(running)
      ensures destroyList == (if O in input.held then [input.victim] else [])
      ensures defragPending == (P in input.held)
      ensures entities.alive == (old(entities.alive) - set i | i in old(destroyList))
        + (if I in input.held then {old(entities.next), old(entities.next) + 1} else {})
      ensures entities.next == old(entities.next) + (if I in input.held then 2 else 0)
      ensures transforms.transforms == if I in input.held
        then old(transforms.transforms)[old(entities.next) := input.cubePos][old(entities.next) + 1 := input.bunnyPos]
        else old(transforms.transforms)
      ensures renderSystem.meshLinks == if I in input.held
        then old(renderSystem.meshLinks)[old(entities.next) := meshID][old(entities.next) + 1 := modelID]
        else old(renderSystem.meshLinks)
      ensures renderSystem.materialLinks == if I in input.held
        then old(renderSystem.materialLinks)[old(entities.next) := materialID][old(entities.next) + 1 := bunnyMaterialID]
        else old(renderSystem.materialLinks)
      ensures requests == old(requests) + (if K in input.held then [MinusBounces] else []) + (if L in input.held then [PlusBounces] else [])
      ensures renderSystem.glRendererOn == old(renderSystem.glRendererOn)
      ensures renderSystem.OwnedKept()
    {
      ghost var t0, ss := trace, systems;
      ghost var destroyCalls := DestroyPhase(ss, destroyList);
      ghost var defragCalls := DefragPhase(ss, defragPending);
      RunDestroyPhase();
      RunDefragPhase();
      ReactToInput(input);
      status := RunUpdatePhase(oracle, en0);
      ghost var updateCalls := UpdatePhase(ss, en0, oracle);
      assert trace == t0 + destroyCalls + defragCalls + [InputReaction] + updateCalls;
      ConcatAssoc5(t0, destroyCalls, defragCalls, [InputReaction], updateCalls);
    }

    /**
     * Lines 160-190: the 3D pass, the 2D pass and the frame-end calls, all seeing the flags `f`
     * the updates left behind.
     */
    method RunFrame(ghost f: Flags)
      requires forall s :: s in Registered() ==> s in f && s.enabled == f[s]
      modifies this
      ensures trace == old(trace) + Frame(systems, renderers3D, renderers2D, f)
      ensures ListsKept() && destroyList == old(destroyList) && defragPending == old(defragPending)
      ensures running == old(running) && requests == old(requests)
    {
      var r3 := EnabledCalls(renderers3D, Render3D, f);
      var r2 := EnabledCalls(renderers2D, Render2D, f);
      var fe := EnabledCalls(systems, OnFrameEnd, f);
      trace := trace + (([BeginFrame3D] + r3 + [EndFrame3D]) + ([BeginFrame2D] + r2 + [EndFrame2D]) + fe);
    }

    /**
     * `update()`, lines 120-193: one tick. It records exactly `Tick(...)` of the state it
     * starts in, reports the fold of the systems' statuses, commits the queued destructions,
     * and leaves behind only the requests this tick's input made.
     */
    method Update(input: TickInput, oracle: System -> Outcome) returns (status: UpdateStatus)
      requires Valid()
      modifies this, entities, transforms, renderSystem, Registered()
      ensures Valid()
      ensures trace == old(trace) + Tick(old(systems), old(renderers3D), old(renderers2D),
                                         old(destroyList), old(defragPending), old(EnabledFlags()), oracle)
      ensures status == StatusAfter(old(systems), old(EnabledFlags()), oracle)
      ensures forall s :: s in old(Registered()) ==>
        s.enabled == EnabledAfter(old(systems), old(EnabledFlags()), oracle, s)
      ensures ListsKept()
      ensures destroyList == (if O in input.held then [input.victim] else [])
      ensures defragPending == (P in input.held)
      ensures entities.alive == (old(entities.alive) - set i | i in old(destroyList))
        + (if I in input.held then {old(entities.next), old(entities.next) + 1} else {})
      ensures running == old(running)
      ensures entities.next == old(entities.next) + (if I in input.held then 2 else 0)
      ensures transforms.transforms == if I in input.held
        then old(transforms.transforms)[old(entities.next) := input.cubePos][old(entities.next) + 1 := input.bunnyPos]
        else old(transforms.transforms)
      ensures renderSystem.meshLinks == if I in input.held
        then old(renderSystem.meshLinks)[old(entities.next) := meshID][old(entities.next) + 1 := modelID]
        else old(renderSystem.meshLinks)
      ensures renderSystem.materialLinks == if I in input.held
        then old(renderSystem.materialLinks)[old(entities.next) := materialID][old(entities.next) + 1 := bunnyMaterialID]
        else old(renderSystem.materialLinks)
      ensures requests == old(requests) + (if K in input.held then [MinusBounces] else []) + (if L in input.held then [PlusBounces] else [])
      ensures renderSystem.glRendererOn == old(renderSystem.glRendererOn)
      ensures renderSystem.OwnedKept()
    {
      ghost var en0 := EnabledFlags();
      ghost var t0 := trace;
      status := RunPrelude(input, oracle, en0);
      ghost var f := FlagsAfter(systems, en0, oracle);
      RunFrame(f);
      ConcatAssoc(t0, Prelude(systems, old(destroyList), old(defragPending), en0, oracle), Frame(systems, renderers3D, renderers2D, f));
    }

    /** `createTestWorld2()`, lines 269-297: five cubes and a bunny. */
    method CreateTestWorld2()
      requires Valid()
      modifies entities, transforms, assets, renderSystem
      ensures Valid()
      ensures entities.next == old(entities.next) + 6
      ensures entities.alive == old(entities.alive) + {old(entities.next), old(entities.next) + 1, old(entities.next) + 2,
                                                      old(entities.next) + 3, old(entities.next) + 4, old(entities.next) + 5}
      ensures assets.meshes == old(assets.meshes)
      ensures renderSystem.glRendererOn == old(renderSystem.glRendererOn)
      ensures renderSystem.OwnedKept() && renderSystem.CountersKept()
    {
      var cube0 := CreateCube(Vec3(0.0, 0.0, -1.0), Color(0.8, 0.3, 0.3, 0.0));
      var cube1 := CreateCube(Vec3(1.0, 0.0, -1.0), Color(0.8, 0.6, 0.2, 0.0));
      var cube2 := CreateCube(Vec3(-0.5, 0.65, -1.0), Color(0.8, 0.4, 0.8, 0.0));
      var cube3 := CreateCube(Vec3(-1.0, 0.0, -1.0), Color(0.8, 0.5, 0.3, 0.0));
      var cube4 := CreateCube(Vec3(-3.15, 0.1, -5.0), Color(0.05, 0.2, 0.8, 0.0));
      var bunny1 := CreateBunny(Vec3(0.0, 0.0, 0.0), Color(0.05, 0.2, 0.8, 0.0));
    }

    /**
     * `onMouseEvent`, lines 379-423: a first-button press runs the picking pass, reads the pixel
     * under the cursor (`red`, `green`), and clears the selection, spawns a cube and a bunny, or
     * selects the entity. The random positions of the spawned pair are parameters.
     */
    method OnMouseEvent(eventType: EventType, button: MouseButton, red: Byte, green: Byte, cubePos: Vec3, bunnyPos: Vec3)
      returns (picks: seq<PickDraw>)
      requires Valid()
      modifies entities, transforms, renderSystem, selection
      ensures Valid()
      ensures !(eventType == MouseButtonPress && button == First) ==>
        picks == [] && unchanged(entities, transforms, renderSystem, selection)
      ensures eventType == MouseButtonPress && button == First ==>
        picks == PickList(old(entities.Entities()), old(CurrentScene({})))
      ensures eventType == MouseButtonPress && button == First && PickActionOf(PickedId(red, green)) == ClearSelection ==>
        selection.pixelClicked == [] && unchanged(entities, transforms, renderSystem)
      ensures eventType == MouseButtonPress && button == First && PickActionOf(PickedId(red, green)).Select? ==>
        selection.pixelClicked == [PickedId(red, green)] && unchanged(entities, transforms, renderSystem)
      ensures eventType == MouseButtonPress && button == First && PickActionOf(PickedId(red, green)) == SpawnCubeAndBunny ==>
        && selection.pixelClicked == old(selection.pixelClicked)
        && entities.next == old(entities.next) + 2
        && entities.alive == old(entities.alive) + {old(entities.next), old(entities.next) + 1}
        && transforms.transforms == old(transforms.transforms)[old(entities.next) := cubePos][old(entities.next) + 1 := bunnyPos]
        && renderSystem.meshLinks == old(renderSystem.meshLinks)[old(entities.next) := meshID][old(entities.next) + 1 := modelID]
        && renderSystem.materialLinks
             == old(renderSystem.materialLinks)[old(entities.next) := materialID][old(entities.next) + 1 := bunnyMaterialID]
        && renderSystem.glRendererOn == old(renderSystem.glRendererOn)
      ensures renderSystem.OwnedKept() && renderSystem.CountersKept()
    {
      picks := [];
      if eventType == MouseButtonPress && button == First {
        picks := renderSystem.RenderPicking(entities.Entities(), transforms.transforms, assets);
        var pickedId := PickedId(red, green);
        if pickedId == InvalidId {
          selection.ClearPixelClicked();
        } else if pickedId == AddObjectButtonId {
          var cube, bunny := SpawnRandomPair(cubePos, bunnyPos);
        } else {
          selection.SetPixelClicked([pickedId]);
        }
      }
    }

    /** `onKeyEvent`, lines 425-448: the engine's hot keys, on key press only. */
    method OnKeyEvent(eventType: EventType, key: KeySym)
      modifies this, renderSystem, rayTracer, rayTracerSystem
      ensures eventType != KeyPress || key !in {Escape, R, G, Tab, Y, U, H, Num1, Num2, Num3} ==>
        unchanged(this, renderSystem, rayTracer, rayTracerSystem)
      ensures eventType == KeyPress && key == Escape ==> !running && requests == old(requests)
      ensures eventType == KeyPress && key == R ==> requests == old(requests) + [ClearImageRenderer]
      ensures eventType == KeyPress && key == G ==>
        renderSystem.glRendererOn == !old(renderSystem.glRendererOn) && rayTracerSystem.enabled == !old(rayTracerSystem.enabled)
      ensures eventType == KeyPress && key == Tab ==> rayTracer.infoText == !old(rayTracer.infoText)
      ensures eventType == KeyPress && key == Y ==> requests == old(requests) + [ToggleBufferQuality]
      ensures eventType == KeyPress && key == U ==> rayTracer.fastMode == !old(rayTracer.fastMode)
      ensures eventType == KeyPress && key == H ==> rayTracer.visualizeFocusDistance == !old(rayTracer.visualizeFocusDistance)
      ensures eventType == KeyPress && key == Num1 ==> requests == old(requests) + [ShowScene(1)]
      ensures eventType == KeyPress && key == Num2 ==> requests == old(requests) + [ShowScene(2)]
      ensures eventType == KeyPress && key == Num3 ==> requests == old(requests) + [ShowScene(3)]
      ensures key != Escape ==> running == old(running)
      ensures key != G ==> unchanged(renderSystem, rayTracerSystem)
      ensures key !in {Tab, U, H} ==> unchanged(rayTracer)
      ensures key !in {R, Y, Num1, Num2, Num3} ==> requests == old(requests)
      ensures ListsKept() && trace == old(trace) && destroyList == old(destroyList) && defragPending == old(defragPending)
      ensures renderSystem.OwnedKept() && renderSystem.CountersKept()
      ensures renderSystem.meshLinks == old(renderSystem.meshLinks) && renderSystem.materialLinks == old(renderSystem.materialLinks)
    {
      if eventType == KeyPress {
        match key
        case Escape => running := false;
        case R => requests := requests + [ClearImageRenderer];
        case G =>
          renderSystem.ToggleGlRenderer();
          rayTracerSystem.ToggleIsEnabled();
        case Tab => rayTracer.ToggleInfoText();
        case Y => requests := requests + [ToggleBufferQuality];
        case U => rayTracer.ToggleFastMode();
        case H => rayTracer.ToggleVisualizeFocusDistance();
        case Num1 => requests := requests + [ShowScene(1)];
        case Num2 => requests := requests + [ShowScene(2)];
        case Num3 => requests := requests + [ShowScene(3)];
        case _ =>
      }
    }
  }
}
