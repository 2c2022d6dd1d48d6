/**
 * The render system (rae/visual/RenderSystem.cpp and .hpp): its link tables, how drawing finds
 * each entity's mesh and material, which entities `render` and `renderPicking` draw, its frame
 * counter, and the renderer switch.
 *
 * A mesh or material is the entity's own entry in the asset system's table if it has one, and
 * otherwise the entry of the entity its link names. The source looks the link target up without
 * checking that it exists; the model returns None for such a dangling link, and
 * `ResolveAgreesWhenLinksResolve` shows that this agrees with the source whenever the target exists.
 */
module Visual {
  import opened Types
  import opened World

  /** What one drawing pass reads besides the render system's own link tables. */
  datatype Scene = Scene(
    transforms: map<Id, Vec3>,
    meshes: map<Id, Mesh>,
    materials: map<Id, Material>,
    meshLinks: map<Id, Id>,
    materialLinks: map<Id, Id>,
    selected: set<Id>)

  /** One `renderMesh` call: the entity, its transform, what it is drawn with, and its highlight. */
  datatype Draw = Draw(id: Id, position: Vec3, mesh: Mesh, material: Material, selected: bool)

  /** One `renderMeshPicking` call: the mesh, drawn in the colour that encodes `id`. */
  datatype PickDraw = PickDraw(id: Id, position: Vec3, mesh: Mesh)

  /** `Table::get` of a key that may be missing. */
  function Lookup<V>(table: map<Id, V>, id: Id): (r: Option<V>)
    ensures r.Some? <==> id in table
    ensures r.Some? ==> r.value == table[id]
  {
    if id in table then Some(table[id]) else None
  }

  /** Own entry first, else the link's target entry; a dangling link resolves to nothing. */
  function Resolve<V(==)>(owned: map<Id, V>, links: map<Id, Id>, id: Id): (r: Option<V>)
    ensures r.Some? <==> id in owned || (id in links && links[id] in owned)
    ensures id in owned ==> r == Some(owned[id])
    ensures r.Some? ==> r.value in owned.Values
  {
    if Check(owned, id) then Some(owned[id])
    else if Check(links, id) then Lookup(owned, links[id])
    else None
  }

  /** Every link names an entity that owns an entry: the case in which the source's lookup is defined. */
  ghost predicate LinksResolve<V>(owned: map<Id, V>, links: map<Id, Id>) {
    forall id :: id in links ==> links[id] in owned
  }

  /** When every link resolves, the Option model finds exactly what the source's unchecked lookup does. */
  lemma ResolveAgreesWhenLinksResolve<V>(owned: map<Id, V>, links: map<Id, Id>, id: Id)
    requires LinksResolve(owned, links)
    ensures Resolve(owned, links, id).Some? <==> id in owned || id in links
    ensures id !in owned && id in links ==> Resolve(owned, links, id) == Some(owned[links[id]])
  {
  }

  /** Assigning a link makes it the one resolution follows, unless the entity owns an entry itself. */
  lemma AssignedLinkResolves<V>(owned: map<Id, V>, links: map<Id, Id>, id: Id, target: Id)
    ensures id in owned ==> Resolve(owned, links[id := target], id) == Some(owned[id])
    ensures id !in owned ==> Resolve(owned, links[id := target], id) == Lookup(owned, target)
    ensures forall other :: other != id ==> Resolve(owned, links[id := target], other) == Resolve(owned, links, other)
  {
  }

  function MeshOf(sc: Scene, id: Id): Option<Mesh> {
    Resolve(sc.meshes, sc.meshLinks, id)
  }

  function MaterialOf(sc: Scene, id: Id): Option<Material> {
    Resolve(sc.materials, sc.materialLinks, id)
  }

  /** `render` draws an entity when it has a transform, a mesh and a material. */
  predicate Drawable(sc: Scene, id: Id) {
    id in sc.transforms && MeshOf(sc, id).Some? && MaterialOf(sc, id).Some?
  }

  /** `renderPicking` draws an entity when it has a transform and a mesh. */
  predicate Pickable(sc: Scene, id: Id) {
    id in sc.transforms && MeshOf(sc, id).Some?
  }

  function DrawOf(sc: Scene, id: Id): Draw
    requires Drawable(sc, id)
  {
    Draw(id, sc.transforms[id], MeshOf(sc, id).value, MaterialOf(sc, id).value, id in sc.selected)
  }

  function PickDrawOf(sc: Scene, id: Id): PickDraw
    requires Pickable(sc, id)
  {
    PickDraw(id, sc.transforms[id], MeshOf(sc, id).value)
  }

  predicate StrictlyIncreasing(s: seq<Id>) {
    forall j, k :: 0 <= j < k < |s| ==> s[j] < s[k]
  }

  /** In an ascending list every element before the last is below the last. */
  lemma BelowLast(s: seq<Id>, x: Id)
    requires StrictlyIncreasing(s) && s != [] && x in s[..|s| - 1]
    ensures x < s[|s| - 1]
  {
    var m :| 0 <= m < |s| - 1 && s[..|s| - 1][m] == x;
    assert s[m] == x;
  }

  /** The draws `render` makes, visiting `entities` in order. */
  function RenderList(entities: seq<Id>, sc: Scene): (r: seq<Draw>)
    ensures |r| <= |entities|
    ensures forall d :: d in r ==> d.id in entities && Drawable(sc, d.id) && d == DrawOf(sc, d.id)
    ensures forall id :: id in entities && Drawable(sc, id) ==> DrawOf(sc, id) in r
  {
    if entities == [] then []
    else
      var last := entities[|entities| - 1];
      var front := entities[..|entities| - 1];
      assert entities == front + [last];
      RenderList(front, sc) + (if Drawable(sc, last) then [DrawOf(sc, last)] else [])
  }

  /** Visiting the entities in ascending order draws them in ascending order. */
  lemma {:induction false} RenderListAscending(entities: seq<Id>, sc: Scene)
    requires StrictlyIncreasing(entities)
    ensures forall j, k :: 0 <= j < k < |RenderList(entities, sc)| ==> RenderList(entities, sc)[j].id < RenderList(entities, sc)[k].id
  {
    if entities != [] {
      var last := entities[|entities| - 1];
      var front := entities[..|entities| - 1];
      assert entities == front + [last];
      RenderListAscending(front, sc);
      var r0, r := RenderList(front, sc), RenderList(entities, sc);
      forall j, k | 0 <= j < k < |r|
        ensures r[j].id < r[k].id
      {
        if k >= |r0| {
          assert r[j] in r0;
          BelowLast(entities, r[j].id);
        }
      }
    }
  }

  /** The draws `renderPicking` makes, visiting `entities` in order. */
  function PickList(entities: seq<Id>, sc: Scene): (r: seq<PickDraw>)
    ensures |r| <= |entities|
    ensures forall d :: d in r ==> d.id in entities && Pickable(sc, d.id) && d == PickDrawOf(sc, d.id)
    ensures forall id :: id in entities && Pickable(sc, id) ==> PickDrawOf(sc, id) in r
  {
    if entities == [] then []
    else
      var last := entities[|entities| - 1];
      var front := entities[..|entities| - 1];
      assert entities == front + [last];
      PickList(front, sc) + (if Pickable(sc, last) then [PickDrawOf(sc, last)] else [])
  }

  /** Visiting the entities in ascending order draws them in ascending order. */
  lemma {:induction false} PickListAscending(entities: seq<Id>, sc: Scene)
    requires StrictlyIncreasing(entities)
    ensures forall j, k :: 0 <= j < k < |PickList(entities, sc)| ==> PickList(entities, sc)[j].id < PickList(entities, sc)[k].id
  {
    if entities != [] {
      var last := entities[|entities| - 1];
      var front := entities[..|entities| - 1];
      assert entities == front + [last];
      PickListAscending(front, sc);
      var r0, r := PickList(front, sc), PickList(entities, sc);
      forall j, k | 0 <= j < k < |r|
        ensures r[j].id < r[k].id
      {
        if k >= |r0| {
          assert r[j] in r0;
          BelowLast(entities, r[j].id);
        }
      }
    }
  }

  /** Everything `render` draws is also drawn by `renderPicking`, with the same mesh and position. */
  lemma PickingCoversRendering(entities: seq<Id>, sc: Scene)
    ensures forall d :: d in RenderList(entities, sc) ==> PickDraw(d.id, d.position, d.mesh) in PickList(entities, sc)
  {
    forall d | d in RenderList(entities, sc)
      ensures PickDraw(d.id, d.position, d.mesh) in PickList(entities, sc)
    {
      assert Pickable(sc, d.id) && PickDrawOf(sc, d.id) == PickDraw(d.id, d.position, d.mesh);
    }
  }

  /**
   * An entity that draws a linked mesh is picked under its own id, not the link target's, and
   * whether it has a material does not matter.
   */
  lemma LinkedEntityPickedUnderOwnId(entities: seq<Id>, sc: Scene, id: Id)
    requires id in entities && id in sc.transforms
    requires id !in sc.meshes && id in sc.meshLinks && sc.meshLinks[id] in sc.meshes
    ensures PickDraw(id, sc.transforms[id], sc.meshes[sc.meshLinks[id]]) in PickList(entities, sc)
  {
    assert Pickable(sc, id);
  }

  /** An entity whose only mesh link dangles is drawn by neither pass. */
  lemma DanglingMeshLinkIsNotDrawn(entities: seq<Id>, sc: Scene, id: Id)
    requires id !in sc.meshes && (id in sc.meshLinks ==> sc.meshLinks[id] !in sc.meshes)
    ensures forall d :: d in RenderList(entities, sc) ==> d.id != id
    ensures forall d :: d in PickList(entities, sc) ==> d.id != id
  {
  }

  /** The seconds over which `update` counts frames before restarting the count. */
  const FpsWindow: real := 5.0

  class RenderSystem {
    var glRendererOn: bool
    var nroFrames: int
    var fpsTimer: real
    /** The header's owned tables, which `meshCount` and `materialCount` measure. */
    var meshes: map<Id, Mesh>
    var materials: map<Id, Material>
    /** The link tables (`Table<Id>`): entity to the entity that owns its mesh or material. */
    var meshLinks: map<Id, Id>
    var materialLinks: map<Id, Id>

    /**
     * The header gives `m_glRendererOn` the initialiser `false`; `m_nroFrames` and `m_fpsTimer`
     * have none and the constructor sets neither, so their starting values are parameters.
     */
    constructor (frames0: int, timer0: real)
      ensures !glRendererOn && nroFrames == frames0 && fpsTimer == timer0
      ensures meshes == map[] && materials == map[] && meshLinks == map[] && materialLinks == map[]
    {
      glRendererOn := false;
      nroFrames, fpsTimer := frames0, timer0;
      meshes, materials, meshLinks, materialLinks := map[], map[], map[], map[];
    }

    /** The header's owned tables are as they were. */
    twostate predicate OwnedKept()
      reads this
    {
      meshes == old(meshes) && materials == old(materials)
    }

    /** The frame counter and the fps timer are as they were. */
    twostate predicate CountersKept()
      reads this
    {
      nroFrames == old(nroFrames) && fpsTimer == old(fpsTimer)
    }

    method ToggleGlRenderer()
      modifies this
      ensures glRendererOn == !old(glRendererOn)
      ensures nroFrames == old(nroFrames) && fpsTimer == old(fpsTimer)
      ensures meshes == old(meshes) && materials == old(materials)
      ensures meshLinks == old(meshLinks) && materialLinks == old(materialLinks)
    {
      glRendererOn := !glRendererOn;
    }

    function MeshCount(): (n: int)
      reads this
      ensures n == |meshes|
    {
      |meshes|
    }

    function MaterialCount(): (n: int)
      reads this
      ensures n == |materials|
    {
      |materials|
    }

    /** `addMeshLink(id, linkId)`: `Table::assign`, replacing any earlier link of `id`. */
    method AddMeshLink(id: Id, linkId: Id)
      modifies this
      ensures meshLinks == old(meshLinks)[id := linkId]
      ensures materialLinks == old(materialLinks) && meshes == old(meshes) && materials == old(materials)
      ensures glRendererOn == old(glRendererOn) && nroFrames == old(nroFrames) && fpsTimer == old(fpsTimer)
    {
      meshLinks := meshLinks[id := linkId];
    }

    /** `addMaterialLink(id, linkId)`: `Table::assign`, replacing any earlier link of `id`. */
    method AddMaterialLink(id: Id, linkId: Id)
      modifies this
      ensures materialLinks == old(materialLinks)[id := linkId]
      ensures meshLinks == old(meshLinks) && meshes == old(meshes) && materials == old(materials)
      ensures glRendererOn == old(glRendererOn) && nroFrames == old(nroFrames) && fpsTimer == old(fpsTimer)
    {
      materialLinks := materialLinks[id := linkId];
    }

    /** `createBox()`: a new entity that owns a box mesh under its own id. */
    method CreateBox(entities: EntitySystem, assets: AssetSystem) returns (id: Id)
      requires entities.Valid()
      modifies entities, assets
      ensures entities.Valid() && id !in old(entities.alive) && entities.alive == old(entities.alive) + {id}
      ensures id == old(entities.next) && entities.next == old(entities.next) + 1
      ensures assets.meshes == old(assets.meshes)[id := BoxMesh] && assets.materials == old(assets.materials)
    {
      id := entities.CreateEntity();
      assets.AddMesh(id, BoxMesh);
    }

    /** The scene one drawing pass sees: the given tables and this system's link tables. */
    function SceneOf(transforms: map<Id, Vec3>, owned: AssetSystem, selected: set<Id>): Scene
      reads this, owned
    {
      Scene(transforms, owned.meshes, owned.materials, meshLinks, materialLinks, selected)
    }

    /** `render()`: with the GL renderer on, draw every entity that resolves a mesh and a material. */
    method Render(entities: seq<Id>, transforms: map<Id, Vec3>, owned: AssetSystem, selected: set<Id>)
      returns (draws: seq<Draw>)
      ensures draws == if glRendererOn then RenderList(entities, SceneOf(transforms, owned, selected)) else []
    {
      draws := [];
      if !glRendererOn {
        return;
      }
      var sc := SceneOf(transforms, owned, selected);
      for i := 0 to |entities|
        invariant draws == RenderList(entities[..i], sc)
      {
        var id := entities[i];
        var mesh: Option<Mesh> := None;
        var material: Option<Material> := None;
        if Check(owned.meshes, id) {
          mesh := Some(owned.meshes[id]);
        } else if Check(meshLinks, id) {
          mesh := Lookup(owned.meshes, meshLinks[id]);
        }
        if Check(owned.materials, id) {
          material := Some(owned.materials[id]);
        } else if Check(materialLinks, id) {
          material := Lookup(owned.materials, materialLinks[id]);
        }
        assert entities[..i + 1] == entities[..i] + [id];
        if id in transforms && mesh.Some? && material.Some? {
          draws := draws + [Draw(id, transforms[id], mesh.value, material.value, id in selected)];
        }
      }
      assert entities[..|entities|] == entities;
    }

    /** `renderPicking()`: draw every entity that resolves a mesh, tagged with its own id. */
    method RenderPicking(entities: seq<Id>, transforms: map<Id, Vec3>, owned: AssetSystem)
      returns (picks: seq<PickDraw>)
      ensures picks == PickList(entities, SceneOf(transforms, owned, {}))
    {
      picks := [];
      var sc := SceneOf(transforms, owned, {});
      for i := 0 to |entities|
        invariant picks == PickList(entities[..i], sc)
      {
        var id := entities[i];
        var mesh: Option<Mesh> := None;
        if Check(owned.meshes, id) {
          mesh := Some(owned.meshes[id]);
        } else if Check(meshLinks, id) {
          mesh := Lookup(owned.meshes, meshLinks[id]);
        }
        assert entities[..i + 1] == entities[..i] + [id];
        if id in transforms && mesh.Some? {
          picks := picks + [PickDraw(id, transforms[id], mesh.value)];
        }
      }
      assert entities[..|entities|] == entities;
    }

    /**
     * `update()`: count the frame, restart the count when the five-second window is full, draw,
     * and report NotChanged. The GL error check, the background image upload, the UI pass and the
     * fps text are left out.
     */
    method Update(deltaTime: real, entities: seq<Id>, transforms: map<Id, Vec3>, owned: AssetSystem, selected: set<Id>)
      returns (status: UpdateStatus, draws: seq<Draw>)
      modifies this
      ensures status == NotChanged
      ensures old(fpsTimer) + deltaTime < FpsWindow ==> nroFrames == old(nroFrames) + 1 && fpsTimer == old(fpsTimer) + deltaTime
      ensures old(fpsTimer) + deltaTime >= FpsWindow ==> nroFrames == 0 && fpsTimer == 0.0
      ensures fpsTimer < FpsWindow
      ensures draws == if glRendererOn then RenderList(entities, SceneOf(transforms, owned, selected)) else []
      ensures glRendererOn == old(glRendererOn) && meshes == old(meshes) && materials == old(materials)
      ensures meshLinks == old(meshLinks) && materialLinks == old(materialLinks)
    {
      nroFrames := nroFrames + 1;
      fpsTimer := fpsTimer + deltaTime;
      if fpsTimer >= FpsWindow {
        nroFrames := 0;
        fpsTimer := 0.0;
      }
      draws := Render(entities, transforms, owned, selected);
      status := NotChanged;
    }
  }
}
