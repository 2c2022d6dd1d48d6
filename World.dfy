/**
 * The collaborators the scheduler and the render system call into, at the interface those
 * calls use: the entity registry (`EntitySystem`), the transform table (`TransformSystem`),
 * the owned mesh and material tables (`AssetSystem`) and the picked-entity list
 * (`SelectionSystem`). Their implementations are not part of this model; each member here
 * states only what its name promises to the calling code.
 */
module World {
  import opened Types

  /** Mesh contents are GPU buffers; the model keeps only what kind of mesh was made. */
  datatype Mesh = BoxMesh | SphereMesh | ModelMesh(path: string)

  datatype Material = Material(color: Color, animating: bool)

  /**
   * The entity registry. Handles are handed out by a counter, so they increase with every
   * creation and are never handed out twice; the first one is 0.
   */
  class EntitySystem {
    var alive: set<Id>
    var next: Id

    ghost predicate Valid()
      reads this
    {
      0 <= next && forall id :: id in alive ==> 0 <= id < next
    }

    constructor ()
      ensures Valid() && alive == {} && next == 0
    {
      alive, next := {}, 0;
    }

    /** `createEntity()`: a handle never handed out before, now alive. */
    method CreateEntity() returns (id: Id)
      requires Valid()
      modifies this
      ensures Valid()
      ensures id == old(next) && next == old(next) + 1
      ensures id !in old(alive) && alive == old(alive) + {id}
    {
      id := next;
      alive := alive + {id};
      next := next + 1;
    }

    /** `destroyEntities(ids)`: every listed handle is dead afterwards; duplicates are harmless. */
    method DestroyEntities(ids: seq<Id>)
      requires Valid()
      modifies this
      ensures Valid()
      ensures alive == old(alive) - set i | i in ids
      ensures next == old(next)
    {
      alive := alive - set i | i in ids;
    }

    /** The alive handles below `n`, in ascending order. */
    function AliveBelow(n: int): (r: seq<Id>)
      reads this
      decreases n
      ensures forall k :: 0 <= k < |r| ==> r[k] in alive && r[k] < n
      ensures forall id :: id in alive && 0 <= id < n ==> id in r
      ensures forall j, k :: 0 <= j < k < |r| ==> r[j] < r[k]
    {
      if n <= 0 then [] else AliveBelow(n - 1) + (if n - 1 in alive then [n - 1] else [])
    }

    /** `entities()`: every alive handle, ascending. */
    function Entities(): (r: seq<Id>)
      requires Valid()
      reads this
      ensures forall id :: id in r <==> id in alive
      ensures forall j, k :: 0 <= j < k < |r| ==> r[j] < r[k]
    {
      AliveBelow(next)
    }
  }

  /** The transform table; only positions are modelled. */
  class TransformSystem {
    var transforms: map<Id, Vec3>

    constructor ()
      ensures transforms == map[]
    {
      transforms := map[];
    }

    /** `addTransform(id, Transform(position))`. */
    method AddTransform(id: Id, position: Vec3)
      modifies this
      ensures transforms == old(transforms)[id := position]
    {
      transforms := transforms[id := position];
    }
  }

  /** The owned mesh and material tables that drawing resolves through. */
  class AssetSystem {
    var meshes: map<Id, Mesh>
    var materials: map<Id, Material>

    constructor ()
      ensures meshes == map[] && materials == map[]
    {
      meshes, materials := map[], map[];
    }

    /** `addMesh(id, mesh)`. */
    method AddMesh(id: Id, mesh: Mesh)
      modifies this
      ensures meshes == old(meshes)[id := mesh] && materials == old(materials)
    {
      meshes := meshes[id := mesh];
    }

    /** `addMaterial(id, material)`. */
    method AddMaterial(id: Id, material: Material)
      modifies this
      ensures materials == old(materials)[id := material] && meshes == old(meshes)
    {
      materials := materials[id := material];
    }

    /** `createMesh(path)`: a new entity owning the mesh loaded from `path`. */
    method CreateMesh(entities: EntitySystem, path: string) returns (id: Id)
      requires entities.Valid()
      modifies this, entities
      ensures entities.Valid() && id !in old(entities.alive) && entities.alive == old(entities.alive) + {id}
      ensures id == old(entities.next) && entities.next == old(entities.next) + 1
      ensures meshes == old(meshes)[id := ModelMesh(path)] && materials == old(materials)
    {
      id := entities.CreateEntity();
      AddMesh(id, ModelMesh(path));
    }

    /** `createMaterial(color)` and `createAnimatingMaterial(color)`: a new entity owning the material. */
    method CreateMaterial(entities: EntitySystem, color: Color, animating: bool) returns (id: Id)
      requires entities.Valid()
      modifies this, entities
      ensures entities.Valid() && id !in old(entities.alive) && entities.alive == old(entities.alive) + {id}
      ensures id == old(entities.next) && entities.next == old(entities.next) + 1
      ensures materials == old(materials)[id := Material(color, animating)] && meshes == old(meshes)
    {
      id := entities.CreateEntity();
      AddMaterial(id, Material(color, animating));
    }
  }

  /** The entities picked by the last click. */
  class SelectionSystem {
    var pixelClicked: seq<Id>

    constructor ()
      ensures pixelClicked == []
    {
      pixelClicked := [];
    }

    method SetPixelClicked(ids: seq<Id>)
      modifies this
      ensures pixelClicked == ids
    {
      pixelClicked := ids;
    }

    method ClearPixelClicked()
      modifies this
      ensures pixelClicked == []
    {
      pixelClicked := [];
    }
  }
}
