# rae engine core, modelled in Dafny

This project models the core of the rae engine and the Pihlaja video player built on it. It covers:

- **The per-tick scheduler of `Engine::update`.** Destroy requests are deferred and committed at the start of the next tick. Defragmentation is a flag. Every enabled system is updated, and the status is the OR of their results. Then come the 3D pass, the 2D pass and the frame-end calls.
- **The engine's own state.** This is the registered system lists, the constructor's shared assets and test world, the entity helpers, and the mouse and key handlers, including the picking decode.
- **Drawing.** This is how the render system resolves an entity's mesh and material through its link tables, and the pure filters that say what `render` and `renderPicking` draw. Its frame counter and renderer switch are modelled too.
- **Smaller state machines.** These are the editor gizmo's axis flags, the video player's key toggles and update dispatch, the optical-flow node's state, axis-aligned box growth and containment, and the basic types.

Systems are abstract handles with an `enabled` flag. The outcome of a system's `update()` within a tick is given by an oracle: the status it reports, and whether it is still enabled afterwards. Every call the scheduler makes is recorded in a trace of `Event`s.

The functions of module `Scheduler` say, phase by phase, which events one tick records. `Engine.Engine.Update` is proved to record exactly `Tick(...)` of the state it starts in. The lemmas about `Tick` then give the ordering and aggregation properties.

Modules and files:

| module | file | source |
|---|---|---|
| `Types` | Types.dfy | src/rae/core/Types.hpp |
| `Input` | Input.dfy | event kinds and key symbols the handlers switch on |
| `World` | World.dfy | the entity, transform, asset and selection systems, at the interface the core calls |
| `Visual` | RenderSystem.dfy | src/rae/visual/RenderSystem.cpp and RenderSystem.hpp |
| `Scheduler` | Scheduler.dfy | the tick of src/rae/Engine.cpp, as functions over abstract systems |
| `Engine` | Engine.dfy | src/rae/Engine.cpp, and the ray tracer toggles of src/rae/RayTracer.hpp |
| `Editor` | Editor.dfy | src/rae/editor/EditorSystem.hpp (`IGizmo`) |
| `Fx` | OpticalFlow.dfy | src/rae_av/fx/OpticalFlow.hpp |
| `Pihlaja` | Pihlaja.dfy | src/pihlaja/Pihlaja.cpp |
| `Boxes` | Box.dfy | src/rae/visual/Box.cpp |

Modelling choices and observations:

- **Dangling links.** The source looks up a link's target without checking that the target owns an entry (RenderSystem.cpp lines 300 and 305). The model's `Visual.Resolve` returns `None` for a dangling link. `Visual.ResolveAgreesWhenLinksResolve` shows that this agrees with the source whenever every link target exists.
- **Picking colour.** The picking shader is not part of this model. `Engine.PickColor` is the encoding that the decode of Engine.cpp line 402 undoes: low byte in red, next byte in green. Entities 65536 apart alias (`Engine.PickAliasing`).
- **The "add object" id.** The mouse handler treats picked id 13 as the "add object" button (Engine.cpp lines 411-415). `createTestWorld2` does not create that button, and the constructor creates twelve entities itself (ids 0-11). If the systems built in the initialiser list create no entity of their own, the second entity spawned later gets id 13, and clicking it spawns a new pair instead of selecting it. The model keeps the constant 13 as written (`Engine.AddObjectButtonId`).
- **`createBunny` ignores its colour.** Its `color` argument has no effect (Engine.cpp lines 252-262). `Engine.Engine.CreateBunny` takes it and does not use it.
- **Render system tables.** RenderSystem.hpp declares owned `m_meshes` and `m_materials` tables that `meshCount` and `materialCount` measure. RenderSystem.cpp resolves through the asset system instead. Both are kept: the header's tables are fields of `Visual.RenderSystem` that nothing writes.
- **Registration.** The constructor builds its three lists directly, in the order of Engine.cpp lines 34-48. `AddSystem`, `AddRenderer3D` and `AddRenderer2D` are modelled on their own.

## Model

| member | source | states |
|---|---|---|
| Types.Count | src/rae/core/Types.hpp:63-66 | a map has at most one entry per key, and the count is 1 exactly when the key is present |
| Types.Check | src/rae/core/Types.hpp:63-66 | `check(map, key)` holds exactly when `key` is in `map` |
| Types.DefaultBoolT | src/rae/core/Types.hpp:33-42 | a default-constructed `bool_t` converts to false |
| Types.FromBool | src/rae/core/Types.hpp:34-37 | `bool_t(v)` converts back to `v` |
| Types.BoolT.Assign | src/rae/core/Types.hpp:39-42 | writing `v` through the reference makes the value `v`, and writing a different value changes the `bool_t` |
| Types.BoolTRoundTrip | src/rae/core/Types.hpp:34-42 | bool to `bool_t` and back is the identity, and so is `bool_t` to bool and back |
| World.EntitySystem.CreateEntity | src/rae/Engine.cpp:51 | `createEntity` hands out the counter's value, which was never alive before, makes it alive and advances the counter |
| World.EntitySystem.DestroyEntities | src/rae/Engine.cpp:131 | every listed handle is dead afterwards, duplicates are harmless, and the counter is kept |
| World.EntitySystem.AliveBelow | src/rae/visual/RenderSystem.cpp:292 | the alive handles below `n`, each alive, all of them, in strictly ascending order |
| World.EntitySystem.Entities | src/rae/visual/RenderSystem.cpp:292 | `entities()` lists exactly the alive handles, strictly ascending |
| World.TransformSystem.AddTransform | src/rae/Engine.cpp:242 | the entity's position is set and every other entry is kept |
| World.AssetSystem.AddMesh | src/rae/visual/RenderSystem.cpp:181 | the mesh is stored under the id; the materials are unchanged |
| World.AssetSystem.AddMaterial | src/rae/Engine.cpp:246 | the material is stored under the id; the meshes are unchanged |
| World.AssetSystem.CreateMesh | src/rae/Engine.cpp:55 | a new entity owns the mesh loaded from the path |
| World.AssetSystem.CreateMaterial | src/rae/Engine.cpp:59-61 | a new entity owns the material, animating or not |
| World.SelectionSystem.SetPixelClicked | src/rae/Engine.cpp:419 | the selection becomes exactly the given list |
| World.SelectionSystem.ClearPixelClicked | src/rae/Engine.cpp:409 | the selection becomes empty |
| Visual.Lookup | src/rae/visual/RenderSystem.cpp:299-300 | a table lookup finds the key's entry exactly when the key is present |
| Visual.Resolve | src/rae/visual/RenderSystem.cpp:297-305 | an entity resolves when it owns an entry or its link names an owner; its own entry wins; what it resolves to is some owned entry |
| Visual.ResolveAgreesWhenLinksResolve | src/rae/visual/RenderSystem.cpp:297-305 | when every link target exists, resolution succeeds exactly for owners and linked entities, and a linked entity gets its target's entry |
| Visual.AssignedLinkResolves | src/rae/visual/RenderSystem.cpp:204-212 | after assigning a link, the entity resolves through the new target unless it owns an entry, and no other entity's resolution changes |
| Visual.RenderList | src/rae/visual/RenderSystem.cpp:292-322 | `render` draws only listed entities with a transform, a mesh and a material, each as resolved; every such entity is drawn; at most one draw per entity visit |
| Visual.RenderListAscending | src/rae/visual/RenderSystem.cpp:292-322 | visiting entities in ascending order draws them in ascending order |
| Visual.PickList | src/rae/visual/RenderSystem.cpp:348-367 | `renderPicking` draws exactly the listed entities with a transform and a resolved mesh, whatever their material, tagged with their own id |
| Visual.PickListAscending | src/rae/visual/RenderSystem.cpp:348-367 | visiting entities in ascending order picks them in ascending order |
| Visual.PickingCoversRendering | src/rae/visual/RenderSystem.cpp:292-367 | every entity `render` draws is drawn by `renderPicking` too, with the same position and mesh |
| Visual.LinkedEntityPickedUnderOwnId | src/rae/visual/RenderSystem.cpp:352-366 | an entity drawing a linked mesh is picked under its own id, whether or not it has a material |
| Visual.DanglingMeshLinkIsNotDrawn | src/rae/visual/RenderSystem.cpp:297-367 | an entity without its own mesh whose link dangles is drawn by neither pass |
| Visual.RenderSystem.constructor | src/rae/visual/RenderSystem.hpp:137-153 | the GL renderer starts off and every table starts empty; the frame counter and timer have no initialiser and are given |
| Visual.RenderSystem.ToggleGlRenderer | src/rae/visual/RenderSystem.hpp:82-85 | the renderer switch flips and nothing else changes, so toggling twice restores it |
| Visual.RenderSystem.MeshCount | src/rae/visual/RenderSystem.hpp:95 | `meshCount()` is the size of the owned mesh table |
| Visual.RenderSystem.MaterialCount | src/rae/visual/RenderSystem.hpp:96 | `materialCount()` is the size of the owned material table |
| Visual.RenderSystem.AddMeshLink | src/rae/visual/RenderSystem.cpp:204-207 | the entity's mesh link is assigned, replacing any earlier one; nothing else changes |
| Visual.RenderSystem.AddMaterialLink | src/rae/visual/RenderSystem.cpp:209-212 | the entity's material link is assigned, replacing any earlier one; nothing else changes |
| Visual.RenderSystem.CreateBox | src/rae/visual/RenderSystem.cpp:176-189 | a fresh entity owns a box mesh under its own id, and that id is returned |
| Visual.RenderSystem.Render | src/rae/visual/RenderSystem.cpp:271-334 | the loop's draws are `RenderList` of the entities when the GL renderer is on, and nothing when it is off |
| Visual.RenderSystem.RenderPicking | src/rae/visual/RenderSystem.cpp:336-369 | the loop's draws are `PickList` of the entities |
| Visual.RenderSystem.Update | src/rae/visual/RenderSystem.cpp:238-269 | the frame is counted, the count and timer restart at 0 once the timer reaches 5 seconds, the timer stays below 5, the entities are drawn as `render` does, and the result is NotChanged |
| Scheduler.System.Update | src/rae/Engine.cpp:154 | a system's `update()` reports the oracle's status and leaves its own flag as the oracle says |
| Scheduler.System.ToggleIsEnabled | src/rae/Engine.cpp:435 | the system's enabled flag flips |
| Scheduler.Broadcast | src/rae/Engine.cpp:127-130 | one call per system, in registration order |
| Scheduler.CallEnabled | src/rae/Engine.cpp:161-167 | calls only systems enabled in the flags, each one in the list, and every enabled system in the list is called |
| Scheduler.CallEnabledStep | src/rae/Engine.cpp:161-167 | one more listed system adds its call at the end exactly when it is enabled, so the calls follow list order |
| Scheduler.CallEnabledPrefix | src/rae/Engine.cpp:161-167 | the calls for a prefix of the list are a prefix of the calls for the whole list |
| Scheduler.CallEnabledCount | src/rae/Engine.cpp:161-190 | an enabled system is called once per listing, and a disabled system is never called |
| Scheduler.DestroyPhase | src/rae/Engine.cpp:125-133 | with requests pending, every system hears them in order and then the registry commits them; with none, no call is made |
| Scheduler.DefragPhase | src/rae/Engine.cpp:135-142 | with the flag set, every system defragments exactly once in order; otherwise no call |
| Scheduler.FlagsAfter | src/rae/Engine.cpp:150-158 | the flags after the update loop are, for every system, whether it is enabled after the loop |
| Scheduler.UpdatePhase | src/rae/Engine.cpp:150-158 | at most one update per visit, each of a listed system and reporting its oracle status |
| Scheduler.EnabledAfter | src/rae/Engine.cpp:150-158 | reference definition: a system is enabled when the loop reaches it again if it was enabled at the start and any earlier update of it kept it enabled |
| Scheduler.StatusAfter | src/rae/Engine.cpp:146-158 | reference definition of `engineUpdateStatus`, folded over the loop; its meaning is proved by `Scheduler.StatusIsOrOfUpdates` |
| Scheduler.Pass3D | src/rae/Engine.cpp:160-168 | reference definition: begin the 3D frame, call the enabled 3D renderers, end the frame |
| Scheduler.Pass2D | src/rae/Engine.cpp:170-178 | reference definition: begin the 2D frame, call the enabled 2D renderers, end the frame |
| Scheduler.Prelude | src/rae/Engine.cpp:125-158 | reference definition: the destroy, defragment, input and update phases in that order |
| Scheduler.Frame | src/rae/Engine.cpp:160-190 | reference definition: the 3D pass, the 2D pass and the frame-end calls, on the flags the updates left |
| Scheduler.Tick | src/rae/Engine.cpp:120-193 | reference definition of one tick's calls; `Engine.Engine.Update` is proved to record it, and `Scheduler.TickInPhaseOrder` orders it |
| Scheduler.EnabledAfterStep | src/rae/Engine.cpp:150-158 | visiting one more system changes only that system's flag, which stays on only if it was on when reached and its update kept it so |
| Scheduler.DestroyPhaseInOrder | src/rae/Engine.cpp:125-133 | the destroy broadcast precedes the registry's commit |
| Scheduler.DefragPhaseInOrder | src/rae/Engine.cpp:135-142 | the defragment calls form one phase |
| Scheduler.UpdatePhaseInOrder | src/rae/Engine.cpp:150-158 | the update calls form one phase |
| Scheduler.PreludeInPhaseOrder | src/rae/Engine.cpp:125-158 | destroy, commit, defragment, input reaction and updates come in that order |
| Scheduler.FrameInPhaseOrder | src/rae/Engine.cpp:160-190 | 3D begin, 3D renderers, 3D end, 2D begin, 2D renderers, 2D end and frame-end calls come in that order |
| Scheduler.TickInPhaseOrder | src/rae/Engine.cpp:120-190 | every event of a tick comes in phase order |
| Scheduler.StatusIsOrOfUpdates | src/rae/Engine.cpp:146-158 | the tick reports Changed exactly when some system the loop finds enabled reports Changed |
| Scheduler.StatusMatchesEvents | src/rae/Engine.cpp:146-158 | the tick reports Changed exactly when some recorded update event reports Changed |
| Scheduler.UpdatedIffEnabled | src/rae/Engine.cpp:150-158 | the visit at position `i` records an update exactly when the system is enabled when reached, whatever the earlier systems reported |
| Scheduler.EnabledSystemIsUpdated | src/rae/Engine.cpp:150-158 | a system enabled when the loop reaches it is updated, even after another reported Changed |
| Scheduler.PrefixEventsStay | src/rae/Engine.cpp:150-158 | the update events of a prefix of the list are a prefix of the whole list's |
| Scheduler.DisabledSystemIsNotUpdated | src/rae/Engine.cpp:150-158 | a system disabled at the start of the tick is never updated |
| Scheduler.NoRepeatsEnabledAtStart | src/rae/Engine.cpp:150-158 | in a list without repeats, enabled when reached means enabled at the start of the tick |
| Scheduler.FrameEndSkipsSelfDisabled | src/rae/Engine.cpp:182-190 | a system that disabled itself during its update misses `onFrameEnd` |
| Engine.PickedId | src/rae/Engine.cpp:401-402 | the picked id is below 65536, its low byte is red and its high byte is green |
| Engine.PickColor | src/rae/Engine.cpp:401-402 | the colour of an id carries its low byte in red and its next byte in green |
| Engine.PickRoundTrip | src/rae/Engine.cpp:401-402 | decoding the colour of an entity below 65536 gives back that entity |
| Engine.PickColorRoundTrip | src/rae/Engine.cpp:401-402 | every colour is the colour of the id it decodes to |
| Engine.PickAliasing | src/rae/Engine.cpp:401-402 | an entity at or above 65536 is picked as itself modulo 65536 |
| Engine.PickActionOf | src/rae/Engine.cpp:406-420 | 0 clears the selection, 13 spawns a cube and a bunny, and any other id selects exactly that id, each an if and only if |
| Engine.PickingSelectsDrawnEntity | src/rae/Engine.cpp:393-420 | clicking the pixel that the picking pass drew for an entity (neither 0 nor 13) selects that entity |
| Engine.CreatedCubeIsDrawn | src/rae/Engine.cpp:237-250 | what `createCube` leaves behind is drawn as a box in its own material |
| Engine.LinkedEntityIsDrawn | src/rae/Engine.cpp:213-262 | what `createBunny` and the random-entity helpers leave behind is drawn with the linked mesh and material |
| Engine.KeyEventTypeOf | src/rae/Engine.cpp:370-374 | GLFW press and release map to KeyPress and KeyRelease, each an if and only if; anything else is Undefined |
| Engine.OsKeyEvent | src/rae/Engine.cpp:367-377 | the event carries the key and the scancode, its type follows the action, and the modifier bits are dropped |
| Engine.RayTracer.constructor | src/rae/RayTracer.hpp:90-92 | info text on, fast mode off, focus-distance view on |
| Engine.RayTracer.ToggleInfoText | src/rae/RayTracer.hpp:81 | the info-text flag flips and the other toggles are kept |
| Engine.RayTracer.ToggleFastMode | src/rae/RayTracer.hpp:76 | the fast-mode flag flips and the other toggles are kept |
| Engine.RayTracer.ToggleVisualizeFocusDistance | src/rae/RayTracer.hpp:84 | the focus-distance flag flips and the other toggles are kept |
| Engine.NewSystems | src/rae/Engine.cpp:18-30 | one fresh handle per system member, each named for its system |
| Engine.RegistrationsAsListed | src/rae/Engine.cpp:34-48 | the nine systems are in registration order, the 3D renderers are render, editor and debug, the 2D renderers are render and ui, and the debug system is only a renderer |
| Engine.NewRegistrations | src/rae/Engine.cpp:34-48 | the three lists hold the named handles in the constructor's order, sharing the render, editor and ui handles |
| Engine.NewTables | src/rae/Engine.cpp:50-61 | entity 0 is reserved; ids 1 to 5 are the bunny model, the box mesh and the three shared materials with their colours; the renderer starts off with no links |
| Engine.UpdateLoop | src/rae/Engine.cpp:146-158 | the loop records `UpdatePhase`, returns `StatusAfter` and leaves every flag as `EnabledAfter` says |
| Engine.Engine.constructor | src/rae/Engine.cpp:17-68 | the systems and renderers are registered as listed, the shared assets are ids 1 to 5, the test world makes the counter 12, and nothing is pending, traced or requested |
| Engine.Engine.CurrentScene | src/rae/visual/RenderSystem.cpp:292-305 | the tables the render loops read now: transforms, owned meshes and materials, and the render system's links |
| Engine.Engine.DestroyEntity | src/rae/Engine.cpp:70-73 | the id is appended to the pending list, duplicates included, and nothing is called |
| Engine.Engine.DefragmentTablesAsync | src/rae/Engine.cpp:75-78 | only the flag is set, so asking twice is asking once |
| Engine.Engine.AddSystem | src/rae/Engine.cpp:80-83 | the system is appended after all earlier ones; the renderer lists are kept |
| Engine.Engine.AddRenderer3D | src/rae/Engine.cpp:85-88 | the renderer is appended to the 3D list only |
| Engine.Engine.AddRenderer2D | src/rae/Engine.cpp:90-93 | the renderer is appended to the 2D list only |
| Engine.Engine.CreateCube | src/rae/Engine.cpp:237-250 | a new entity at the position owns a material of the colour and links to the shared box mesh; the render system's owned tables and frame counters are kept |
| Engine.Engine.CreateBunny | src/rae/Engine.cpp:252-262 | a new entity at the position links to the bunny model and the bunny material; the render system's owned tables and frame counters are kept |
| Engine.Engine.CreateRandomCubeEntity | src/rae/Engine.cpp:225-235 | a new entity at the given position links to the box mesh and the shared cube material; the render system's owned tables and frame counters are kept |
| Engine.Engine.CreateRandomBunnyEntity | src/rae/Engine.cpp:213-223 | a new entity at the given position links to the bunny model and the bunny material; the render system's owned tables and frame counters are kept |
| Engine.Engine.SpawnRandomPair | src/rae/Engine.cpp:452-456 | a random cube, then a random bunny: two new consecutive handles with their positions and links; the render system's owned tables and frame counters are kept |
| Engine.Engine.RunDestroyPhase | src/rae/Engine.cpp:125-133 | records `DestroyPhase` of the pending list, kills the listed entities and empties the list |
| Engine.Engine.RunDefragPhase | src/rae/Engine.cpp:135-142 | records `DefragPhase` of the flag and clears the flag |
| Engine.Engine.ReactToInput | src/rae/Engine.cpp:450-472 | held I spawns a random cube entity and a random bunny entity (two new handles, their positions, and their mesh and material links), and without I the transforms and links are kept; O queues the random victim, P sets the defragment flag, K and L request bounce changes; the render system's owned tables and frame counters are kept |
| Engine.Engine.QueueHeldRequests | src/rae/Engine.cpp:458-471 | O, P, K and L only queue requests |
| Engine.Engine.RunUpdatePhase | src/rae/Engine.cpp:146-158 | records `UpdatePhase`, reports `StatusAfter` and leaves the flags as `EnabledAfter` says |
| Engine.Engine.EnabledCalls | src/rae/Engine.cpp:160-190 | a renderer or frame-end loop calls exactly `CallEnabled` of the flags at that moment |
| Engine.Engine.RunPrelude | src/rae/Engine.cpp:125-158 | destroy, defragment, input and update phases record `Prelude`; the pending requests are those of this tick's input; the counter, transforms, links and ray tracer requests change only as the held keys say; the GL switch is kept; the render system's owned tables are kept |
| Engine.Engine.RunFrame | src/rae/Engine.cpp:160-190 | the passes and frame-end calls record `Frame` on the flags the updates left |
| Engine.Engine.Update | src/rae/Engine.cpp:120-193 | one tick records exactly `Tick` of the starting state, reports the OR of the updates, leaves each flag as the updates left it, commits the queued destructions, leaves pending only the destroy and defragment requests of this tick's input, changes the counter, transforms, links and ray tracer requests only as the held keys say, and keeps the GL switch; the render system's owned tables are kept |
| Engine.Engine.CreateTestWorld2 | src/rae/Engine.cpp:269-297 | six new consecutive handles, the five cubes and the bunny; the mesh table is kept; the render system's owned tables and frame counters are kept |
| Engine.Engine.OnMouseEvent | src/rae/Engine.cpp:379-423 | only a first-button press acts; it runs the picking pass, then clears the selection on 0, spawns a random cube entity and a random bunny entity (positions and links) on 13, or selects exactly the picked id; the render system's owned tables and frame counters are kept |
| Engine.Engine.OnKeyEvent | src/rae/Engine.cpp:425-448 | on key press, each hot key does its one thing (Escape stops, G flips the renderer and the ray tracer system's enabled flag, and so on), and every other key or event changes nothing; G changes nothing of the render system but its GL switch |
| Editor.AxisOf | src/rae/editor/EditorSystem.hpp:70-73 | the cast `(Axis)i` is the axis whose index is `i` |
| Editor.Gizmo.constructor | src/rae/editor/EditorSystem.hpp:94-100 | a fresh gizmo is invisible, with no hovered and no active axis |
| Editor.Gizmo.Position | src/rae/editor/EditorSystem.hpp:41 | the getter `position()`; its meaning is stated by `Editor.Gizmo.SetPosition` |
| Editor.Gizmo.SetPosition | src/rae/editor/EditorSystem.hpp:41-42 | `position()` afterwards is the position set |
| Editor.Gizmo.IsVisible | src/rae/editor/EditorSystem.hpp:44 | the getter `isVisible()`; its meaning is stated by `Editor.Gizmo.Show` and `Editor.Gizmo.Hide` |
| Editor.Gizmo.Show | src/rae/editor/EditorSystem.hpp:45 | the gizmo is visible afterwards |
| Editor.Gizmo.Hide | src/rae/editor/EditorSystem.hpp:46 | the gizmo is invisible afterwards |
| Editor.Gizmo.IsHovered | src/rae/editor/EditorSystem.hpp:48-56 | true exactly when some axis is hovered |
| Editor.Gizmo.IsActive | src/rae/editor/EditorSystem.hpp:58-66 | true exactly when some axis is active |
| Editor.Gizmo.GetActiveAxis | src/rae/editor/EditorSystem.hpp:68-75 | the lowest-index active axis |
| Editor.Gizmo.ActivateHovered | src/rae/editor/EditorSystem.hpp:77-83 | the active flags become the hover flags, hovers are kept, and active now means hovered |
| Editor.Gizmo.Deactivate | src/rae/editor/EditorSystem.hpp:85-91 | every active flag is cleared and the hover flags are kept |
| Fx.OpticalFlow.constructor | src/rae_av/fx/OpticalFlow.hpp:75-88 | the node starts in Nothing, without error, at frame 0, with a duration of 2 |
| Fx.OpticalFlow.GetState | src/rae_av/fx/OpticalFlow.hpp:52 | the getter `getState()`; its meaning is stated by `Fx.OpticalFlow.SetState` and the state changes |
| Fx.OpticalFlow.SetMethod | src/rae_av/fx/OpticalFlow.hpp:50 | only the method changes |
| Fx.OpticalFlow.SetState | src/rae_av/fx/OpticalFlow.hpp:69-73 | `getState()` afterwards is the state set, and nothing else changes |
| Fx.OpticalFlow.Reset | src/rae_av/fx/OpticalFlow.hpp:53 | the state becomes Nothing |
| Fx.OpticalFlow.WaitForData | src/rae_av/fx/OpticalFlow.hpp:54 | the state becomes WaitingForData |
| Fx.OpticalFlow.PushFrame | src/rae_av/fx/OpticalFlow.hpp:56 | the node moves to the state the processing leaves, keeping its method |
| Fx.OpticalFlow.Update | src/rae_av/fx/OpticalFlow.hpp:48 | the node moves to the state the processing leaves, keeping its method |
| Pihlaja.Pihlaja.constructor | src/pihlaja/Pihlaja.cpp:24-44 | the UI shows the initial play and frame-update flags, no effect has happened, and the flow node is fresh in Nothing with the default method |
| Pihlaja.Pihlaja.TogglePlay | src/pihlaja/Pihlaja.cpp:46-53 | play flips, the Play button shows the new value, and nothing else changes |
| Pihlaja.Pihlaja.SetNeedsFrameUpdate | src/pihlaja/Pihlaja.cpp:75-82 | the flag and its text box take the value, and a frame update is asked for |
| Pihlaja.Pihlaja.Rewind | src/pihlaja/Pihlaja.cpp:55-73 | without a loaded asset nothing changes; otherwise it seeks to the start, asks for a frame and restarts the count |
| Pihlaja.Pihlaja.OnKeyEvent | src/pihlaja/Pihlaja.cpp:84-118 | on key press: Space toggles play, Home rewinds (seek, ask for a frame and restart the count when an asset is loaded, otherwise nothing), 1 and 2 set the even-frames flag, R and E switch between Player and their render mode and ask for a frame; each key keeps the other fields; other keys and non-press events change nothing |
| Pihlaja.Pihlaja.Update | src/pihlaja/Pihlaja.cpp:126-203 | the play and frame-update gate, the asset checks, the pull-and-count step in each mode, the flow-node dispatch on Processing and Done, and the result `needsFrameUpdate or play`; only the player's pull clears the frame-update flag and its text box, every other branch keeps both |
| Boxes.Grown | src/rae/visual/Box.cpp:22-37 | the grown box contains the point and encloses the old box, and is the old box when the point was inside |
| Boxes.EnclosedPointsStay | src/rae/visual/Box.cpp:24-36 | points of a box stay in any box enclosing it, so growing loses no point |
| Boxes.GrowIdempotent | src/rae/visual/Box.cpp:22-37 | growing twice by the same point is growing once |
| Boxes.GrowIsLeast | src/rae/visual/Box.cpp:22-37 | every box that encloses the old box and holds the point encloses the grown box |
| Boxes.GrowClearedIsPoint | src/rae/visual/Box.cpp:9-14 | growing the cleared box by a finite point gives the box of that point alone |
| Boxes.InitIsTightHull | src/rae/visual/Box.cpp:9-14 | `init(left, right)` contains the four corners and is enclosed by every box that contains them |
| Boxes.Hit | src/rae/visual/Box.cpp:75-83 | reference definition of `hit(vec2)`: the point is within the x and y ranges, bounds included; its meaning is proved by `Boxes.HitIgnoresZ` and `Boxes.HitAfterGrow` |
| Boxes.HitIgnoresZ | src/rae/visual/Box.cpp:75-83 | within the box's z range, `hit(vec2)` is inclusive containment of the lifted point, so z is ignored |
| Boxes.HitAfterGrow | src/rae/visual/Box.cpp:75-83 | after growing by a point, the box hits that point's projection |
| Boxes.Box.Clear | src/rae/visual/Box.cpp:11 | the box becomes the cleared box |
| Boxes.Box.Grow | src/rae/visual/Box.cpp:22-37 | the corners become `Grown` of the old value, which contains the point and encloses the old box |
| Boxes.Box.GrowBox | src/rae/visual/Box.cpp:16-20 | the box is grown by the other box's minimum, then its maximum, and contains both |
| Boxes.Box.Init | src/rae/visual/Box.cpp:9-14 | the box is `InitValue` of the two boxes and contains all four corners |

## Left out

- `Engine::run` (Engine.cpp lines 95-118) is the GLFW event loop, which is windowing I/O. `askForFrameUpdate` is an empty stub; Pihlaja records the call as an effect.
- Engine.cpp lines 299-365 are left out: the window resize forwarding and the mouse and scroll forwarding with their pixel-ratio scaling. They are float arithmetic and calls into the input system.
- `createAddObjectButton` and `createTestWorld` (Engine.cpp lines 200-211 and 264-267) are left out. Nothing in the modelled code calls them.
- The randomness is left out: the random positions of `createRandom*Entity` and the random victim of key O (`getRandomInt`) are parameters.
- The clock is left out: `m_time.initTime`, `m_time.setTime` and `glfwGetTime`. The render system's frame time is the parameter `deltaTime`.
- Connecting the input handlers (Engine.cpp lines 65-67, Pihlaja.cpp line 13) is left out. The handlers are methods called directly.
- The GL work is left out: clearing, viewports, shaders, matrices, `renderMesh`/`renderMeshPicking`, `checkErrors`, the background image, nanovg and the fps text. A draw is recorded as a `Draw` or `PickDraw` value.
- The picking read-back is left out: the window-to-pixel conversion and `glReadPixels` in `onMouseEvent` happen outside the model. The two channels read back are parameters.
- The systems' own work in `destroyEntities`, `defragmentTables`, `render3D`, `render2D` and `onFrameEnd` is left out; each call is recorded as an event only.
- Engine.Engine.Update: a system's `update()` may change only its own enabled flag, as the oracle says. A system that enables or disables another system during the update loop is not modelled.
- Engine.Engine.constructor: assumes that the systems built in the initialiser list (Engine.cpp lines 17-31) create no entity. The handles 1 to 5 of the shared assets and the counter of 12 rest on that. The asset, camera, UI, render and editor systems' sources are not part of this model; the editor's transform tool may need a material of its own.
- Engine.Engine.Update: does not state the render system's frame counter and fps timer after a tick. The render system's per-tick `update` is an abstract call of the scheduler (`Scheduler.System.Update`), and its counting is modelled separately by `Visual.RenderSystem.Update`.
- Engine.Engine.RunPrelude: does not state the render system's frame counter and fps timer either, for the same reason: the update phase it runs contains the render system's abstract update.
- Engine.Engine.constructor: does not state the systems' initial enabled flags. The systems set them through ISystem, which is not part of this model.
- Engine.NewTables: does not state which handles are alive afterwards (all six it creates), only the registry's counter. It starts from an empty registry, under the same assumption as the constructor.
- Engine.Engine.CreateTestWorld2: states the six new handles and that the mesh table is kept, not the positions and colours of the six entities. Drawing of what `createCube` and `createBunny` leave behind is stated by `Engine.CreatedCubeIsDrawn` and `Engine.LinkedEntityIsDrawn`.
- Engine.Engine.CreateCube: its drawing is stated by the lemma `Engine.CreatedCubeIsDrawn` over the resulting scene, not on the method.
- The ray tracer is left out apart from its three display toggles. `clearImageRenderer`, `toggleBufferQuality`, `showScene`, `minusBounces` and `plusBounces` are recorded as `Request`s, because their effects are path tracing, threads and image buffers.
- `RenderSystem::update` is modelled only in part. The UI pass (`m_uiSystem.render`), the fps string, the commented-out 2D rendering and `checkErrors` are left out. `createSphere` and the debug transforms are not modelled.
- Integer width is not modelled: ids are unbounded integers, and the 32-bit overflow of the entity counter is not treated.
- Floats are modelled as reals. The model never rounds.
- `Box::transform` and `Box::hit(Ray)` (Box.cpp lines 39-73) are left out; they use quaternion rotation and float division.
- Boxes.Box.Clear: Box.hpp is not part of this model. The cleared value follows the usual empty-box convention (minimum at +FLT_MAX, maximum at -FLT_MAX). Only `Boxes.GrowClearedIsPoint` and `Boxes.InitIsTightHull` depend on it.
- Boxes.Box.Init: takes `left` and `right` as values. The source takes them by reference after clearing `*this`, so the aliased call `b.init(b, other)` grows from the cleared box; the model grows from `b`'s old corners. That aliased call is not modelled.
- Boxes.Box.constructor: Box.hpp is not part of this model, so a box starts from given corners.
- OpticalFlow.cpp is not part of this model. The processing behind `pushFrame` and `update` is a parameter giving the state the node is left in, and `Fx.OpticalFlow.constructor` assumes that the constructor stores its method.
- Pihlaja.Pihlaja.constructor: Pihlaja.hpp is not part of this model, so the initial field values are parameters. The constructor's registration with the engine, `loadAsset` and the creation of the UI widgets are left out.
- MediaAsset.cpp is left out. Whether the video asset exists and is loaded are fields, and seeking and pulling frames are recorded effects.
- The commented-out HdrFlow version of `Pihlaja::update` is not modelled.
- Sphere.hpp holds only declarations and is not modelled. Mesh.hpp is reduced to the kind of mesh.
- World (`EntitySystem`, `TransformSystem`, `AssetSystem`, `SelectionSystem`): their sources are not part of this model. Each is specified only at the interface the core calls; for example, handles come from a counter.
