# LAIG scene core in Dafny

A model of the rendering core of a WebGL scene viewer. The viewer reads a
scene file into components, materials, textures, lights and primitives and
then draws the graph every frame. The model covers three parts:

- **The scene** (`scene.dfy`, `scene_graph.dfy`, `lights.dfy`). This is class
  `Scene.Scene`, the state of `MyScene`. It holds a symbolic model-view
  matrix, a matrix stack, a trace of renderer calls, the material, texture
  and primitive tables, and eight hardware light slots in an array.
  - `Traverser` walks the component tree depth-first. At each component it
    pushes the matrix, multiplies in the component's transformation and
    resolves material and texture against the inherited ones. It then
    attaches the texture to the material, applies the material, visits the
    children in order and pops.
  - The walk is proved to emit exactly the events of the pure function
    `SceneGraph.Visit`. The laws of the traversal are proved about `Visit`.
    They cover balanced pushes and pops, pre-order drawing and when a
    material or a "none" texture holds over a subtree. A replay of the
    trace against the renderer's bound material and texture
    (`SceneGraph.DrawCalls`) shows which appearance each primitive is drawn
    with.
  - `InitLights` hands slots to omni lights. It is proved against
    `Lights.Allocated` and `Lights.Assigned`.
- **The primitive factory** (`primitives.dfy`). `Primitives.Build` is a
  closed dispatch from a figure's kind tag to the geometry constructor it
  selects and the data fields it forwards. An unknown tag is an error.
- **The `<materials>` block** (`materials.dfy`). It is a first-error-wins
  validator. `Materials.LoadAsWritten` specifies it as the code reads, and
  the constructor of `Materials.MaterialsBlock` implements it as a loop.
  `Materials.Load` is the intended reading (see Findings).

Each appearance's emission is set from (r, g, g, a) of the material's
emission (MyScene.js line 176): blue takes the green value. The parsed
`emission.b` is never read, and the sibling colours on lines 177-179 pass
r, g, b, a, so blue was evidently meant. The model reproduces (r, g, g, a)
as written (`Scene.AppearanceOf`) and defines no corrected reading.

Transforms are symbolic: a matrix is the list of translate, rotate and scale
operations applied since the view matrix. The renderer's calls are events
in `Scene.Scene.trace`.

The scene's methods and the materials block follow the code as written.
Where the code evidently does not do what was meant, the intended behaviour
is defined beside it and its property proved (see Findings):

- **Materials leak to later siblings.** The comments around the traversal
  speak of a "Material & Texture Stack" pushed and popped with the matrix,
  but only the matrix is saved. A component's material is applied once,
  before its children. When a child component applies its own material,
  nothing re-applies the parent's afterwards, so a primitive listed after
  that child is drawn with the child's material
  (`SceneGraph.MaterialLeaksToLaterSibling`). `SceneGraph.VisitRestoring`
  is the intended traversal, which restores the component's appearance after
  each child component (`SceneGraph.RestoredDrawsOwned`).
- **Inherited object properties count as stored ids.** The materials block's
  repeated-id check rejects a first material named like a property every
  plain JavaScript object inherits (`Materials.PrototypeIdRejectedAsWritten`).
## Model

| member | source | states |
|---|---|---|
| Primitives.ParseKind | elements/buildPrimitive.js:7-107 | a tag is recognised exactly when it is one of the case labels, and the recognised kind's literal tag is the input |
| Primitives.ConstructPlanar | elements/buildPrimitive.js:9-20 | each planar case builds a handle of its own kind whose arguments are the data fields that case forwards |
| Primitives.ConstructSpatial | elements/buildPrimitive.js:23-38 | each spatial case builds a handle of its own kind whose arguments are the data fields that case forwards |
| Primitives.ConstructCurve | elements/buildPrimitive.js:41-48 | each curve case builds a polygon of its own kind over its curve, with the curve's parameters and the sample count |
| Primitives.Proto | elements/buildPrimitive.js:51-104 | each surface case hands the surface constructor its own parametric function with that function's data fields |
| Primitives.ConstructSurface | elements/buildPrimitive.js:51-104 | each surface case builds a surface of its own kind forwarding its parameters followed by slices and stacks |
| Primitives.Build | elements/buildPrimitive.js:1-109 | success exactly for a recognised tag; the handle's kind has that tag and its arguments are exactly the forwarded fields; an unknown tag fails with the fixed message followed by the tag |
| Primitives.UnknownKindNamedInError | elements/buildPrimitive.js:106-107 | an unrecognised type always fails, whatever the data, and the message ends with the type |
| Primitives.TriangleFallback | elements/buildPrimitive.js:15-16 | "triangle" yields Triangle(1) for every data map and forwards no field |
| Primitives.RectangleFallback | elements/buildPrimitive.js:17-18 | "rectangle" yields Rectangle(2, 3) for every data map and forwards no field |
| Primitives.SurfaceDispatch | elements/buildPrimitive.js:51-104 | crossedtrough and cayley yield a z-surface, every other surface tag a uv-surface, and all forward slices and stacks |
| Primitives.CurveDispatch | elements/buildPrimitive.js:41-48 | folium yields an r-polygon, heart, butterfly and hypocycloid a t-polygon, and all forward samples |
| Primitives.SpatialForwarding | elements/buildPrimitive.js:23-38 | cone and cylinder forward radius, height, slices and stacks; pyramid and prism sides, radius, height and stacks; sphere and halfsphere radius, slices and stacks |
| Primitives.BuildReadsOnlyForwardedFields | elements/buildPrimitive.js:1-109 | two figures with the same type that agree on the fields that type forwards build the same handle; two figures with the same unknown type fail with the same error, whatever their data |
| Primitives.PlanarReadsOnlyForwardedFields | elements/buildPrimitive.js:9-20 | a planar case depends only on the fields it forwards |
| Primitives.SpatialReadsOnlyForwardedFields | elements/buildPrimitive.js:23-38 | a spatial case depends only on the fields it forwards |
| Primitives.CurveReadsOnlyForwardedFields | elements/buildPrimitive.js:41-48 | a curve case depends only on the fields it forwards |
| Primitives.SurfaceReadsOnlyForwardedFields | elements/buildPrimitive.js:51-104 | a surface case depends only on the fields it forwards |
| Materials.StepOutcome | elements/materials.js:28-50 | `Step`, reading one child: it is accepted exactly when it is a valid `<material>` whose id is neither stored nor reserved, and then it is stored under its id; a rejected child leaves the table as it was |
| Materials.Scan | elements/materials.js:24-51 | reading the children in order, with a given set of ids the repeated-id check finds present from the start, stores at most one entry per child |
| Materials.ScanSkipsReserved | elements/materials.js:44-50 | no reading ever stores an id its repeated-id check finds present from the start |
| Materials.ScanFirstErrorWins | elements/materials.js:24-51 | once reading has failed, further children change neither the table nor the error, for either reading |
| Materials.ScanStopsAt | elements/materials.js:24-51 | a read that first fails at child k ends with that child's rejection and the entries of children 0..k-1, and no later child is examined, for either reading |
| Materials.ScanBadChildStops | elements/materials.js:28-33 | a child that is not a `<material>` stops the read with the bad-child error and message, keeping the earlier entries, for either reading |
| Materials.ScanInvalidChildPropagates | elements/materials.js:36-40 | a material that does not validate stops the read with its own error and message, keeping the earlier entries, for either reading |
| Materials.ScanReservedIdStops | elements/materials.js:42-48 | a valid material whose id the check finds present from the start stops the read with the repeated-id error, keeping the earlier entries |
| Materials.ScanRepeatedIdKeepsFirst | elements/materials.js:42-48 | a material whose id an earlier accepted child used stops the read with the repeated-id error, and the table still holds the earlier material, for either reading |
| Materials.ScanAcceptableLoads | elements/materials.js:24-51 | children that are all valid materials with distinct ids, none found present from the start, load without error, and the table's keys are exactly their ids |
| Materials.ScanLoadedIsAcceptable | elements/materials.js:24-51 | a read without error means every child was a valid material, no two shared an id and none was found present from the start |
| Materials.ScanSucceedsIff | elements/materials.js:24-51 | reading succeeds if and only if every child is a valid material, the ids are distinct and none is found present from the start |
| Materials.ScanContents | elements/materials.js:42-50 | after a successful read each child's values are stored under its own id |
| Materials.ScanSize | elements/materials.js:24-51 | after a successful read the table holds exactly one entry per child |
| Materials.Load | elements/materials.js:24-51 | the intended reading, in which only ids stored by earlier children count as repeated, stores at most one entry per child |
| Materials.LoadFirstErrorWins | elements/materials.js:24-51 | intended reading: once reading has failed, further children change neither the table nor the error |
| Materials.StopsAt | elements/materials.js:24-51 | intended reading: a read that first fails at child k ends with that child's rejection and the entries of children 0..k-1 |
| Materials.BadChildStops | elements/materials.js:28-33 | intended reading: a child that is not a `<material>` stops the read with the bad-child error and message, keeping the earlier entries |
| Materials.InvalidChildPropagates | elements/materials.js:36-40 | intended reading: a material that does not validate stops the read with its own error and message, keeping the earlier entries |
| Materials.RepeatedIdKeepsFirst | elements/materials.js:42-48 | intended reading: a material whose id an earlier accepted child used stops the read with the repeated-id error, and the table still holds the earlier material |
| Materials.WellFormedLoads | elements/materials.js:24-51 | intended reading: children that are all valid materials with distinct ids load without error, and the table's keys are exactly their ids (as written, an id such as "constructor" is rejected instead) |
| Materials.LoadedIsWellFormed | elements/materials.js:24-51 | intended reading: a read without error means every child was a valid material and no two shared an id |
| Materials.LoadSucceedsIff | elements/materials.js:24-51 | intended reading: reading succeeds if and only if every child is a valid material and the ids are distinct |
| Materials.LoadContents | elements/materials.js:42-50 | intended reading: after a successful read each child's values are stored under its own id (as written, an id such as "constructor" is rejected instead) |
| Materials.LoadSize | elements/materials.js:24-51 | intended reading: after a successful read the table holds exactly one entry per child (as written, an id such as "constructor" is rejected instead) |
| Materials.LoadAsWritten | elements/materials.js:24-51 | the reading of the code, whose repeated-id check also finds inherited object properties, stores at most one entry per child |
| Materials.AsWrittenSkipsPrototypeNames | elements/materials.js:44-50 | as the code reads, no inherited object property name (such as "constructor") is ever stored as a material id |
| Materials.AsWrittenFirstErrorWins | elements/materials.js:24-51 | as written: once reading has failed, further children change neither the table nor the error |
| Materials.AsWrittenStopsAt | elements/materials.js:24-51 | as written: a read that first fails at child k ends with that child's rejection and the entries of children 0..k-1 |
| Materials.AsWrittenBadChildStops | elements/materials.js:28-33 | as written: a child that is not a `<material>` stops the read with the bad-child error and message, keeping the earlier entries |
| Materials.AsWrittenInvalidChildPropagates | elements/materials.js:36-40 | as written: a material that does not validate stops the read with its own error and message, keeping the earlier entries |
| Materials.AsWrittenRepeatedIdKeepsFirst | elements/materials.js:42-48 | as written: a material whose id an earlier accepted child used stops the read with the repeated-id error, and the table still holds the earlier material |
| Materials.AsWrittenPrototypeIdStops | elements/materials.js:42-48 | as written: a valid material named like an inherited object property stops the read with the repeated-id error wherever it stands, keeping the earlier entries |
| Materials.AsWrittenSucceedsIff | elements/materials.js:24-51 | as written: reading succeeds if and only if every child is a valid material, the ids are distinct and none is an inherited object property name |
| Materials.AsWrittenContents | elements/materials.js:42-50 | as written: after a read of such children each child's values are stored under its own id, one entry per child |
| Materials.AsWrittenAgreesOffPrototypeNames | elements/materials.js:44 | when no id is an inherited object property name, the block as written reads exactly like the intended one |
| Materials.PrototypeIdRejectedAsWritten | elements/materials.js:44-48 | a single valid material with id "constructor" is rejected as repeated as written, and stored by the intended reading |
| Materials.MaterialsBlock.constructor | elements/materials.js:15-53 | the loop, with the repeated-id test of line 44 as written, ends with the table, error and message of `LoadAsWritten` on the children |
| SceneGraph.MatrixOpOf | core/MyScene.js:213-230 | an operation maps to a matrix operation exactly when its type is translate, rotate or scale; translate and scale pass x, y, z; rotate passes the angle and sets exactly the flag of its axis |
| SceneGraph.MatrixOps | core/MyScene.js:210-231 | a list of operations makes at most one renderer call per operation, and exactly one per operation when every type is known |
| SceneGraph.MatrixOpsAppend | core/MyScene.js:213-230 | the operations of a concatenation are the operations of each part, in order |
| SceneGraph.UnknownOperationIgnored | core/MyScene.js:216-229 | inserting an operation of an unknown type anywhere changes nothing |
| SceneGraph.MatrixOpsCount | core/MyScene.js:213-230 | exactly one matrix operation is applied per operation of a known type |
| SceneGraph.LocalOps | core/MyScene.js:306-310 | "reference" applies the referenced transformation, "immediate" the inline one, any other mode nothing |
| SceneGraph.ResolveMaterial | core/MyScene.js:313-315 | "reference" selects the slot's material, any other mode keeps the inherited one |
| SceneGraph.ResolveTexture | core/MyScene.js:318-322 | "none" clears the texture whatever was inherited, "reference" selects the loaded texture (undefined if absent, with inherited object property names treated as absent), any other mode keeps the inherited one |
| SceneGraph.Visit | core/MyScene.js:296-340 | the events of one traversal of a component begin with its push and end with its pop |
| SceneGraph.VisitFrom | core/MyScene.js:329-336 | the children from position i on emit at least one event each |
| SceneGraph.VisitBalanced | core/MyScene.js:303-339 | a traversal performs as many pushes as pops, one of each per component visited |
| SceneGraph.VisitFromBalanced | core/MyScene.js:329-336 | the children from position i on perform one push and one pop per component below them |
| SceneGraph.VisitOrder | core/MyScene.js:303-339 | a traversal starts with the push, then attaches the resolved texture to the resolved material and applies it, before any child; the pop comes last |
| SceneGraph.VisitDrawsPreOrder | core/MyScene.js:296-340 | the primitives drawn are the depth-first pre-order of primitive references, each with the transforms of its ancestors in order |
| SceneGraph.VisitFromDrawsPreOrder | core/MyScene.js:329-336 | the children from position i on draw the pre-order of their primitive references |
| SceneGraph.Step | core/MyScene.js:325-326 | attaching a texture records it on the material and leaves the bound material and texture alone; applying a material binds it with the texture last attached to it (none if never attached) and keeps the attachments; pushes, pops and draws change nothing |
| SceneGraph.DrawCalls | core/MyScene.js:325-334 | a replay makes one draw call per draw of the trace |
| SceneGraph.DrawCallsFollowPlacements | core/MyScene.js:329-336 | a replay draws exactly the primitives of the trace under their transforms, in order, whatever state it starts from |
| SceneGraph.ReplayAppend | core/MyScene.js:325-326 | replaying two traces in sequence is replaying their concatenation |
| SceneGraph.UniformMaterial | core/MyScene.js:313-332 | when no component below overrides the material, every primitive of the subtree is drawn with the material the top component resolves |
| SceneGraph.UniformMaterialFrom | core/MyScene.js:329-336 | the same for the children from position i on, given that the inherited material is bound |
| SceneGraph.NoneTextureSubtree | core/MyScene.js:318-332 | below a "none" texture slot, and with no texture reference further down, every primitive is drawn untextured whatever the ancestors set |
| SceneGraph.NoneTextureFrom | core/MyScene.js:329-336 | the same for the children from position i on, given that no texture is bound |
| SceneGraph.MaterialLeaksToLaterSibling | core/MyScene.js:325-336 | a primitive listed after a child component that set material B is drawn with B, although its parent set A |
| SceneGraph.RestoredDrawsOwned | core/MyScene.js:302-339 | in the intended traversal, which restores a component's appearance after each child component, every primitive is drawn with the material and texture its own component resolves, in pre-order |
| SceneGraph.RestoredDrawsOwnedFrom | core/MyScene.js:329-336 | the same for the children from position i on, given that the component's material and texture are bound |
| SceneGraph.RestoringKeepsParentMaterial | core/MyScene.js:302-339 | on the graph that shows the leak, the intended traversal draws the later sibling with the parent's material A |
| Lights.SlotOf | core/MyScene.js:114-136 | a configured slot takes the light's location and the visibility flag, and is enabled exactly when the light is |
| Lights.Allocated | core/MyScene.js:104-144 | at most eight slots are written |
| Lights.Assigned | core/MyScene.js:104-144 | an index is recorded only on lights of the list, and every index is a slot number below eight |
| Lights.AllocatedAreFirstOmni | core/MyScene.js:104-144 | the slots written are exactly the first eight omni lights in order (all of them if fewer), each with its own values, the fixed attenuations, and enabled exactly when the light is |
| Lights.AllocatedLength | core/MyScene.js:104-144 | how many slots are written does not depend on the visibility flag |
| Lights.AssignedIndices | core/MyScene.js:104-144 | a light receives an index exactly when it is omni and fewer than eight omni lights precede it, and the index is their number, so omni lights get 0, 1, 2, ... and other lights consume none |
| Lights.AllocateStep | core/MyScene.js:109-140 | reading one more light either skips it or writes the next slot and records its index |
| Lights.AllocationSaturates | core/MyScene.js:109 | once eight slots are written the remaining lights change nothing |
| Primitives.Construct | elements/buildPrimitive.js:7-104 | the case of each kind builds a handle of that kind whose arguments are the fields the kind forwards |
| Scene.AppearanceOf | core/MyScene.js:173-179 | an appearance takes the material's shininess, ambient, diffuse and specular, and an emission of red, green, green and alpha |
| Scene.Scene.MultMatrix | core/MyScene.js:218-227 | one translate, rotate or scale is multiplied into the current matrix |
| Scene.Scene.constructor | core/MyScene.js:11-41 | a new scene has no camera pending, no view selected, nothing loaded, the graph not loaded and eight untouched light slots |
| Scene.Scene.PushMatrix | core/MyScene.js:303 | the current matrix is saved on top of the stack |
| Scene.Scene.PopMatrix | core/MyScene.js:339 | the top of the stack becomes the current matrix and is removed |
| Scene.Scene.ApplyTransformation | core/MyScene.js:210-231 | the matrix is multiplied by exactly the matrix operations of the operation list, in order |
| Scene.Scene.ClearMatrixStack | core/MyScene.js:233-238 | the stack ends empty, and a warning is issued exactly when it was not empty |
| Scene.Scene.DrawPrimitive | core/MyScene.js:334 | one draw of that primitive under the current matrix is emitted |
| Scene.Scene.ApplyLocalTransformation | core/MyScene.js:306-310 | the matrix is multiplied by the component's transformation slot's operations |
| Scene.Scene.ApplyAppearance | core/MyScene.js:313-326 | the resolved material and texture are returned, the texture is attached to the material and the material applied |
| Scene.Scene.Traverser | core/MyScene.js:296-340 | the renderer calls are exactly the traversal's events, and the matrix and the stack are left as they were |
| Scene.Scene.TraverseChildren | core/MyScene.js:329-336 | the children are visited in declaration order, components recursively and primitives drawn, leaving matrix and stack unchanged |
| Scene.Scene.TraverseGraph | core/MyScene.js:292-294 | the graph is traversed from the root with no material and a null texture, leaving matrix and stack unchanged |
| Scene.Scene.InitViews | core/MyScene.js:81-87 | the default view is selected and marked to be applied |
| Scene.Scene.InitLights | core/MyScene.js:101-145 | the slots written are `Lights.Allocated`, the slots after them are untouched, and the returned indices are `Lights.Assigned` |
| Scene.Scene.InitTextures | core/MyScene.js:147-157 | there is exactly one texture per texture id, loaded from that texture's file |
| Scene.Scene.InitMaterials | core/MyScene.js:159-181 | exactly one appearance per material id, built from that material's values, with the emission's blue taken from its green |
| Scene.Scene.InitPrimitives | core/MyScene.js:183-193 | loading succeeds exactly when every figure builds, and then there is exactly one primitive per id, namely the one built; a failure reports the error of some figure that does not build |
| Scene.Scene.OnGraphLoaded | core/MyScene.js:56-72 | the default view is selected, the lights are allocated, each texture and material id gets its texture and appearance, and the graph-loaded gate opens exactly when every primitive builds, in which case the primitive table is exactly the built one |
| Scene.Scene.Presetup | core/MyScene.js:240-246 | a pending view is applied once and the pending flag cleared; without one nothing changes |
| Scene.Scene.Display | core/MyScene.js:253-290 | a frame applies a pending view (and otherwise keeps the camera), empties the stack, starts from the view matrix, and emits a push, the graph's traversal only once the graph is loaded, then a pop |

## Left out

- The WebGL and CGF renderer calls are left out: clearing, viewport, projection, axis and overlay display, and light `update()`. They are foreign calls with no visible code. Texture attachment, material application, draws and matrix pushes and pops are trace events.
- Matrix arithmetic is left out. A matrix is the list of operations multiplied in. `Rotate` keeps the angle in degrees, because `degToRad` is a floating-point product.
- `applyViewMatrix` is not modelled. Each frame's traversal starts from the empty operation list, which stands for the view matrix.
- `setCamera`'s position and target vectors are not modelled. Applying a view records its id in `cameraView`.
- `initAxis`, `initAmbient` and `updateLights` are left out. They only forward values to the renderer.
- The geometry classes and the `proto*` and `interval*` functions are not part of this model. A primitive handle names its constructor and its arguments.
- `XMLElement`, `XMLGroup` and the base validation of `XMLMaterial` are not part of this model. A child's own validation is given as an input, valid with its values or invalid with its error and message. The numeric parse error codes are not part of this model either.
- Asynchronous loading is left out. `OnGraphLoaded` is one call with the parsed scene file's contents as parameters.
- Console output is left out, except that `ClearMatrixStack` returns whether it would warn.
- Scene.Scene.InitLights: assumes `LIGHTS_VISIBLE` is declared in a file not part of this model, and takes its value as a parameter. The globals file (core/globals.js) declares `ENABLED_LIGHTS_VISIBLE` and `DISABLED_LIGHTS_VISIBLE` but no `LIGHTS_VISIBLE`. Without a declaration, the first omni light throws a ReferenceError at MyScene.js line 123, after slot 0 got its position and colours, and loading stops before the graph-loaded gate opens.
- JavaScript property order is left out. Lights are a sequence in iteration order. Textures, materials and primitives are maps whose fill order is left open.
- Scene.Scene.InitPrimitives: when several figures have unknown types, the contract does not say which error is reported, because JavaScript's key order is not modelled.
- SceneGraph.MaterialSlot: only the first entry of a component's material list is modelled, because the traversal reads no other. The model assumes the list is not empty; on an empty list the source throws a TypeError when it reads the mode (MyScene.js line 313).
- SceneGraph.ResolveTexture: a referenced texture id that is the name of an inherited object property (such as "constructor") yields `UndefinedTexture` in the model; the source's lookup on a plain object returns the inherited property instead.
- JavaScript truthiness is reduced to booleans (`enabled`) and to the resolution modes as strings.
- Scene.Scene.Traverser: its precondition `Renderable` excludes the crashes of the source. These are a resolved material that is absent or null (the root inherits none), and a primitive id that was not loaded. The source throws a TypeError in both cases.
- Scene.Scene.PopMatrix: popping an empty stack is excluded by a precondition. Every push in the model is matched by a pop.
- Cycles in the component graph are not modelled. Components form a finite tree, so every traversal ends. The source would recurse without bound.

## Findings

| source | as written | input that shows it | evidently intended | confidence | as-written member | corrected member |
|---|---|---|---|---|---|---|
| core/MyScene.js:302-339 | only the matrix is pushed and popped, although the comments speak of a material and texture stack; after a child component returns, the parent's appearance is not applied again | a component with material A whose children are a component with material B over primitive p, then primitive q: q is drawn with B | a primitive is drawn with the appearance its own component resolves | not executed | SceneGraph.MaterialLeaksToLaterSibling | SceneGraph.RestoredDrawsOwned |
| elements/materials.js:44 | the repeated-id check looks the id up on a plain object with `!= undefined`, which also finds inherited properties such as `constructor` or `toString` | a `<materials>` block whose only child is a valid material with id "constructor" is rejected as "Repeated child id" | an id counts as repeated only if an earlier child stored it | not executed | Materials.PrototypeIdRejectedAsWritten | Materials.LoadSucceedsIff |
