# Ironhold renderer bookkeeping, modelled in Dafny

This project models the CPU-side bookkeeping around the Ironhold engine's renderer and proves properties about it. It covers:

- **The shared GPU records** (`EngineTypes`, crates/engine_types). The camera uniform, mesh vertex, 2D transform, sprite, instance and 3D transform records are `repr(C)` records made only of `f32` fields. Each has a memory image made of 32-bit words and a byte size; the vertex and instance records also have a decoder back from that image. The byte sizes feed the buffer arithmetic. `MeshData` is an ordinary struct of two vectors (vertices and `u32` indices) and has no image.
- **The GUI/mesh pipeline** (`GuiPipeline`, crates/engine_render/src/gui_pipeline.rs). This covers buffer capacity growth (`ensure_vertex_capacity`, `ensure_index_capacity`), the fields that `new` sets, the commands `draw` records into a render pass, and the aspect-ratio choice in `update_camera`. GPU objects are opaque handles. A buffer keeps only its size, and growth allocates a fresh buffer without copying anything.
- **The scene projections** (`WasmHelpers`, crates/engine_wasm_api/src/helpers.rs):
  - `scene_to_instances` is an order-preserving filter/map into instance records.
  - `scene_to_meshes` is a loop that collects one placeholder mesh per mesh entity.
- **The placeholder mesh loader** (`MeshLoader`, `load_mesh_stub` in crates/engine_assets/src/mesh_loader.rs).
- **The engine app** (`EngineCore`, crates/engine_core). It has a mode (Edit or Play), and `update` runs exactly one of two opaque schedules.
- **The host-facing shell** (`WasmApi`, crates/engine_wasm_api/src/lib.rs). This covers the options builder, `init`, `mount`, `tick`, `load_scene_from_ron` and `set_play_mode`.

`f32` values are kept as bit patterns (`F32(bits: bv32)`) and are only ever copied. Three foreign computations are passed in as function parameters:
- degree-to-radian conversion;
- the perspective matrix;
- RON parsing.

The browser's canvas lookup is also a parameter.

Points where the code's behaviour is easy to misread, and which the model follows as written:
- **The growth exponent.** `ensure_vertex_capacity` and `ensure_index_capacity` (crates/engine_render/src/gui_pipeline.rs:181-184) start from `current.max(64) * 2`, so a growing buffer is always doubled at least once: the new size is `max(c, 64) * 2^k` for the smallest `k >= 1` that covers the need, never `k = 0` (`GrowthLaw`).
- **Entities with a transform but no sprite.** `scene_to_instances` calls `expect` on the sprite (crates/engine_wasm_api/src/helpers.rs:26), so such an entity panics rather than being skipped. The model makes this a precondition (`Projectable`). Only entities without a transform are skipped.
- **No surface manager, frame loop or instance buffer.** crates/engine_render and crates/engine_wasm_api have no surface-recovery state machine, no cancellable frame loop with a `running` flag, and no instance-storage buffer with bind-group regeneration; `start` schedules nothing. None of these are modelled.
- **`load_scene_from_ron` keeps no scene.** It parses the text and drops the result (crates/engine_wasm_api/src/lib.rs:77-80), so loading never changes engine state.

## Model

| member | source | states |
|---|---|---|
| EngineTypes.CameraWords | crates/engine_types/src/lib.rs:10-12 | a camera uniform is exactly 16 f32 (64 bytes), a 4x4 matrix |
| EngineTypes.VertexWords | crates/engine_types/src/lib.rs:17-21 | a mesh vertex is position(3) + normal(3) + uv(2) = 8 f32 = 32 bytes |
| EngineTypes.TransformWords | crates/engine_types/src/lib.rs:25-28 | a 2D transform record is 2 x 4 f32 = 32 bytes |
| EngineTypes.SpriteWords | crates/engine_types/src/lib.rs:32-35 | a sprite record is 2 x 4 f32 = 32 bytes |
| EngineTypes.InstanceWords | crates/engine_types/src/lib.rs:39-42 | an instance record is the transform image followed by the sprite image: 16 f32 = 64 bytes, with no extra field |
| EngineTypes.Transform3DWords | crates/engine_types/src/lib.rs:46-49 | a 3D transform is 8 + 4 f32 = 48 bytes |
| EngineTypes.CastVertices | crates/engine_types/src/lib.rs:17-21 | casting a vertex slice gives 8 words per vertex, vertex i's image at words 8i..8i+8, so its byte length is count x size_of MeshVertex |
| EngineTypes.VertexFromWords | crates/engine_types/src/lib.rs:17-21 | any 8-word image decodes to a vertex whose image is that same 8 words |
| EngineTypes.InstanceFromWords | crates/engine_types/src/lib.rs:39-42 | any 16-word image decodes to an instance whose image is that same 16 words |
| EngineTypes.VertexRoundTrip | crates/engine_types/src/lib.rs:17-21 | decoding a vertex's image gives back the vertex |
| EngineTypes.InstanceRoundTrip | crates/engine_types/src/lib.rs:39-42 | decoding an instance's image gives back the instance |
| MeshLoader.LoadMeshStub | crates/engine_assets/src/mesh_loader.rs:14-28 | None iff the entity has no mesh; otherwise 3 vertices, indices [0, 1, 2], every index below the vertex count, every normal (0, 0, 1) |
| MeshLoader.LoadMeshStubDependsOnlyOnMeshPresence | crates/engine_assets/src/mesh_loader.rs:14-28 | two entities that agree on whether a mesh is present get the same result, whatever their other fields |
| WasmHelpers.SelectedIndices | crates/engine_wasm_api/src/helpers.rs:16-19 | the positions kept by the filter: increasing, in range, satisfying the predicate, and including every position that satisfies it |
| WasmHelpers.InstanceLayout | crates/engine_wasm_api/src/helpers.rs:20-61 | in a record's image: position in slots 0-1, to_radians(rotation) in slot 2 (applied once), scale in slots 4-5, dimensions in slots 8-9, colour in RGBA order in slots 12-15, every padding slot zero |
| WasmHelpers.InstancesFollowSceneOrder | crates/engine_wasm_api/src/helpers.rs:15-64 | one record per entity that has a transform; the k-th record is that of the k-th such entity in scene order |
| WasmHelpers.InstancesOfConcat | crates/engine_wasm_api/src/helpers.rs:15-64 | projecting two entity lists back to back gives their projections back to back |
| WasmHelpers.SceneToInstances | crates/engine_wasm_api/src/helpers.rs:15-64 | when no entity has a transform without a sprite, the result has one record per entity with a transform, in scene order, each built from that entity |
| WasmHelpers.MeshesOneStubPerMeshEntity | crates/engine_wasm_api/src/helpers.rs:68-82 | the collected meshes number exactly the mesh entities, and each is the placeholder triangle |
| WasmHelpers.SceneToMeshes | crates/engine_wasm_api/src/helpers.rs:68-82 | the loop returns one placeholder triangle per mesh entity, in scene order, and never reaches the "could not be loaded" warning |
| GuiPipeline.DoubleUntilFirstCover | crates/engine_render/src/gui_pipeline.rs:182-184 | the doubling loop ends at size x 2^j for the first j that covers the need |
| GuiPipeline.GrowthLaw | crates/engine_render/src/gui_pipeline.rs:180-184 | on growth the new size is max(current, 64) x 2^k for the smallest k >= 1 that covers the need |
| GuiPipeline.GrownSizeCovers | crates/engine_render/src/gui_pipeline.rs:180-190 | after an ensure call the size covers the need and never decreases, and it is unchanged when the buffer already fits |
| GuiPipeline.GrowthIsTight | crates/engine_render/src/gui_pipeline.rs:181-184 | growth strictly increases the size; with one doubling it is 2 x max(current, 64); with more it is below 2 x the need |
| GuiPipeline.GrownSizeIdempotent | crates/engine_render/src/gui_pipeline.rs:180 | a second ensure call for the same need leaves the size alone |
| GuiPipeline.GrownSizeFitsU64 | crates/engine_render/src/gui_pipeline.rs:178-184 | while the need is at most 2^63 bytes, the u64 doubling arithmetic cannot overflow |
| GuiPipeline.CapacityCoversEveryNeed | crates/engine_render/src/gui_pipeline.rs:177-209 | over any series of ensure calls the size never decreases and covers every need seen so far |
| GuiPipeline.VertexLayoutMatchesMeshVertex | crates/engine_render/src/gui_pipeline.rs:94-114 | attributes at offsets 0/12/24 lie inside the 32-byte stride, do not overlap, and read exactly position, normal and uv |
| GuiPipeline.AppendCommand | crates/engine_render/src/gui_pipeline.rs:156-162 | proof step for `draw`, not source behaviour of its own: recording one command changes the pass's bindings by that command alone, and the pass stays valid iff that command, if it is a draw, is allowed under the bindings so far |
| GuiPipeline.DrawCommandsKeepPassValid | crates/engine_render/src/gui_pipeline.rs:156-162 | the five draw commands keep a valid pass valid: the draw sees a pipeline, bind group 0, vertex slot 0, and an index buffer covering 0..index_count |
| GuiPipeline.AspectFor | crates/engine_render/src/gui_pipeline.rs:165-169 | width/height is used iff both are positive (then the denominator is nonzero); otherwise 16:9 |
| GuiPipeline.GuiPipeline.constructor | crates/engine_render/src/gui_pipeline.rs:37-53 | fresh buffers sized exactly to their contents; the camera bind group binds the camera buffer; index_count is the number of indices, truncated to u32 (line 152) |
| GuiPipeline.GuiPipeline.Draw | crates/engine_render/src/gui_pipeline.rs:156-162 | records set pipeline, bind group 0, vertex slot 0, Uint32 index buffer, then one draw over 0..index_count with one instance; a valid pass stays valid |
| GuiPipeline.GuiPipeline.UpdateCamera | crates/engine_render/src/gui_pipeline.rs:164-175 | writes the perspective for the chosen aspect at offset 0 of the camera buffer, and the write fits in that buffer |
| GuiPipeline.GuiPipeline.EnsureVertexCapacity | crates/engine_render/src/gui_pipeline.rs:177-192 | the needed bytes are vertex count x 32; the vertex buffer ends at GrownSize of its old size; it is replaced by a fresh buffer only when too small; no other field changes |
| GuiPipeline.GuiPipeline.EnsureIndexCapacity | crates/engine_render/src/gui_pipeline.rs:194-209 | the needed bytes are index count x 4; the index buffer ends at GrownSize of its old size; it is replaced only when too small; index_count and every other field are unchanged |
| EngineCore.EngineApp.Default | crates/engine_core/src/lib.rs:14-23 | a default app starts in Edit with a fresh world, two distinct fresh schedules, and nothing run yet |
| EngineCore.EngineApp.Update | crates/engine_core/src/lib.rs:26-31 | exactly one schedule runs: the edit schedule iff the mode is Edit, the play schedule iff it is Play; the mode is unchanged |
| EngineCore.SetMode | crates/engine_core/src/lib.rs:34 | sets the mode to its argument and changes no other field |
| EngineCore.SetModeTwice | crates/engine_core/src/lib.rs:34 | setting the same mode twice leaves the state the first call left |
| WasmApi.NewOptions | crates/engine_wasm_api/src/lib.rs:25-27 | no canvas id, no asset URL, 2D and 3D enabled |
| WasmApi.WithCanvasId | crates/engine_wasm_api/src/lib.rs:28 | sets the canvas id and keeps the other three fields |
| WasmApi.WithAssetsBaseUrl | crates/engine_wasm_api/src/lib.rs:29 | sets the asset URL and keeps the other three fields |
| WasmApi.WithEnable2d | crates/engine_wasm_api/src/lib.rs:30 | sets the 2D flag and keeps the other three fields |
| WasmApi.WithEnable3d | crates/engine_wasm_api/src/lib.rs:31 | sets the 3D flag and keeps the other three fields |
| WasmApi.ModeFor | crates/engine_wasm_api/src/lib.rs:82 | true maps to Play and false to Edit |
| WasmApi.Init | crates/engine_wasm_api/src/lib.rs:35-48 | without a canvas id no canvas is bound; with one, a failed lookup returns that step's error and a found canvas is bound; the app is a fresh default one in Edit, with a fresh world and two fresh schedules and no runs yet |
| WasmApi.Engine.Mount | crates/engine_wasm_api/src/lib.rs:52-58 | fails with "no canvas bound" iff no canvas is bound, and changes nothing |
| WasmApi.Engine.Tick | crates/engine_wasm_api/src/lib.rs:75 | ignores dt and runs exactly one update under the current mode |
| WasmApi.Engine.LoadSceneFromRon | crates/engine_wasm_api/src/lib.rs:77-80 | fails iff parsing fails, with the parser's message; engine state is unchanged either way |
| WasmApi.Engine.SetPlayMode | crates/engine_wasm_api/src/lib.rs:82 | sets the mode to Play for true and Edit for false, and changes nothing else |
| WasmApi.InitWithoutCanvasCannotMount | crates/engine_wasm_api/src/lib.rs:38-58 | an engine built from default options is in Edit mode, and mounting it fails |
| WasmApi.InitThenTickThroughModes | crates/engine_wasm_api/src/lib.rs:46-82 | an engine fresh from `init` can be ticked at once; tick, `set_play_mode(true)`, tick, `set_play_mode(false)`, tick runs the edit, play and edit schedules in that order and ends in Edit |

## Left out

- **wgpu object construction** in `GUIPipeline::new` (shader module, layouts, render pipeline) and all of `BasicPipeline`. These are foreign library calls. Pipelines, bind groups and buffers are opaque handles, and a buffer has only a size.
- **`create_buffer_init`'s padding.** Each buffer that `new` creates is modelled with exactly its contents' length. That is what wgpu produces for contents whose length is a multiple of 4, which all of these are.
- **Buffer contents.** Nothing models what a buffer holds. `index_count` is kept when the index buffer grows, but the model does not capture that the grown buffer starts without the old data, so it no longer holds the indices `index_count` counts.
- **Floating point.** This covers the perspective matrix, the aspect-ratio division and `to_radians`. These are parameters or uninterpreted, so nothing about their values (for instance that 45 degrees converts to about 0.785398 radians) is checked.
- **`load_mesh_gltf`.** It does a network fetch and glTF parsing.
- **Browser and host plumbing.** `init`'s DOM lookups are a parameter (`DomLookup`). Its call to `console_error_panic_hook::set_once()`, which installs a global panic hook, is not modelled. `start` is a stub that leaks a closure and schedules nothing. `RcCell` is unused.
- **RON parsing and serialising** in crates/engine_scene. The parser is a parameter. The `Scene` here has the entity fields the projections read, which the shown crate does not declare.
- **bevy_ecs.** What a schedule does to the world is not modelled. The world only records which schedule ran.
- GuiPipeline.GuiPipeline.EnsureVertexCapacity: assumes `create_buffer` succeeds for every size. Device buffer limits (`max_buffer_size`, 256 MiB by default) and allocation failure are not modelled, so a need above that limit does not end in a wgpu validation error (a panic under the default handler) here. Sizes are unbounded: `GrownSizeFitsU64` shows the u64 arithmetic stays in range while the need is at most 2^63 bytes, and Rust slices cannot exceed `isize::MAX` bytes, so `len * size_of` cannot wrap.
- GuiPipeline.GuiPipeline.EnsureIndexCapacity: assumes `create_buffer` succeeds for every size, as above; device buffer limits and allocation failure are not modelled. Sizes are unbounded, for the same reason as above.
- WasmHelpers.SceneToInstances: does not model the panic on an entity that has a transform but no sprite. That case is excluded by its precondition.
