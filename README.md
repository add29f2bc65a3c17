# LearnVK engine core in Dafny

A Dafny model of the decision logic of a small Vulkan rendering engine.
It covers five parts, with the graphics API, the window and the OBJ loader
as abstract inputs: result codes, polled extents, chosen formats and the
loader's output.

- **Frame orchestrator** (`EngineRenderer`, `engine_renderer.dfy`). This is
  a two-state machine, idle or frame in progress, driven by
  `isFrameStarted`.
  - A frame-slot counter runs modulo `MAX_FRAMES_IN_FLIGHT` = 2, and there
    is one command buffer per slot.
  - `BeginFrame` and `EndFrame` react to acquire and present results and to
    the window's resize flag.
  - `RecreateSwapchain` waits for a drawable extent and checks that the
    formats have not drifted.
  - The render-pass helpers accept only the current frame's buffer, and only
    while a frame is in progress. The getters `GetCurrentCommandBuffer` and
    `GetFrameIndex` are defined only while a frame is in progress. `IsFrameInProgress`
    reports the state and is used throughout these contracts.
- **Point lights** (`PointLightSystem`, `point_light_system.dfy`).
  - `Update` packs every light object, in iteration order, into the
    10-slot uniform array. An eleventh light is a fatal error.
  - `Render` keys the lights by squared camera distance in an ordered map
    (`OrderedMap`, a model of `std::map<float, id>`). It then draws them
    back to front with one push and one 6-vertex draw each. A later light
    at an equal distance replaces the earlier one.
- **Meshes** (`EngineModel`, `engine_model.dfy`).
  - `LoadModel` de-duplicates the corner stream through a hash map, and is
    proved equal to the specification function `Dedup`.
  - `Dedup` is characterised independently: the vertex list holds each
    vertex once, in first-seen order, and `vertices[indices[k]]` is corner
    `k`.
  - Buffers are created with the 3-vertex minimum and with `hasIndexBuffer`
    set exactly when the uint32 index count is non-zero (a list of 2^32
    indices truncates to a count of 0 and gets a plain draw, as in the
    source). `Draw` makes the indexed-or-plain
    choice. The vertex input layout is the packed 44-byte vertex.
- **Scene objects** (`GameObjects`, `game_object.dfy`).
  - `CreateGameObject` hands out ids from a static `unsigned int` counter.
    The ids strictly increase, and so are distinct, until the counter
    wraps at 2^32.
  - A new object has no model, no light and unit scale. The object
    collection is an id-keyed map.
- **The first application** (`LegacyFirstApp`, `legacy_first_app.dfy`).
  - The recursive Sierpinski generator appends exactly 3·3^depth vertices,
    only appends, and stays inside the corners' bounding box.
  - `createCommandBuffers` records one buffer per image against framebuffer
    i.
  - `drawFrame` is a chain of result-code checks.

Shared definitions: `Vk` (result codes, uint32 arithmetic, extents and
handles), `Glm` (vectors over reals), `EngineFrameInfo` (`GlobalUbo`,
`FrameInfo`, `MAX_LIGHTS`) and `Wrappers` (`Option`, `Result`, `Outcome`).

Conventions:
- A `throw` becomes an `Err`/`Fail` result, with the object state exactly
  as it is at the throw point. Commands already recorded into a command
  buffer before a throw are not part of an error result (see `Render` under
  "## Left out").
- An `assert` on the caller's behaviour becomes a `requires`.
- The light-capacity `assert` inside `update` depends on the scene, so it
  becomes an error outcome.

## Model

| member | source | states |
|---|---|---|
| GameObjects.GameObject.GetId | src/engine_game_object.hpp:48 | the id the object was created with |
| GameObjects.NewObject | src/engine_game_object.hpp:49-57 | the object built from an id: that id, no model, zero color, zero translation, unit scale, and a null pointLight |
| GameObjects.IssuedIds | src/engine_game_object.hpp:34-37 | reference definition: the ids n successive CreateGameObject calls hand out, one per call, each below 2^32, and equal to the call's position while fewer than 2^32 calls were made |
| GameObjects.IssuedIdsIncrease | src/engine_game_object.hpp:34-37 | the ids from successive CreateGameObject calls strictly increase, hence are pairwise distinct, for up to 2^32 calls |
| GameObjects.IssuedIdsWrapAround | src/engine_game_object.hpp:31-36 | the id counter is an unsigned int: call 2^32+1 repeats the first id, 0 |
| GameObjects.IssuedIdsSnoc | src/engine_game_object.hpp:35-36 | call n+1 hands out n mod 2^32, an id not handed out before while fewer than 2^32 calls were made |
| GameObjects.IdCounter.constructor | src/engine_game_object.hpp:35 | the static counter starts at 0 with no id issued |
| GameObjects.IdCounter.CreateGameObject | src/engine_game_object.hpp:17-54 | returns an object carrying the old counter value, with no model, a null pointLight and unit scale; increments the counter modulo 2^32; the id was never issued before (below 2^32 calls) |
| GameObjects.At | src/systems/point_light_system.cpp:92 | at(key) finds nothing exactly when no entry has that key (the out_of_range case) |
| GameObjects.AtFindsEntry | src/engine_game_object.hpp:32 | in a map with unique keys, at(key) returns the object stored under that key |
| EngineFrameInfo.GlobalUbo.constructor | src/engine_frame_info.hpp:10-23 | a fresh uniform block has MAX_LIGHTS = 10 zero light slots and numLights = 0 |
| OrderedMap.Assign | src/systems/point_light_system.cpp:75 | map[k] = v keeps the keys strictly ascending, adds k (size grows only for a new key), maps k to v and leaves every other key's value unchanged |
| OrderedMap.GetEntry | src/systems/point_light_system.cpp:68 | in an ordered map, looking up the key at any position yields that position's value |
| PointLightSystem.LightObjects | src/systems/point_light_system.cpp:51-54 | the objects the loop keeps are all lights and no more than the collection holds |
| PointLightSystem.LightObjectsExact | src/systems/point_light_system.cpp:51-54 | an object is kept if and only if it is in the collection and its pointLight is non-null |
| PointLightSystem.LightObjectsPrefix | src/systems/point_light_system.cpp:51-54 | scanning a prefix of the collection keeps a prefix of the lights (iteration order is preserved) |
| PointLightSystem.LightSlot | src/systems/point_light_system.cpp:59-60 | a light's uniform slot: position is the translation with w = 1, color is the object color with w = the light intensity |
| PointLightSystem.Filled | src/systems/point_light_system.cpp:59-61 | reference definition: the light array after the given lights were written to its leading slots; it keeps its size and every slot past the lights keeps its initial value |
| PointLightSystem.FilledSnoc | src/systems/point_light_system.cpp:59-61 | writing the next light into the next slot extends the filled prefix by that light's slot |
| PointLightSystem.FilledPrefix | src/systems/point_light_system.cpp:51-56 | once every slot is filled, further lights change nothing in the array |
| PointLightSystem.OverflowFilled | src/systems/point_light_system.cpp:53-56 | a light met when every slot is filled means there are more lights than slots, and the array already equals what all the lights would fill |
| PointLightSystem.PackLights | src/systems/point_light_system.cpp:51-62 | the slot loop fits exactly when there are at most 10 lights, then counts them all; the array afterwards holds the lights' slots in iteration order, first 10 only, later slots unchanged |
| PointLightSystem.Update | src/systems/point_light_system.cpp:48-63 | succeeds iff there are at most 10 lights, and then sets numLights to the light count; slot i gets position (translation, 1) and color (color, intensity) of the i-th light; later slots are unchanged; with more lights it fails after filling the 10 slots, numLights untouched |
| PointLightSystem.DistanceKey | src/systems/point_light_system.cpp:73-74 | the squared camera distance used as the map key is never negative, and it is zero for a light at the camera position |
| PointLightSystem.SortedLights | src/systems/point_light_system.cpp:68-76 | the distance-keyed map built by the first loop is strictly ascending in distance |
| PointLightSystem.LastLightAt | src/systems/point_light_system.cpp:69-75 | reference definition: the position of the last light in iteration order at a given squared distance, or -1 |
| PointLightSystem.SortedLightsLastWins | src/systems/point_light_system.cpp:75 | the map holds, under each distance, the id of the last light at that distance, and nothing at a distance no light has |
| PointLightSystem.SortedLightsCollision | src/systems/point_light_system.cpp:75 | when two lights share a squared distance, the entry at that distance holds the id of a light at or after the later one in iteration order |
| PointLightSystem.SortByDistance | src/systems/point_light_system.cpp:68-76 | the first loop of render builds exactly the distance-keyed map described by SortedLights |
| PointLightSystem.SortedLightsDistinct | src/systems/point_light_system.cpp:68-76 | with pairwise distinct distances the map has exactly one entry per light |
| PointLightSystem.Drawable | src/systems/point_light_system.cpp:92-95 | the walk over the entries succeeds exactly when every entry's id is found by at() and names an object whose pointLight is non-null |
| PointLightSystem.DrawnLights | src/systems/point_light_system.cpp:91-92 | the reverse walk visits one object per map entry, each of them a light |
| PointLightSystem.DrawnLightsAt | src/systems/point_light_system.cpp:91-92 | the i-th drawn object is the one under the i-th entry from the end of the map |
| PointLightSystem.LightPush | src/systems/point_light_system.cpp:93-96 | a light's push constants carry the same position and color as its uniform slot, and radius = scale.x |
| PointLightSystem.LightDraws | src/systems/point_light_system.cpp:93-104 | two commands per drawn light |
| PointLightSystem.LightDrawsAt | src/systems/point_light_system.cpp:93-104 | for each drawn light k, command 2k pushes its position, color and radius = scale.x, and command 2k+1 is a 6-vertex, 1-instance draw |
| PointLightSystem.RenderStep | src/systems/point_light_system.cpp:91-104 | one step of the reverse walk: a light found under the next entry keeps the walked entries drawable and appends its push constants and a 6-vertex draw |
| PointLightSystem.Render | src/systems/point_light_system.cpp:67-106 | succeeds exactly when every map entry names a stored light object; the recorded stream is then pipeline bind, descriptor-set bind (set 0), then the pushes and draws of the lights in reverse map order |
| PointLightSystem.EntryIsLight | src/systems/point_light_system.cpp:92-95 | with objects stored under their own ids, each map entry leads through at() to a light at the entry's distance |
| PointLightSystem.RenderBackToFront | src/systems/point_light_system.cpp:68-105 | with objects stored under their own ids, render never fails and draws lights in strictly decreasing squared camera distance |
| EngineModel.CornerVertex | src/engine_model.cpp:165-192 | an attribute whose index is negative keeps its zero value |
| EngineModel.ShapeCorners | src/engine_model.cpp:163-164 | one vertex per index of the shape, in index order |
| EngineModel.CornersOf | src/engine_model.cpp:163-164 | the corner stream of the first n shapes has one vertex per index of those shapes |
| EngineModel.Dedup | src/engine_model.cpp:193-197 | one index per corner, and no more vertices than corners |
| EngineModel.DedupSameVertices | src/engine_model.cpp:193-196 | a vertex is stored if and only if some corner has it |
| EngineModel.DedupDistinct | src/engine_model.cpp:193-196 | no vertex is stored twice |
| EngineModel.DedupIndices | src/engine_model.cpp:194-197 | corner k's index is the uint32 position of its vertex in the vertex list |
| EngineModel.DedupCorrect | src/engine_model.cpp:162-198 | the three properties above together |
| EngineModel.DedupRoundTrip | src/engine_model.cpp:194-197 | while the vertex count fits uint32, every index is in range and vertices[indices[k]] is corner k |
| EngineModel.DedupFirstSeenOrder | src/engine_model.cpp:193-196 | stored vertices keep the order of their first occurrence in the corner stream |
| EngineModel.IndexedAdd | src/engine_model.cpp:193-195 | inserting a new vertex under the current size keeps the hash map consistent with the grown vertex list |
| EngineModel.IndexedLookup | src/engine_model.cpp:197 | a vertex already in the hash map maps to the position of its first copy in the list |
| EngineModel.AddCorner | src/engine_model.cpp:193-197 | one corner through the uniqueVertices map: the lists become Dedup of the corners seen so far plus this one, and the map stays consistent with the vertex list |
| EngineModel.AddShape | src/engine_model.cpp:163-198 | the corners of one shape, in index order: the lists become Dedup of the corners before plus this shape's corners |
| EngineModel.Builder.LoadModel | src/engine_model.cpp:149-200 | a loader failure fails before touching the lists; otherwise the lists are replaced by exactly Dedup of the corner stream, whatever they held before |
| EngineModel.DeviceSizeAsWritten | src/engine_model.cpp:69 | the byte count as written, a uint32 product, never reaches 2^32 |
| EngineModel.VertexBufferSizeWraps | src/engine_model.cpp:66-69 | 97612894 vertices of 44 bytes give a byte count of 40 as written |
| EngineModel.IndexBufferSizeWraps | src/engine_model.cpp:99-100 | 2^30 indices of 4 bytes give a byte count of 0 as written |
| EngineModel.DeviceSize | src/engine_model.cpp:100 | the byte count computed in 64-bit VkDeviceSize stays below 2^64 |
| EngineModel.DeviceSizeExact | src/engine_model.cpp:69 | computed in 64 bits, count × size of two uint32 values is exact |
| EngineModel.Model.constructor | src/engine_model.cpp:30-35 | a model built from at least 3 vertices has a vertex buffer of vertexCount 44-byte elements with the (64-bit) vertexCount × 44 bytes copied, and an index buffer exactly when the uint32 index count is non-zero (none otherwise) |
| EngineModel.Model.CreateVertexBuffers | src/engine_model.cpp:65-90 | vertexCount is the uint32 list size (at least 3 required); the buffer holds vertexCount vertices; the bytes copied are vertexCount × 44 computed in 64 bits, equal to the source's uint32 product whenever that product is below 2^32; index state unchanged |
| EngineModel.Model.CreateIndexBuffers | src/engine_model.cpp:91-125 | hasIndexBuffer iff indexCount > 0; only then is an index buffer of indexCount elements created; the bytes copied are indexCount × 4 computed in 64 bits, equal to the source's uint32 product whenever that product is below 2^32; vertex state unchanged |
| EngineModel.Model.Bind | src/engine_model.cpp:46-54 | binds the vertex buffer at binding 0, and binds an index buffer exactly when Draw issues an indexed draw |
| EngineModel.Model.Draw | src/engine_model.cpp:56-63 | one instance; for a valid model, indexed over indexCount indices exactly when the uint32 index count is non-zero, otherwise a plain draw over vertexCount vertices, and never an empty draw |
| EngineModel.DrawReproducesCorners | src/engine_model.cpp:56-63 | a model built from a de-duplicated corner stream issues one indexed draw over all corners, and index slot k fetches corner k |
| EngineModel.GetBindingDescriptions | src/engine_model.cpp:127-136 | one binding, 0, with a 44-byte stride |
| EngineModel.GetAttributeDescriptions | src/engine_model.cpp:137-147 | four attributes at locations 0-3 on binding 0, inside the stride, pairwise non-overlapping and covering the whole vertex |
| EngineRenderer.FirstNonZero | src/engine_renderer.cpp:20-24 | the first polled extent with non-zero width and height; all earlier ones are zero in some dimension |
| EngineRenderer.WaitForExtent | src/engine_renderer.cpp:20-24 | the wait loop ends on the first drawable extent, after exactly that many polls |
| EngineRenderer.SlotAfter | src/engine_renderer.cpp:113 | reference definition: the command-buffer slot after n more completed frames, a valid slot once a frame has completed or when the start is valid |
| EngineRenderer.SlotAfterIsModular | src/engine_renderer.cpp:113 | after n completed frames the slot is (start + n) mod MAX_FRAMES_IN_FLIGHT |
| EngineRenderer.SlotsCycle | src/engine_renderer.cpp:113 | slots stay in range, consecutive frames never share a slot, and each slot returns after MAX_FRAMES_IN_FLIGHT frames |
| EngineRenderer.Renderer.constructor | LearnVK/engine_renderer.hpp:51-53 | a new renderer is idle at slot 0, with a swapchain at the first drawable extent and MAX_FRAMES_IN_FLIGHT command buffers |
| EngineRenderer.Renderer.RecreateSwapchain | src/engine_renderer.cpp:19-38 | the new swapchain uses the first drawable extent and is in place even on failure; fails exactly when an old swapchain existed with different formats; nothing else changes |
| EngineRenderer.Renderer.CreateCommandBuffers | src/engine_renderer.cpp:41-54 | the list has MAX_FRAMES_IN_FLIGHT entries; success iff allocation succeeds, and then the list is the allocated buffers |
| EngineRenderer.Renderer.FreeCommandBuffers | src/engine_renderer.cpp:56-65 | every buffer is handed back and the list becomes empty |
| EngineRenderer.Renderer.IsFrameInProgress | LearnVK/engine_renderer.hpp:23 | whether a frame has been begun and not yet ended |
| EngineRenderer.Renderer.GetCurrentCommandBuffer | LearnVK/engine_renderer.hpp:25-28 | only while a frame is in progress; the buffer of the current slot |
| EngineRenderer.Renderer.GetFrameIndex | LearnVK/engine_renderer.hpp:30-33 | only while a frame is in progress; the current slot (currentFrameIndex), a valid slot number that indexes the command buffers |
| EngineRenderer.Renderer.GetAspectRatio | LearnVK/engine_renderer.hpp:24 | width over height of the current extent, always positive |
| EngineRenderer.Renderer.BeginFrame | src/engine_renderer.cpp:67-91 | only when idle; OUT_OF_DATE rebuilds the swapchain and returns no buffer with the frame not started and the slot unchanged; other non-success results are fatal; SUCCESS/SUBOPTIMAL start the frame and return the current slot's buffer, failing if recording cannot begin |
| EngineRenderer.Renderer.EndFrame | src/engine_renderer.cpp:93-114 | only in a frame; a recording failure is fatal; OUT_OF_DATE, SUBOPTIMAL or a resize clear the flag and rebuild exactly then; another non-success present is fatal; on success the machine is idle and the slot is (old + 1) mod MAX_FRAMES_IN_FLIGHT, on failure the frame stays in progress |
| EngineRenderer.Renderer.BeginSwapChainRenderPass | src/engine_renderer.cpp:116-147 | only in a frame, on the current buffer; a render pass into the acquired image over the full extent, cleared to 0.01 grey and depth 1, with viewport and scissor covering the extent |
| EngineRenderer.Renderer.EndSwapChainRenderPass | src/engine_renderer.cpp:149-154 | only in a frame, on the current buffer; ends the render pass |
| LegacyFirstApp.Sierpinski | LearnVK/first_app.cpp:43-55 | depth ≤ 0 gives top, right, left |
| LegacyFirstApp.SierpinskiColorless | LearnVK/first_app.cpp:43-47 | every generated vertex has a zero color |
| LegacyFirstApp.SierpinskiCount | LearnVK/first_app.cpp:43-55 | exactly 3 · 3^depth vertices (3 for depth ≤ 0) |
| LegacyFirstApp.SierpinskiStaysInBox | LearnVK/first_app.cpp:48-55 | every generated position lies in any axis-aligned box holding the three corners |
| LegacyFirstApp.LoadModelsCount | LearnVK/first_app.cpp:27-33 | depth 1 gives 9 vertices (at least the 3 a model needs), all within [-0.5, 0.5]² |
| LegacyFirstApp.ImageCommands | LearnVK/first_app.cpp:147-168 | buffer i holds one render pass into framebuffer i that draws the model |
| LegacyFirstApp.FirstApp.CreateSierpinskiTriangle | LearnVK/first_app.cpp:35-55 | appends exactly the generated vertices; earlier entries are untouched |
| LegacyFirstApp.FirstApp.LoadModels | LearnVK/first_app.cpp:27-33 | the model's vertex list is the depth-1 triangle, 9 vertices |
| LegacyFirstApp.FirstApp.CreateCommandBuffers | LearnVK/first_app.cpp:127-174 | one buffer per image; success iff allocation and every begin and end of recording succeed; every buffer recorded so far holds its image's commands |
| LegacyFirstApp.FirstApp.DrawFrame | LearnVK/first_app.cpp:176-188 | a buffer is submitted iff acquire gave SUCCESS or SUBOPTIMAL, and it is the acquired image's; success iff, in addition, present gave SUCCESS |

## Left out

- Every Vulkan and GLFW call is left out: device, buffer, pipeline and shader creation, memory mapping, queue submit and present, device idle waits and event waits. Their results are inputs. Recorded commands are returned as sequences, not written to a GPU.
- Floating point is modelled with exact reals. Two lights whose distances differ as reals but round to the same float are therefore distinct keys here. NaN is not modelled.
- Transform matrices, the normal matrix and the camera are left out. Only the camera position enters the model. The unused `rotateLight` matrix in `update` is also left out.
- The projection, view and inverse-view matrices and the ambient color of `GlobalUbo` are not modelled.
- `CreatePointLight` is declared in src/engine_game_object.hpp:38-41, but its definition is not part of this model.
- Move-only objects and the non-copyable renderer are left out. Dafny datatypes are values, so copy deletion cannot be expressed. Id uniqueness is stated through the counter instead (`IdCounter.CreateGameObject`, `IssuedIdsIncrease`).
- `unordered_map` iteration order is unspecified in the source. The model takes it as the order of the entry sequence.
- `GetSwapChainRenderPass` is left out: it returns an opaque handle with no logic.
- The renderer destructor is `FreeCommandBuffers`, and the model does not call it implicitly.
- EngineRenderer.Renderer.constructor: it is given the allocated buffers. A failed allocation in the constructor (a throw from a constructor) is modelled only in `CreateCommandBuffers`.
- EngineRenderer.WaitForExtent: it requires that the window eventually reports a non-zero extent. The source blocks forever otherwise.
- EngineRenderer.Renderer.BeginFrame: `acquireNextImage` is taken to write the image index in every case.
- The tinyobj parser, its warnings and materials, the `HashCombine` hash and `CreateModelFromFile`'s console output are left out. The loader's output is an input. Its attribute indices are required to be in range, as the loader guarantees.
- EngineModel.DedupRoundTrip: the uint32 cast of the index is modelled, but the round trip is proved only while the vertex count fits uint32. Past that, indices wrap and the source itself breaks.
- `EngineBuffer` internals are left out: alignment, the staging buffer and `copyBuffer`. A buffer is its element size, its element count and the bytes copied into it.
- EngineModel.Model.CreateVertexBuffers: the bytes copied are the corrected 64-bit product of the "## Findings" table, not the source's uint32 product; the two agree (and the contract says so) while vertexCount × 44 < 2^32, and from 97,612,894 vertices on the source copies fewer bytes than the model.
- EngineModel.Model.CreateIndexBuffers: likewise the corrected 64-bit product; it agrees with the source's uint32 product while indexCount × 4 < 2^32, and from 2^30 indices on the source copies fewer bytes.
- EngineModel.Model.constructor: inherits the corrected byte counts of `CreateVertexBuffers` and `CreateIndexBuffers`.
- EngineRenderer.Renderer.RecreateSwapchain: the swapchain's extent is taken to be the polled window extent. The source only passes that extent to the `EngineSwapChain` constructor, which chooses the image extent itself (not part of this model), so `GetAspectRatio` and `BeginSwapChainRenderPass` describe the window's extent.
- PointLightSystem.DistanceKey: states only that a light at the camera has key zero, not the converse that a zero key means the light is at the camera.
- PointLightSystem.Render: an `at()` failure returns only the error. The pipeline bind, the descriptor-set bind and the pushes and draws of the lights visited before the failing entry, which the source has already recorded into the command buffer when it throws, are not part of the error result.
- PointLightSystem.Update: the capacity `assert` is modelled as a failure. A build with assertions disabled would write past the array instead.
- The point-light pipeline setup (`createPipelineLayout`, `createPipeline`), the legacy `createPipelineLayout`, `createPipeline` and `run`, the window, the pipeline, `simple_render_system` and the older LearnVK model and game-object headers are left out. They are driver plumbing, file I/O or duplicates of the modelled code.

## Findings

| source | as written | input that shows it | evidently intended | confidence | as-written member | corrected member |
|---|---|---|---|---|---|---|
| src/engine_model.cpp:69 | `vertexCount * vertexSize` multiplies two `uint32_t`, so the vertex buffer's copy size wraps modulo 2^32 before it becomes a `VkDeviceSize` | 97,612,894 vertices of 44 bytes: 40 bytes are copied into a 4,294,967,336-byte buffer (`VertexBufferSizeWraps`) | the product taken in 64 bits, equal to count × size | not executed | EngineModel.DeviceSizeAsWritten | EngineModel.DeviceSize |
| src/engine_model.cpp:100 | `indexSize * indexCount` likewise wraps modulo 2^32 | 2^30 indices of 4 bytes: 0 bytes are copied (`IndexBufferSizeWraps`) | the product taken in 64 bits, equal to count × size | not executed | EngineModel.DeviceSizeAsWritten | EngineModel.DeviceSize |
