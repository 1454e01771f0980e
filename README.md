# engine: the asset-to-draw pipeline in Dafny

This project models the core of a small C++/OpenGL engine. The core covers:

- loading a model from an imported scene;
- loading its textures;
- compiling the outline shader;
- drawing the meshes, with an optional two-pass stencil outline;
- setting uniforms, including light structs;
- the application's list of per-frame systems.

The graphics driver is replaced by a `Context` object (`GlApi`). Every GL call the code makes is appended to the context's `trace`, one `Cmd` per call. The context also hands out object names in order.

What a trace does is defined by `Replay` into a `GlState` record, which holds:

- the current program;
- the stencil settings;
- the active unit and the texture on each unit;
- vertex array objects and their attributes;
- buffer sizes;
- uniform values;
- the list of draw calls made.

Other external pieces are parameters of the model:

- **Scene importer:** its output is an `AiScene` value (`Scene`).
- **Image decoder:** a map from file path to `Image`. It is held by a `Decoder` object that counts the buffers still allocated.
- **Shader sources:** a `FileSystem` map.
- **Compiler's verdict:** the `compiles` function of the context.

Each source file has a module of the same role:

| Module | File | Models |
|---|---|---|
| `Paths` | paths.dfy | `find_last_of('/')`, used for the model's directory and `get_local_path` |
| `Textures` | textures.dfy | `Texture2D`: decode check, channel-to-format switch, upload commands, builder defaults |
| `Lights` | lights.dfy | the light structs |
| `Shaders` | shaders.dfy | `Shader`: the list of pending stage handles, `set_uniform`, the struct-uniform names with their 64-byte buffer |
| `Meshes` | meshes.dfy | `Mesh`: `setup` (buffer sizes, attribute layout) and `draw` (unit binding, samplers, reset) |
| `Import` | import.dfy | what loading a scene must produce: pure functions over the scene, with their properties |
| `Models` | models.dfy | the `Model` class |
| `Apps` | apps.dfy | the system list of `App` |

The `Model` class in `Models` works as follows:

- `LoadModel`, `ProcessNode`, `ProcessMesh` and `LoadMaterialTextures` fill `meshes` and `loadedTextures` step by step.
- Each of them is proved to produce what the `Import` function gives for the same input.
- `Draw` is proved to issue `DrawTrace`. That trace's effect is then proved: the pass order, one or two draw calls per mesh, the stencil state left behind and the program left current.

Exceptions become `Result` or `Outcome` values that carry the error.

Integer casts that can wrap are written out:

- the `unsigned int` buffer sizes in `Mesh::setup`;
- the `GLsizei` index count in `Mesh::draw`.

Where the source states a property without keeping it, the model follows the code as written. The one exception is texture loading, whose corrected form (see Findings) keys each loaded texture on its full file path and its type. `add_system` only appends, so the list is not kept sorted by priority as the comment on `_systems` says. `Apps.AppendBreaksPriorityOrder` exhibits this. `Apps.InsertByPriority` is the insertion that would keep the order, with its proof.

Some inline blocks of the source became methods of their own, so that each proof stays small:

| Method | Block |
|---|---|
| `SetTransform` | the three transform uniforms |
| `DrawMeshes`, `DrawGeometries` | the two mesh loops of `draw` |
| `ProcessOwnMeshes` | the first loop of `process_node` |
| `LoadAndKeep` | the construct-and-push step of `load_material_textures` |
| `BuildOutline` | the shader lines of the `Model` constructor |

## Model

| member | source | states |
|---|---|---|
| Glm.Scale | src/model.hpp:65-66 | scaling a transform by a vector keeps its translation column |
| Glm.ScaleByOneIsIdentity | src/model.hpp:24-27 | with the default outline scale (1,1,1), the outline's model matrix is the transform's own |
| GlApi.Context.UniformLocation | src/shader.hpp:95-96 | a uniform location is -1 exactly when the program has no active uniform of that name, and is otherwise a valid location |
| GlApi.Context.Generate | src/mesh.cpp:25-27 | each generated object gets the next unused name, and one creation command is recorded |
| Paths.LastIndexOfSpec | src/model.cpp:30 | `find_last_of` gives -1 exactly when the character is absent, and otherwise the position of its last occurrence |
| Paths.Directory | src/model.cpp:30 | `dir` is the whole path when it has no '/', and otherwise the part before the last '/' |
| Paths.FileNameShape | src/texture2D.hpp:74-77 | `get_local_path` is the slash-free suffix after the last '/', or the whole path when there is none |
| Paths.SplitJoin | src/model.cpp:30 | for a path containing '/', directory + "/" + file name gives back the path |
| Paths.LastSlashOfJoin | src/model.cpp:123-124 | in `dir + "/" + name` with a slash-free name, the last '/' is the one that was inserted |
| Paths.FileNameOfJoin | src/model.cpp:123-124 | the local path of a texture loaded from `dir + "/" + name` is `name` when `name` has no '/' |
| Paths.DirectoryOfJoin | src/model.cpp:123-124 | the directory of `dir + "/" + name` is `dir` when `name` has no '/' |
| Textures.ChannelFormatRoundTrip | src/texture2D.hpp:32-46 | channel counts 1, 3 and 4 map to RED, RGB and RGBA and back; every other count has no format |
| Textures.Decode | src/texture2D.hpp:23-46 | decoding fails exactly when the file does not decode or has an unsupported channel count, with the matching error; on success the format's channel count is the image's |
| Textures.Decoder.Load | src/texture2D.hpp:23-24 | `stbi_load` returns the image when the file decodes, and then one more buffer is live |
| Textures.Decoder.Free | src/texture2D.hpp:62 | `stbi_image_free` releases one live buffer |
| Textures.Texture2D.constructor | src/texture2D.hpp:64-65 | the texture records its name, size, channel count, path and type |
| Textures.Texture2D.Bind | src/texture2D.hpp:70 | binding issues exactly one bind of the texture's name |
| Textures.Texture2D.Load | src/texture2D.hpp:21-66 | the constructor with the buffer freed on every path: fails exactly when decoding fails, with no texture generated; on success it generates one name, records path, type and size, and issues the bind, four parameters, the upload in the chosen format and the mipmap; no decoded buffer is left live |
| Textures.Texture2D.LoadAsWritten | src/texture2D.hpp:21-66 | the constructor as written: the same outcomes and commands, except that an unsupported channel count leaves one decoded buffer live |
| Textures.TwoChannelImageLeaks | src/texture2D.hpp:43-46 | a two-channel image fails with an unsupported-format error and leaves exactly one buffer allocated |
| Shaders.DoubleTakesFloatPath | src/shader.hpp:123-127 | a `double` uniform is uploaded exactly as a `float` of the same value |
| Shaders.Truncate | src/shader.hpp:145-149 | writing into the 64-byte buffer keeps a prefix of at most 63 characters, and leaves a shorter name unchanged |
| Shaders.LightInfoNames | src/shader.hpp:145-156 | the three `LightInfo` names fit the buffer, and for a base of at most 54 characters they are `base.ambient`, `base.specular` and `base.diffuse` in that order, all distinct |
| Shaders.LongBaseCollapsesLightInfoNames | src/shader.hpp:145-156 | a base of 62 characters or more truncates all three `LightInfo` names to the same string |
| Shaders.PointLightNames | src/shader.hpp:163-174 | for a base of at most 54 characters, a point light expands to `.position`, `.linear`, `.quadratic`, `.constant` then the three `LightInfo` names: 7 distinct names |
| Shaders.SpotLightNames | src/shader.hpp:181-190 | for a base of at most 54 characters, a spot light expands to `.position`, `.direction`, `.inner_cut_off`, `.outer_cut_off` then the `LightInfo` names: 7 distinct names |
| Shaders.DirectionalLightNames | src/shader.hpp:196-199 | for a base of at most 54 characters, a directional light expands to `.direction` then the `LightInfo` names: 4 distinct names |
| Shaders.BindingsTraceUploads | src/shader.hpp:93-103 | a run of `set_uniform` calls issues only uniform uploads, at most one per name, and none when no name resolves |
| Shaders.BindingsFrame | src/shader.hpp:93-103 | a run of `set_uniform` calls changes only uniforms at the resolved locations of the current program |
| Shaders.BindingsSet | src/shader.hpp:93-103 | after a run of `set_uniform` calls with distinct names, every resolved name holds its uploaded value |
| Shaders.Shader.constructor | src/shader.hpp:26 | a shader creates one program object and starts with no pending stages |
| Shaders.Shader.AddShader | src/shader.hpp:49-83 | an unopenable or unreadable file fails before any stage is created and leaves the stage list as it was; a compile failure creates, compiles and deletes the stage and leaves the list unchanged; success attaches the stage and appends exactly its name |
| Shaders.Shader.DeleteShaders | src/shader.cpp:8 | `delete_shaders` empties the stage list and changes nothing else |
| Shaders.Shader.Link | src/shader.cpp:10-23 | `link` issues the link command and empties the stage list whatever the outcome |
| Shaders.Shader.Deinit | src/shader.cpp:3-6 | `deinit` empties the stage list and deletes the program |
| Shaders.Shader.Use | src/shader.cpp:25 | `use` makes this program current with one command |
| Shaders.Shader.SetUniform | src/shader.hpp:93-103 | `set_uniform` issues the upload for the value's type at the resolved location, and nothing at all when the name does not resolve |
| Shaders.Shader.SetLightInfo | src/shader.hpp:141-157 | a `LightInfo` is uploaded as its three truncated names, in order |
| Shaders.Shader.SetPointLight | src/shader.hpp:159-175 | a point light is uploaded as its seven names, in order |
| Shaders.Shader.SetSpotLight | src/shader.hpp:177-191 | a spot light is uploaded as its seven names, in order |
| Shaders.Shader.SetDirectionalLight | src/shader.hpp:193-200 | a directional light is uploaded as its four names, in order |
| Meshes.ByteSize | src/mesh.cpp:32-41 | a buffer size is the byte count reduced modulo 2^32 by the `unsigned int` cast, and is exact when it fits |
| Meshes.AsGLsizei | src/mesh.cpp:17 | the index count passed as `GLsizei` wraps into the signed 32-bit range, and is exact when it fits |
| Meshes.CreatesEffect | src/mesh.cpp:25-29 | generating the three objects and binding the vertex array object only changes the bound vertex array object |
| Meshes.ArrayUploadEffect | src/mesh.cpp:31-35 | the vertex buffer is bound and given its size |
| Meshes.ElementUploadEffect | src/mesh.cpp:37-41 | the index buffer becomes the bound vertex array object's element buffer and is given its size |
| Meshes.BuffersEffect | src/mesh.cpp:25-41 | after the buffer part of `setup`, the new vertex array object is bound, and the vertex and index buffers have sizes \|vertices\|·32 and \|indices\|·4 (wrapped) |
| Meshes.AttribEffect | src/mesh.cpp:44-46 | one enable-and-pointer pair sets that attribute to enabled, with its components, the vertex stride and its offset, from the bound vertex buffer |
| Meshes.LayoutEffect | src/mesh.cpp:43-57 | the layout enables attributes 0, 1 and 2 with 3, 3 and 2 components, stride 32 and offsets 0, 12 and 24, then unbinds the vertex array object |
| Meshes.SetupLayout | src/mesh.cpp:24-58 | `setup` leaves the new vertex array object with the three attributes and the mesh's index buffer, the two buffers sized, and no vertex array object bound |
| Meshes.GeometryDraws | src/mesh.cpp:16-20 | drawing the geometry records exactly one draw call of the mesh's vertex array object, under the current program and stencil state, and unbinds it |
| Meshes.LastOfKind | src/mesh.cpp:10-14 | the unit of the last texture of a kind, or -1 exactly when the mesh has none of that kind |
| Meshes.SlotEffect | src/mesh.cpp:8-14 | one pass of the texture loop selects the unit, binds the texture, and sets the sampler for the texture's kind, with none for emission |
| Meshes.UnitsFrame | src/mesh.cpp:7-15 | the texture loop changes only the active unit, the unit bindings and uniforms, and ends on the last unit |
| Meshes.UnitsTextures | src/mesh.cpp:7-9 | after the texture loop, texture `i` is bound on unit `i`, and the other units keep their textures |
| Meshes.UnitsOtherUniforms | src/mesh.cpp:10-14 | the texture loop changes no uniform other than the two material samplers of the current program |
| Meshes.UnitsSamplers | src/mesh.cpp:10-14 | each sampler ends on the unit of the last texture of its kind, or keeps its value when there is none |
| Meshes.MeshDraws | src/mesh.cpp:6-22 | a mesh draw records one draw call of `indices.size()` elements with the mesh's vertex array object, leaves every texture bound on its unit, unit 0 active, no vertex array object bound, and program and stencil unchanged |
| Meshes.MeshDrawNoStencil | src/mesh.cpp:6-22 | a mesh draw issues no stencil command |
| Meshes.Mesh.constructor | src/mesh.hpp:24-29 | a mesh keeps its vertices, indices and textures, takes three fresh names, and issues exactly the `setup` commands |
| Meshes.Mesh.Setup | src/mesh.cpp:24-58 | `setup` generates three fresh names (consecutive under the model's single name counter) and issues the setup commands with the wrapped buffer sizes |
| Meshes.Mesh.Draw | src/mesh.cpp:6-22 | `draw` issues the texture loop for the program's samplers, the indexed draw and the reset |
| Meshes.Mesh.DrawWithoutTexture | src/model.hpp:69-70 | the geometry-only draw issues exactly the bind, the indexed draw and the unbind |
| Import.FlipNegatesV | src/model.cpp:52-71 | each vertex copies position and normal verbatim; with no first texture-coordinate channel, the coordinate is (0,0); otherwise U is copied and V is negated exactly when `flip_y` |
| Import.FlattenMembers | src/model.cpp:74-79 | an index is in the mesh's index list exactly when some face contains it |
| Import.FlattenTriangles | src/model.cpp:74-79 | with triangulated faces, the index list has three entries per face and face `j` is at positions 3j to 3j+2 |
| Import.AcquireSingle | src/model.cpp:101-133 | one texture path: an already-loaded texture is referenced again; otherwise it is decoded from `dir + "/" + path`, appended to both lists, or the decode error is returned |
| Import.AcquireSucceeds | src/model.cpp:94-136 | loading a material's textures succeeds exactly when every path is already loaded or decodes, and a failure carries the decode error of one of the paths |
| Import.AcquireOwns | src/model.cpp:94-136 | on success, the returned list references every path in order; the loaded list only grows, by new decodable textures of this type, keeps no duplicates, and holds every returned texture |
| Import.AcquirePrefixFails | src/model.cpp:123-124 | a failing texture ends the loop: the remaining paths do not change the result |
| Import.ImportMeshBuilds | src/model.cpp:45-92 | a processed mesh has the copied vertices, the flattened faces, and the diffuse then specular textures of its material; the loaded list only grows, keeps no duplicates, and holds every texture of the mesh |
| Import.ImportMeshesBuilds | src/model.cpp:36-39 | the node's meshes are appended after the existing ones, one per reference and in reference order, each built from its scene mesh |
| Import.ImportMeshesOwns | src/model.cpp:36-39 | while meshes are appended, the loaded textures only grow and every mesh's textures stay among them |
| Import.ImportMeshesConcat | src/model.cpp:34-43 | importing two runs of references one after the other equals importing their concatenation, and stops at the first failure |
| Import.MeshRefsCount | src/model.cpp:34-43 | the depth-first pre-order list of mesh references has as many entries as the tree holds references |
| Import.MeshRefsValid | src/model.cpp:37 | every reference in a well-formed tree names a mesh of the scene |
| Import.ImportNodeFlat | src/model.cpp:34-43 | the recursive `process_node` equals importing the tree's references in depth-first pre-order: a node's own meshes before its children, in order |
| Import.ImportChildrenFails | src/model.cpp:41-42 | once a child fails, the later children do not change the result |
| Import.ImportNodeBuilds | src/model.cpp:34-43 | a processed tree yields one mesh per reference in pre-order, each built from its scene mesh, with all textures owned |
| Import.ImportSceneBuilds | src/model.cpp:12-32 | a missing, incomplete or rootless scene fails with no mesh; a successful import has one mesh per reference of the root's tree, built with the directory of the path |
| Import.AcquireAsWrittenSingle | src/model.cpp:97-133 | as written: a path whose name matches a loaded texture's file name is skipped and not returned; otherwise the texture is decoded from `dir + "/" + path` and appended to both lists |
| Import.AcquireAsWrittenStep | src/model.cpp:97-133 | as written, one more path either is skipped by the file-name test or is loaded and appended to both lists |
| Import.AcquireAsWrittenPrefixFails | src/model.cpp:123-124 | as written, a failing texture ends the loop |
| Import.SubdirFileName | src/texture2D.hpp:74-77 | the local path of a texture loaded from a subdirectory is its bare name, which differs from the material path |
| Import.SharedTextureDropped | src/model.cpp:101-108 | a texture already loaded by an earlier mesh is left out of the next mesh's list as written, while the corrected loading references it |
| Import.SubdirTextureReloaded | src/model.cpp:101-105 | as written, a material path with a subdirectory never matches and is loaded again, so the loaded list holds a duplicate |
| Import.LoadedOncePerKind | src/model.cpp:94-136 | the corrected loading reuses a file owned under the same type, and loads the file once more for another type, keeping the loaded list free of duplicates |
| Import.OtherFileNeverLoaded | src/model.cpp:101-105 | as written, a file whose bare name equals a loaded subdirectory texture's name is skipped and never loaded |
| Models.Model.Init | src/model.hpp:80-86 | a new model has no meshes, no textures, an empty directory and default options; its outline program is created with no pending stages |
| Models.Model.CopyVertices | src/model.cpp:52-71 | the vertex loop yields exactly the copied vertices of the mesh |
| Models.Model.FlattenFaces | src/model.cpp:74-79 | the index loop yields the concatenation of the faces in order |
| Models.Model.FindTexture | src/model.cpp:101-105 | the lookup finds the position of a loaded texture with this file and type, or -1 exactly when there is none |
| Models.Model.LoadAndKeep | src/model.cpp:123-133 | constructing a texture fails exactly when decoding fails, with its error; on success the texture has the file and type, and is appended to the loaded list |
| Models.Model.LoadMaterialTextures | src/model.cpp:94-136 | the loop returns what the corrected dedup specification gives for the material, with every returned texture owned by the model and the loaded list only growing |
| Models.Model.ProcessMesh | src/model.cpp:45-92 | processing a mesh returns what the mesh specification gives, with its textures owned by the model |
| Models.Model.ProcessOwnMeshes | src/model.cpp:36-39 | the first loop of `process_node` appends what importing the node's references gives |
| Models.Model.ProcessNode | src/model.cpp:34-43 | the recursion leaves the model holding what importing the node in pre-order gives, and reports the first failure |
| Models.Model.LoadModel | src/model.cpp:12-32 | loading yields the scene import for the path's directory; an unusable scene fails with no mesh, no texture and no GL command |
| Models.Model.Load | src/model.hpp:31-38 | the constructor fails on a failed import; otherwise it fails exactly when an outline stage does not build, vertex before fragment; on success the model holds the import, the default options and a linked outline program with no pending stages; the program is created first, and the last command is the link or the program's deletion |
| Models.Model.BuildOutline | src/model.hpp:34-37 | the outline program is built from the two fixed files, vertex then fragment: success exactly when both build, then it is linked; a failure deletes it |
| Models.Model.SetTransform | src/model.hpp:51-53 | view, projection and model are uploaded in that order |
| Models.Model.DrawMeshes | src/model.hpp:55-56 | every mesh is drawn with the caller's shader, in order |
| Models.Model.DrawGeometries | src/model.hpp:69-70 | every mesh's geometry is drawn, in order |
| Models.Model.Draw | src/model.hpp:44-76 | `draw` issues the stencil mark (when outlining), the transform uniforms, the mesh draws, the outline pass (when outlining) and the final `use` |
| Models.Model.SetRenderOptions | src/model.hpp:78 | the options are replaced and nothing else changes |
| Models.MeshesDrawn | src/model.hpp:55-56 | the mesh loop records one draw call per mesh in order, under the current program and stencil state |
| Models.GeometriesDrawn | src/model.hpp:69-70 | the geometry loop records one draw call per mesh in order and changes nothing but draws and the bound vertex array object |
| Models.MarkEffect | src/model.hpp:45-49 | the outline setup sets stencil func ALWAYS/1/0xFF, mask 0xFF and op KEEP/KEEP/REPLACE |
| Models.TestEffect | src/model.hpp:59-61 | the outline pass sets stencil func NOTEQUAL/1/0xFF and mask 0x00, then switches to the outline program |
| Models.RestoreEffect | src/model.hpp:71-75 | the stencil mask goes back to 0xFF and the func to ALWAYS/1/0xFF, then the shader passed to `draw` is current |
| Models.MainPassDraws | src/model.hpp:51-56 | the main pass records one draw call per mesh under the current program and stencil state, and changes neither |
| Models.DrawPlain | src/model.hpp:44-76 | without outlining, `draw` records one draw call per mesh under the program current at the call, leaves the stencil state unchanged and the shader passed to `draw` current |
| Models.MeshesNoStencil | src/model.hpp:55-56 | the mesh loop issues no stencil command |
| Models.DrawPlainNoStencil | src/model.hpp:44-76 | without outlining, `draw` issues no stencil command at all |
| Models.OutlinePassDraws | src/model.hpp:58-75 | the outline pass records one outline-program draw per mesh under the NOTEQUAL test, restores the stencil mask and func, and leaves the shader passed to `draw` current |
| Models.DrawOutlined | src/model.hpp:44-76 | with outlining, `draw` records each mesh twice, first with the program current at the call and the marking stencil, then with the outline program and the testing stencil: 2·\|meshes\| draw calls; it ends with the marking stencil state and the shader passed to `draw` current |
| Models.OutlineNamesDistinct | src/model.hpp:63-67 | the four outline uniforms have distinct names |
| Models.OutlinePassUniforms | src/model.hpp:63-67 | after the outline pass, every resolved outline uniform holds its value |
| Models.MeshesOtherUniforms | src/model.hpp:55-56 | the mesh loop writes no uniform except the shader's two material samplers on the current program |
| Models.OutlinePassOtherUniforms | src/model.hpp:58-75 | the outline pass writes uniforms of the outline program only |
| Models.TransformNotSampler | src/model.hpp:51-56 | a location the shader resolves for `view`, `projection` or `model` is neither material sampler's location |
| Models.TransformUniforms | src/model.hpp:51-56 | with the shader current, after the main pass the shader holds each of the transform's three matrices that it resolves |
| Models.MainPassUniforms | src/model.hpp:51-53 | with the shader current at the call, after `draw` (with or without outlining, the outline program being a different one) the shader's `view`, `projection` and `model` hold the transform's matrices, for each name it resolves |
| Models.OutlineUniforms | src/model.hpp:63-67 | after an outlined `draw`, the outline program's view and projection are the transform's, its model is the transform's model scaled by the outline scale, and `outline_color` is the outline colour |
| Apps.App.AddSystem | src/app.hpp:44 | `add_system` appends the system at the end |
| Apps.App.RemoveSystem | src/app.hpp:45-52 | `remove_system` erases the first entry with the same function, whatever its priority |
| Apps.App.RunSystems | src/app.cpp:16-18 | a frame calls every system's function, in list order |
| Apps.RemoveFirstAt | src/app.hpp:45-52 | removal erases exactly the first matching position, and the other entries keep their order |
| Apps.RemoveFirstAbsent | src/app.hpp:50-51 | removing a function that is not listed leaves the list unchanged |
| Apps.RemoveFirstLength | src/app.hpp:45-52 | removal shortens the list by one exactly when some entry has the function |
| Apps.AddRemoveRoundTrip | src/app.hpp:44-52 | adding a system whose function is not listed, then removing it, restores the list |
| Apps.RemoveFirstKeepsSorted | src/app.hpp:45-52 | removal keeps a list sorted by priority sorted |
| Apps.CallsAppend | src/app.cpp:16-18 | a system added last is called last |
| Apps.AppendBreaksPriorityOrder | src/app.hpp:44-61 | appending a `Once` system after an `Update` one leaves the list unsorted by priority |
| Apps.InsertByPriorityPermutes | src/app.hpp:60-61 | inserting by priority adds exactly the new system |
| Apps.InsertByPriorityKeepsSorted | src/app.hpp:60-61 | inserting by priority keeps a sorted list sorted |

## Left out

- The GLFW window, input callbacks, the frame loop and its error check, the camera (src/main.cpp, src/camera.hpp, the rest of src/app.cpp): windowing I/O and floating-point numerics.
- Plugins (`add_plugin` and `remove_plugin`): they only construct a plugin and call its virtual `load` or `unload`.
- The scene importer, the image decoder and the file system: they are inputs of the model. A scene is assumed well formed: parallel vertex streams, and mesh, material and child indices in range. The importer guarantees this, and the code relies on it without checks.
- Floating-point values are `real`. The only matrix operation modelled is what `glm::scale` keeps. Uniform values are carried opaquely.
- The link status: `link` only logs a failure, so the model issues the link command without a verdict.
- Logging and timing (`std::cout`, `std::cerr`, `std::chrono`): they have no effect on the result.
- Destructors: `~Model` deleting its textures, `~Shader` calling `deinit`, `Texture2D::deinit`. C++ object lifetime is not modelled; `Shaders.Shader.Deinit` models `deinit` when it is called.
- The ownership mismatch between `std::vector<Texture2D *> loaded_textures` and the `unique_ptr` pushed into it: modelled as one owning sequence of textures that meshes reference.
- `Mesh::draw_without_texture` has no definition in the source; it is modelled as the geometry-only part of `Mesh::draw`.
- The as-written `load_material_textures` is modelled as the function `Import.AcquireAsWritten` only. The `Model` class follows the corrected loading (see Findings).
- Import.AcquireOwns: a loaded texture is keyed on its full file path and its type, not on the path alone, so a file used both as a diffuse and as a specular map is loaded once per type. A shared `Texture2D` carries one type, and `Mesh::draw` picks the sampler from that type (src/mesh.cpp:10-13), so one texture could not serve both.
- Models.Model.FindTexture: it looks for the file and the type together, for the same reason.
- GlApi.Context.Generate: one counter hands out names for every kind of object, where GL keeps a namespace per kind; that `Meshes.Mesh.Setup` gets consecutive names is a property of the model only.
- Models.Model.LoadMaterialTextures: it loads a file once per type, as `Import.AcquireOwns` above. The GL commands of the textures it loads are stated only as a growing trace, not spelled out.
- Models.Model.LoadAndKeep: the GL commands of the texture it loads are stated only as a growing trace.
- Models.Model.ProcessMesh: the texture and mesh setup commands are stated only as a growing trace.
- Models.Model.ProcessNode: after a failure, only the ownership invariant and the growing trace are stated; the source abandons the object by throwing.
- Models.Model.LoadModel: the commands of a successful load are stated only as a growing trace.
- Models.Model.Load: the commands between the program's creation and its link or deletion are stated only through their first and last entries.

## Findings

| source | as written | input that shows it | evidently intended | confidence | as-written member | corrected member |
|---|---|---|---|---|---|---|
| src/model.cpp:101-108 | a texture path that matches a loaded texture is skipped with `continue`, so the mesh's own list does not get it | two meshes whose materials both name `wood.png`: the second mesh gets no diffuse texture | the already-loaded texture is referenced from the mesh's list | not executed | Import.SharedTextureDropped | Import.AcquireOwns |
| src/model.cpp:101-105 | the dedup test compares the material path with the loaded texture's file name only | material path `maps/wood.png` requested twice: it is decoded and stored twice | a (path, type) pair is loaded once, so the loaded list has no duplicates | not executed | Import.SubdirTextureReloaded | Import.AcquireOwns |
| src/model.cpp:101-105 | the same comparison matches a different file that has the same bare name | `maps/wood.png` loaded, then `wood.png` requested: `dir/wood.png` is never loaded | every requested file is loaded and referenced | not executed | Import.OtherFileNeverLoaded | Import.AcquireOwns |
| src/texture2D.hpp:43-46 | an unsupported channel count throws before `stbi_image_free` | an image with 2 channels | the decoded buffer is freed on every path | not executed | Textures.TwoChannelImageLeaks | Textures.Texture2D.Load |
