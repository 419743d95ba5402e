# OpenGLJuceSample: mesh upload, attribute binding and shader reload, in Dafny

This project models the rendering core of a small JUCE/OpenGL demo:

- the interleaved `Vertex` record (position, normal, colour, texture coordinate) and the attribute layout that follows from it;
- the conversion of a parsed Wavefront mesh into vertex records (`createVertexListFromMesh`), with a default normal and a default texture coordinate wherever the mesh has none;
- the `VertexBuffer` constructor, which uploads the records and the mesh indices, and its destructor;
- `Attributes` and `Uniforms`, which give each named shader input an optional handle that is absent exactly when the GL location lookup is negative;
- `Attributes::enable` / `disable` and `Shape::draw` (bind, enable, draw, disable for each sub-mesh in order);
- `OpenGLComponent::createShaders` (replace everything or nothing, depending on the compile/link chain) and `shutdown`.

OpenGL is modelled as a trace of calls (`GL.Context.calls`) plus an interpreter, `GL.Replay`, that replays a trace over an abstract GPU state. That state holds the buffer bindings, the buffer contents, each attribute array's pointer and source buffer, the enabled attribute arrays and the program in use. `GL.Draws` records the state each draw call sees. The properties about GL effects are proved on this interpreter: what is enabled at each draw, which buffer it reads, what is left enabled afterwards, and what an upload stores. Floats are reals. The parser's output, the mesh-load outcome, the shader texts and the compile/link outcomes are inputs.

Files: `wrappers.dfy` (Option), `vertex_layout.dfy` (Vertex, attribute layout), `wavefront_obj.dfy` (parsed-mesh types, juce::Colour), `gl.dfy` (calls, context, interpreter), `containers.dfy` (everything in `Containters.h`), `opengl_component.dfy` (the reload state machine), `scenarios.dfy` (worked examples).

Behaviour of the code that the model keeps:

- The attributes are looked up as `position`, `normal`, `sourceColour` and `textureCoordIn`.
- A loaded shape whose mesh is empty still gets a buffer pair, and drawing it issues one draw call of zero indices (`Scenarios.EmptyMeshEndToEnd`). Only a failed load, or a file with no shapes, draws nothing.
- `render()` does nothing, so no uniform values are pushed and no buffer is unbound.
- The status text of `createShaders` is a local variable and is not kept for display. `CreateShaders` returns it.
- `new Shape(openGLContext)` at Source/OpenGLComponent.cpp:73 does not match the two-argument constructor at Source/Containters.h:96. The model builds the shape from a load outcome given as an input.

## Model

| member | source | states |
|---|---|---|
| VertexLayout.Flatten | Source/Containters.h:7-12 | a record is 12 floats: position in slots 0-2, normal in 3-5, colour in 6-9, texture coordinate in 10-11 |
| VertexLayout.AttributeReadsItsField | Source/Containters.h:24-47 | each attribute's float offset and component count fit in the record and select exactly that attribute's own field |
| VertexLayout.LayoutTilesRecord | Source/Containters.h:7-12 | the four attribute ranges tile the record: every float slot belongs to exactly one attribute |
| VertexLayout.LayoutWithinStride | Source/Containters.h:26-44 | every range lies inside the record, and the stride `sizeof(Vertex)` is 48 bytes |
| VertexLayout.NamesDistinct | Source/Containters.h:18-21 | the four attributes are looked up under four distinct names |
| Colours.Colour.FloatRgba | Source/Containters.h:175 | the colour is four components, each in [0, 1] |
| GL.Context.GenBuffer | Source/Containters.h:124 | glGenBuffers returns a non-zero name that no earlier glGenBuffers in the trace returned, records the call, and keeps the context invariant that all names handed out lie below the counter |
| Containers.CreateAttribute | Source/Containters.h:59-66 | no handle exactly when the location is below 0; otherwise the handle carries that location |
| Containers.NewAttributes | Source/Containters.h:17-22 | each of the four attributes is absent exactly when the program has no location for its name; otherwise its ID is that location |
| Containers.LayoutPointer | Source/Containters.h:26-44 | every pointer's size is its field's length, its stride is `sizeof(Vertex)` and its byte offset is `sizeof(float)` times its float offset |
| Containers.Attributes.PresentIds | Source/Containters.h:24-54 | holds the location of every present attribute and nothing else |
| Containers.Attributes.Enable | Source/Containters.h:24-47 | issues exactly the pointer set-ups and enables of the present attributes, in source order |
| Containers.Attributes.Disable | Source/Containters.h:49-54 | issues exactly the disables of the present attributes, in source order |
| Containers.EnableAttribute | Source/Containters.h:25-46 | any one of the four `if` blocks of enable: for a present handle, its pointer set-up and then its enable; for an absent one, nothing |
| Containers.DisableAttribute | Source/Containters.h:50-53 | any one of the four lines of disable: for a present handle, its disable; for an absent one, nothing |
| Containers.EnableEffect | Source/Containters.h:24-47 | enable adds exactly the present attributes to the enabled set and changes no binding, buffer or program |
| Containers.EnableKeepsOtherPointers | Source/Containters.h:24-47 | enable leaves the pointer of every location outside the present attributes exactly as it was, whether configured or not |
| Containers.EnableLayout | Source/Containters.h:24-47 | when present attributes have distinct locations, each reads its own field, with that field's count, the record stride and the bound vertex buffer |
| Containers.DisableEffect | Source/Containters.h:49-54 | disable removes exactly the present attributes from the enabled set and changes nothing else |
| Containers.EnableThenDisable | Source/Containters.h:24-54 | enable then disable leaves none of the shader's attributes enabled; from a clean state, none at all |
| Containers.CreateUniform | Source/Containters.h:81-88 | no handle exactly when the location is below 0; otherwise the handle carries that location |
| Containers.NewUniforms | Source/Containters.h:72-76 | projectionMatrix, viewMatrix and time are each absent exactly when their location is below 0 |
| Containers.VertexList | Source/Containters.h:168-177 | one record per mesh position |
| Containers.VertexListPositions | Source/Containters.h:164-173 | the position of record i is 0.2 times position i of the mesh |
| Containers.VertexListNormals | Source/Containters.h:164-174 | the normal of record i is 0.2 times normal i when the mesh has one, else 0.2 times (0.5, 0.5, 0.5) |
| Containers.VertexListTexCoords | Source/Containters.h:165-176 | the texture coordinate of record i is the mesh's coordinate i when it has one, else (0.5, 0.5); never scaled |
| Containers.VertexListColour | Source/Containters.h:175 | all records of one call carry the same colour: the caller's components divided by 255 |
| Containers.VertexArray.Add | Source/Containters.h:173 | appends one record to the caller's array |
| Containers.CreateVertexListFromMesh | Source/Containters.h:163-178 | the caller's array grows by exactly the records of the mesh, in position order |
| Containers.VertexBuffer.constructor | Source/Containters.h:121-141 | numIndices is the mesh's index count; two fresh names; the calls upload the green records and then the indices unchanged |
| Containers.UploadEffect | Source/Containters.h:124-140 | after the upload the vertex buffer holds the records, the index buffer holds the mesh indices, and both are bound |
| Containers.VertexBuffer.Bind | Source/Containters.h:148-151 | binds the pair's vertex buffer and then its index buffer |
| Containers.VertexBuffer.Release | Source/Containters.h:143-146 | deletes the vertex buffer and then the index buffer |
| Containers.Shape.constructor | Source/Containters.h:104-106 | no buffer pair when the load fails; otherwise one per shape, in order, each with its shape's index count and uploads |
| Containers.UploadAllContents | Source/Containters.h:104-106 | after a shape list is uploaded, pair k holds shape k's records and indices, and older buffers are unchanged |
| Containers.DrawSubMesh | Source/Containters.h:111-115 | one loop iteration issues bind, enable, draw with that pair's index count, disable |
| Containers.Shape.Draw | Source/Containters.h:109-117 | the trace grows by the sub-mesh call groups in buffer order, nothing interleaved; no calls when there are no buffers |
| Containers.SubMeshEffect | Source/Containters.h:110-116 | one sub-mesh makes exactly one draw, issued with the pair bound and the attributes enabled; afterwards those attributes are off |
| Containers.DrawEffect | Source/Containters.h:109-117 | draw k sees pair k bound, its index count and the present attributes laid out over its vertex buffer; buffer contents unchanged; afterwards none of the shader's attributes is enabled |
| Containers.ShapeDrawsItsMeshes | Source/Containters.h:104-117 | after loading, draw k reads shape k's records and indices through the bound buffers, with shape k's index count |
| Containers.Shape.Release | Source/Containters.h:143-161 | destroying the shape deletes every buffer pair, last first as the `OwnedArray` at line 161 does, each by the destructor at lines 143-146 |
| Containers.ReleaseEffect | Source/Containters.h:143-146 | releasing a buffer list removes exactly the names it owns from the GPU state |
| Containers.BufferNames | Source/Containters.h:153 | the set of names owned by a buffer list: two per pair, and no other |
| GLComponent.CompileChainShortCircuits | Source/OpenGLComponent.cpp:63-65 | the fragment shader is added only if the vertex shader succeeded; linking is tried only if both did |
| GLComponent.CompileCallsNoEffect | Source/OpenGLComponent.cpp:63-65 | the compile and link steps leave the GPU state unchanged, so after a failed attempt the previous buffers and bindings are exactly as they were |
| GLComponent.OpenGLComponent.constructor | Source/OpenGLComponent.cpp:15-19 | starts with no shader, shape, attributes or uniforms |
| GLComponent.OpenGLComponent.CompileChain | Source/OpenGLComponent.cpp:63-65 | runs the short-circuit chain; the result is true exactly when all three steps succeed |
| GLComponent.OpenGLComponent.Install | Source/OpenGLComponent.cpp:66-75 | releases the old shape, installs and uses the new program, rebuilds shape, attributes and uniforms against it; the name counter advances by two per new buffer pair |
| GLComponent.OpenGLComponent.CreateShaders | Source/OpenGLComponent.cpp:53-80 | on any failure the four fields are unchanged and the status is the error; on success all four are rebuilt from the new program, release before upload, and the name counter advances by two per new buffer pair, so a later reload gets fresh names; invariant kept |
| GLComponent.OpenGLComponent.Shutdown | Source/OpenGLComponent.cpp:40-45 | afterwards shader, shape, attributes and uniforms are all absent and the shape's buffers are deleted |
| Scenarios.RedTriangleWithoutNormals | Source/Containters.h:163-178 | three positions without normals or texture coordinates, converted in red, give three records with the default normal (0.1 each after scaling), the default texture coordinate and colour (1, 0, 0, 1) |
| Scenarios.PositionOnlyShader | Source/Containters.h:17-54 | a shader declaring only `position` gets only a position handle, and only that attribute is set up, enabled and disabled |
| Scenarios.LoadAndDraw | Source/Containters.h:104-117 | building a shape from a load outcome on a fresh context and drawing it: one pair per loaded shape, and draw k reads shape k's green records and indices with shape k's index count |
| Scenarios.TriangleEndToEnd | Source/Containters.h:104-141 | loading one triangle gives one buffer pair and one draw of 3, reading the triangle's green records and the indices 0, 1, 2 |
| Scenarios.EmptyMeshEndToEnd | Source/Containters.h:104-117 | a loaded shape with an empty mesh still gets one buffer pair, and drawing issues one draw call, with count 0 |
| Scenarios.FailedLoadEndToEnd | Source/Containters.h:104-117 | a failed load gives no buffer pair, and drawing issues no draw call |

## Left out

- File I/O: the Resources directory search (Source/Containters.h:97-102) and `loadFileAsString` on the hard-coded shader paths. The load outcome and the shader texts are inputs.
- The Wavefront parser (`WavefrontObjFile::load`) is not part of this model; its outcome is the input `LoadResult`.
- Shader compilation and linking are not modelled. Each step's outcome, the linked program's location tables, the error text and the GLSL version are inputs (`ShaderBuild`).
- Float arithmetic: the scale 0.2f is the real 0.2 and `getFloatRed` etc. are exact division by 255. IEEE rounding is not modelled.
- Real GPU semantics: rasterisation, `GL_TRIANGLES` and `GL_UNSIGNED_INT` as arguments, `GL_STATIC_DRAW`, and byte sizes passed to glBufferData. Buffer contents are modelled as the values uploaded.
- GL.Context.GenBuffer: names are handed out one after another from a counter. Real GL only promises an unused non-zero name.
- The location lookups in the `Attributes` and `Uniforms` constructors are not recorded in the trace. They only read.
- Deleting a shader program (the `OpenGLShaderProgram` destructor, which runs when `shader` is reset or `newShader` is discarded) is not modelled. It is toolkit code that is not shown.
- Containers.EnableLayout: requires that present attributes have distinct locations. GL gives active attributes distinct locations unless the program aliases them (`glBindAttribLocation` or explicit `layout(location = …)`). The code shown does not alias them, and the shader texts are inputs. With aliased locations the later set-up wins in `Replay`, and the lemma says nothing.
- Index-range validation: the code never checks that indices are below the vertex count, and the model does not either.
- `render()` (Source/OpenGLComponent.cpp:47-51) does nothing and is not modelled. Neither are `paint`, `resized` and the destructor's call into the toolkit's `shutdownOpenGL`.
- Source/OpenGLComponent.h is not modelled: projection and view matrices are float toolkit code. Source/MainComponent.cpp is UI layout only.
- Uniform values are never pushed in the code, so `Uniforms` is modelled only as resolution.
