# FrameworkGL, modelled in Dafny

This is a model of the CPU-side logic of FrameworkGL, a small C# / OpenTK toolkit for OpenGL games, with proofs about it. It covers:

- vertex welding (`VertexUnit`, `MeshData.AddVertexUnit`);
- the `Mesh` life cycle: add data, `SetUp` fixes the attribute flags and allocates buffers, `Draw` enables the attribute slots and issues one draw;
- the `Shader` life cycle: stage ids, linking, the cache of uniform locations, and uniform writes bracketed by `UseProgram`;
- `GameElement` and `Camera`, and the camera's view-matrix invariant;
- the `.mtl` line reader of `Material.FromFile`;
- the glyph-grid arithmetic of `Font2D`;
- the textured quad of `Sprite`.

How the model is built:

- **Objects become values.** Every class becomes an immutable `datatype`. Every method or property setter becomes a pure function that returns the new object, and also the new device state when the method talks to OpenGL.
- **The OpenGL device is a record**, `Gl.Gpu`. It holds:
  - the current program;
  - the set of enabled attribute slots;
  - the next name the driver will hand out;
  - the uniform locations the driver reports;
  - the trace of every call issued (`Gl.Call`).

  Properties about drawing, linking or uniform writes are stated over this trace.
- **Vectors, quaternions and matrices are symbolic.** `Vec3`, `Quat` and `Mat4` are terms: `Add`, `Normalized`, `RotatedBy`, `QuatMul`, `LookAt`, `PerspectiveFieldOfView`, `MatMul` and so on. Two values are equal when the same operations were applied to equal arguments. Two terms that the program would compute to the same number can still be different terms, which matters where the program compares vectors (see "## Left out").
- **Scalars are `real`.** `Vec2` and `Vec4` carry their components. C# integer division and remainder, which truncate toward zero, are written out in `Fonts.CsDiv` and `Fonts.CsRem`.
- **Things outside the core become parameters:**
  - `GameMain.DeltaTime` and `GameMain.Viewport`;
  - the status codes and info logs the driver reports after a compile or a link;
  - `Shader.IsSupported`;
  - `float.Parse`, as a function that may reject a token;
  - `Path.GetDirectoryName` of the material file.
- **Thrown exceptions become values.** An exception is a `Result` failure, or a `Step` whose `error` field is set. A `Step` keeps the side effects that happened before the throw.

## Model

| member | source | states |
|---|---|---|
| Vertices.Equal | FrameworkGL/Mesh/VertexUnit.cs:23-28 | `==` holds exactly when position, normal and texture coordinate all match |
| Vertices.NotEqual | FrameworkGL/Mesh/VertexUnit.cs:30-32 | `!=` holds exactly when the units differ |
| Vertices.EqualIsFieldwise | FrameworkGL/Mesh/VertexUnit.cs:23-44 | `==` is the conjunction of `PositionEquals`, `NormalEquals` and `TexCoordEquals`, and `!=` is its negation |
| Vertices.EqualIsEquivalence | FrameworkGL/Mesh/VertexUnit.cs:23-28 | with NaN-free components, `==` is reflexive, symmetric and transitive |
| Vertices.NormalAloneSeparates | FrameworkGL/Mesh/VertexUnit.cs:23-28 | two corners that differ only in a supplied normal are not welded together |
| Welding.NewMeshData | FrameworkGL/Mesh/MeshData.cs:14-17 | a new builder has no vertices and no indices |
| Welding.FirstEqual | FrameworkGL/Mesh/MeshData.cs:23-30 | the scan finds the first stored vertex `==` to the unit; it finds none exactly when no stored vertex is `==` |
| Welding.Add | FrameworkGL/Mesh/MeshData.cs:19-36 | one index is appended per call. A unit already stored gives the index of its first match and stores nothing. A new unit is stored at the end and indexed by the old vertex count |
| Welding.AddVertexUnit | FrameworkGL/Mesh/MeshData.cs:19-36 | the scan loop with its `add` flag computes exactly that effect |
| Welding.AddPreservesValid | FrameworkGL/Mesh/MeshData.cs:19-36 | adding a unit keeps every index below the vertex count and keeps no two stored vertices `==` |
| Welding.WeldValid | FrameworkGL/Mesh/MeshData.cs:19-36 | after any sequence of adds: one index per unit, at most one vertex per unit, indices in range, stored vertices pairwise distinct |
| Welding.WeldExtends | FrameworkGL/Mesh/MeshData.cs:19-36 | later adds only append: the lists built from a prefix are prefixes of the lists built from the whole input |
| Welding.WeldRoundTrip | FrameworkGL/Mesh/MeshData.cs:19-36 | round trip: the stored vertex at the k-th index is the k-th unit passed in |
| Welding.WeldStoresExactlyTheUnits | FrameworkGL/Mesh/MeshData.cs:19-36 | a vertex is stored exactly when it was passed in |
| Welding.WeldSameUnit | FrameworkGL/Mesh/MeshData.cs:19-36 | adding one unit n times stores it once and gives n zero indices |
| Welding.WeldRepeatedCorner | FrameworkGL/Mesh/MeshData.cs:19-36 | for corners a, b, b with a ≠ b, two vertices are stored and the indices are 0, 1, 1 |
| Meshes.NewMesh | FrameworkGL/Mesh/Mesh.cs:59-67 | a new mesh has id -1, five empty lists and no flag raised |
| Meshes.Positions | FrameworkGL/Mesh/Mesh.cs:75-76 | every corner's position is kept, in order |
| Meshes.SuppliedNormals | FrameworkGL/Mesh/Mesh.cs:78-79 | a normal is kept exactly when some corner has it and it is not the zero vector; nothing is dropped when every normal is non-zero |
| Meshes.SuppliedTexCoords | FrameworkGL/Mesh/Mesh.cs:81-82 | a texture coordinate is kept exactly when some corner has it and it is not (-1, -1); nothing is dropped when none is the sentinel |
| Meshes.LoadData | FrameworkGL/Mesh/Mesh.cs:74-87 | positions are appended in order, then the supplied normals and texture coordinates; indices are copied verbatim; colours and everything else are untouched |
| Meshes.MeshFromDataAsWritten | FrameworkGL/Mesh/Mesh.cs:69-87 | as written, the constructor enters `LoadData` with every list null and the name 0; since `Add` on a null list throws, it throws exactly when the data holds a vertex or an index, and otherwise leaves the lists null |
| Meshes.MeshFromDataAsWrittenThrows | FrameworkGL/Mesh/Mesh.cs:69-76 | welding any single corner and passing it to the constructor throws |
| Meshes.LoadUnitsWithLists | FrameworkGL/Mesh/Mesh.cs:75-83 | once the lists exist, the first loop never throws and appends the positions, the non-zero normals and the non-sentinel texture coordinates |
| Meshes.LoadIndicesWithList | FrameworkGL/Mesh/Mesh.cs:85-86 | once the index list exists, the second loop never throws and appends every index |
| Meshes.LoadDataWithLists | FrameworkGL/Mesh/Mesh.cs:74-87 | once the lists exist, `LoadData` as written never throws and fills them exactly as `Meshes.LoadData` states |
| Meshes.FromMeshData | FrameworkGL/Mesh/Mesh.cs:59-87 | the intended constructor gives id -1, one position per welded vertex in order, at most as many normals and texture coordinates as positions, and the welded indices |
| Meshes.FromMeshDataCreatesLists | FrameworkGL/Mesh/Mesh.cs:59-87 | the corrected constructor is the as-written loader run on the lists `new Mesh()` creates: it never throws, and the name stays -1 |
| Meshes.WeldThenLoadRoundTrip | FrameworkGL/Mesh/Mesh.cs:74-87 | after welding then loading, the position at the k-th index is the k-th corner's position |
| Meshes.AddVertex | FrameworkGL/Mesh/Mesh.cs:91-93 | appends to the positions and changes nothing else |
| Meshes.AddNormal | FrameworkGL/Mesh/Mesh.cs:95-97 | appends to the normals and changes nothing else |
| Meshes.AddColor | FrameworkGL/Mesh/Mesh.cs:99-101 | appends to the colours and changes nothing else |
| Meshes.AddColorBytes | FrameworkGL/Mesh/Mesh.cs:103-105 | appends one colour and changes nothing else; each component times 255 gives its byte back, so each lies in [0, 1] and is 1 exactly at byte 255 and 0 exactly at byte 0 |
| Meshes.AddTexCoord | FrameworkGL/Mesh/Mesh.cs:107-109 | appends to the texture coordinates and changes nothing else |
| Meshes.AddIndex | FrameworkGL/Mesh/Mesh.cs:111-113 | appends to the indices and changes nothing else |
| Meshes.AddIndices | FrameworkGL/Sprite.cs:99 | the sprite's call appends all the values to the indices and changes nothing else |
| Meshes.UploadCalls | FrameworkGL/Mesh/Mesh.cs:151-181 | one buffer upload generates exactly that buffer's name and only binds and fills it |
| Meshes.SetUpCalls | FrameworkGL/Mesh/Mesh.cs:117-147 | set-up generates exactly the allocated buffers, and otherwise only binds, fills and creates the vertex array |
| Meshes.SetUpMesh | FrameworkGL/Mesh/Mesh.cs:117-147 | each flag is raised exactly when its list is non-empty and is never lowered; the lists are unchanged; the buffer of an unflagged list keeps its old name |
| Meshes.SetUp | FrameworkGL/Mesh/Mesh.cs:117-147 | the same flag rule. The calls issued are the set-up calls. The position buffer gets the next free name. The program and the enabled slots are untouched |
| Meshes.AllocatedConsecutive | FrameworkGL/Mesh/Mesh.cs:123-146 | the allocated names are consecutive in creation order, and the vertex array takes the next one |
| Meshes.SetUpAllocates | FrameworkGL/Mesh/Mesh.cs:123-146 | set-up generates a position buffer plus one buffer per raised flag, and no other, under consecutive fresh names |
| Meshes.SetUpUploads | FrameworkGL/Mesh/Mesh.cs:124-143 | all positions are uploaded; when the mesh is indexed, all indices are too |
| Meshes.BindBufferCalls | FrameworkGL/Mesh/Mesh.cs:207-228 | attribute pointers go to slots 0/1/2/3 with sizes 3/4/3/2, position always and the others only when flagged; the array buffers bound are the position buffer and exactly the flagged attributes' buffers; every pointer comes right after binding its own slot's buffer; the index buffer is bound exactly when the mesh is indexed |
| Meshes.BindBuffers | FrameworkGL/Mesh/Mesh.cs:207-228 | binding issues those calls and leaves the program and the enabled slots alone |
| Meshes.BindingsKeepState | FrameworkGL/Mesh/Mesh.cs:207-228 | no binding call changes the current program or the enabled slots |
| Meshes.EnableCalls | FrameworkGL/Mesh/Mesh.cs:191-194 | a draw enables exactly the present slots |
| Meshes.PresentSlots | FrameworkGL/Mesh/Mesh.cs:191-194 | slot 0 is always present; slots 1, 2 and 3 are present exactly when colours, normals or texture coordinates are flagged |
| Meshes.DrawPrologue | FrameworkGL/Mesh/Mesh.cs:187-194 | before the draw call, only bind, pointer and enable calls are issued, and the enables are the present slots |
| Meshes.PrologueOnlyEnables | FrameworkGL/Mesh/Mesh.cs:187-194 | the prologue neither switches programs nor disables a slot, and issues no draw |
| Meshes.DrawSlotsAtDrawCall | FrameworkGL/Mesh/Mesh.cs:191-197 | when the draw call is issued, a slot is enabled exactly when it was enabled before or is present; the program is unchanged |
| Meshes.DisableAll | FrameworkGL/Mesh/Mesh.cs:201-204 | the epilogue disables slots 0 to 3 and nothing else |
| Meshes.DrawCalls | FrameworkGL/Mesh/Mesh.cs:187-205 | a draw's calls contain the draw command, contain no other draw, and end with disabling slots 0 to 3 |
| Meshes.DrawIssuesOneDraw | FrameworkGL/Mesh/Mesh.cs:187-205 | `Draw` issues exactly one draw. It is indexed over the current index count when the mesh is indexed, and otherwise over the current vertex count |
| Meshes.DrawRestoresSlots | FrameworkGL/Mesh/Mesh.cs:187-205 | after `Draw`, slots 0 to 3 are disabled, other slots are as before, and the program is unchanged |
| Meshes.QuadDrawsSixIndices | FrameworkGL/Mesh/Mesh.cs:117-205 | a set-up quad with six indices and no other data is indexed, draws 6 indices as triangles and enables only slot 0 |
| Shaders.Slot | FrameworkGL/Shader.cs:16-22 | every attribute slot lies in 0..3 |
| Shaders.SlotIsInjective | FrameworkGL/Shader.cs:16-22 | two attributes never share a slot |
| Shaders.New | FrameworkGL/Shader.cs:177-220 | fails exactly when shaders are unsupported. Otherwise it creates one program. Both stage ids are -1 and the cache is empty. The matrices are identity, except modelview, which is left zero. Texture is -1, alpha 1 and bump map -1. The default names are used |
| Shaders.AddShader | FrameworkGL/Shader.cs:227-247 | creates, sources and compiles one stage. On a failed compile it deletes that stage, keeps the ids and raises. On success it stores the id only for a vertex or fragment stage |
| Shaders.Stages | FrameworkGL/Shader.cs:269-273 | the held stages are the ids that are not -1 |
| Shaders.AttachCalls | FrameworkGL/Shader.cs:269-273 | exactly the held stages are attached to the program |
| Shaders.BindAttributeCalls | FrameworkGL/Shader.cs:275-278 | the four attribute names are bound to their slots and nothing else is bound |
| Shaders.ReleaseCalls | FrameworkGL/Shader.cs:290-300 | exactly the held stages are detached and deleted |
| Shaders.LinkCalls | FrameworkGL/Shader.cs:269-280 | the calls before the status check end with the link and never change the program or the enabled slots |
| Shaders.Link | FrameworkGL/Shader.cs:265-301 | on a failed link the program is deleted, the stage ids are kept and an error is raised. On success the stages are released and both ids become -1. Nothing else in the shader changes |
| Shaders.LinkCallsBindings | FrameworkGL/Shader.cs:269-280 | the calls up to the link bind exactly the four attribute names |
| Shaders.LinkIssues | FrameworkGL/Shader.cs:265-301 | a link issues the attach, bind and link calls, then either the program's deletion or the stages' release, and nothing else |
| Shaders.LinkBindsAttributeSlots | FrameworkGL/Shader.cs:275-278 | whatever the outcome, a link binds the `vertex_*` names to slots 0 to 3 |
| Shaders.CompileAndLinkReleasesStages | FrameworkGL/Shader.cs:227-301 | compiling a vertex and a fragment stage, then linking, ends with no stage held and both stages deleted |
| Shaders.Activate | FrameworkGL/Shader.cs:303-305 | the program becomes current |
| Shaders.Deactivate | FrameworkGL/Shader.cs:307-309 | no program is current |
| Shaders.Dispose | FrameworkGL/Shader.cs:311-313 | the program is deleted and the current program is not touched |
| Shaders.GetVariableLocation | FrameworkGL/Shader.cs:317-329 | a cached name is answered without a query. An uncached name is queried and cached only when its location is not -1. Cached entries never change |
| Shaders.LookupIsMemoised | FrameworkGL/Shader.cs:317-329 | with a faithful cache, a lookup answers what the driver reports and keeps the cache faithful |
| Shaders.MissIsQueriedAgain | FrameworkGL/Shader.cs:317-329 | a name the program lacks is queried again on every lookup |
| Shaders.QueryCalls | FrameworkGL/Shader.cs:318-321 | a lookup queries the driver exactly when the name is not cached |
| Shaders.WriteCalls | FrameworkGL/Shader.cs:336-337 | a value is written exactly when the location is not -1 |
| Shaders.SetVariable | FrameworkGL/Shader.cs:331-340 | the write is bracketed by `UseProgram(id)` and `UseProgram(0)`, so no program is current afterwards; only the cache changes in the shader |
| Shaders.SetVariableIsBracketed | FrameworkGL/Shader.cs:331-400 | every uniform write starts with using the program and ends with `UseProgram(0)`, whatever was current before |
| Shaders.ColorUniform | FrameworkGL/Shader.cs:387-389 | a colour is written as four floats |
| Shaders.ColorUniformIsAllOrNothing | FrameworkGL/Shader.cs:387-389 | because of integer division, each component is 1 when its byte is 255 and 0 otherwise |
| Shaders.Get | FrameworkGL/Shader.cs:101-171 | every property's getter returns a value of the property's type |
| Shaders.Store | FrameworkGL/Shader.cs:101-171 | storing a property changes that property's getter and no other getter, the cache, the names or the stage ids |
| Shaders.SetPropertyStores | FrameworkGL/Shader.cs:101-171 | a property setter stores its value even when the location is -1, and writes it under the property's name bracketed by use-program calls |
| Elements.NewElement | FrameworkGL/GameElement.cs:71-77 | a new element is at the origin, unrotated, still, moving along (0, 0, -1) |
| Elements.SetPosition | FrameworkGL/GameElement.cs:29-32 | the base setter changes the position only |
| Elements.SetRotation | FrameworkGL/GameElement.cs:37-40 | the base setter changes the rotation only |
| Elements.SetLinearSpeed | FrameworkGL/GameElement.cs:45-48 | changes the linear speed only |
| Elements.SetAngularSpeed | FrameworkGL/GameElement.cs:53-56 | changes the angular speed only |
| Elements.SetMovementDirection | FrameworkGL/GameElement.cs:61-64 | stores the normalized direction and changes nothing else |
| Elements.Move | FrameworkGL/GameElement.cs:83-87 | the position advances by direction × linear speed × step factor; nothing else changes |
| Elements.Rotate | FrameworkGL/GameElement.cs:95-100 | only the rotation changes; it becomes the old orientation times a turn about the axis by angular speed × step factor degrees, negated when clockwise |
| Elements.ClockwiseIsOpposite | FrameworkGL/GameElement.cs:95-99 | a clockwise turn gives the same orientation as a counter-clockwise turn of the element at the opposite angular speed |
| Elements.MotionsKeepSpeeds | FrameworkGL/GameElement.cs:83-110 | any run of moves and turns leaves the linear and angular speeds and the movement direction as they were |
| Cameras.UpdateView | FrameworkGL/Camera.cs:157-159 | afterwards the view is the look-at matrix of the eye, target and up; nothing else changes |
| Cameras.PerspectiveAspectIsOne | FrameworkGL/Camera.cs:130 | the perspective aspect ratio is 1, not 16/9, because `16 / 9` is integer division |
| Cameras.DefaultProjection | FrameworkGL/Camera.cs:129-132 | perspective kind gives the 90° perspective with aspect 1; orthographic kind gives the 16 × 9 orthographic; any other byte leaves the matrix zero |
| Cameras.NewCamera | FrameworkGL/Camera.cs:122-133 | the camera stores eye, target and up, starts with a current view and the kind's projection, and is otherwise a default element |
| Cameras.SetPosition | FrameworkGL/Camera.cs:34-42 | the eye moves alone: target, up, rotation and projection stay, and the view is current |
| Cameras.SetTarget | FrameworkGL/Camera.cs:47-53 | only the target changes, the eye stays, and the view is current |
| Cameras.SetUp | FrameworkGL/Camera.cs:58-64 | only the up vector changes, the eye stays, and the view is current |
| Cameras.SetRotation | FrameworkGL/Camera.cs:69-78 | the rotation is stored, target and up are transformed by it about the origin, the eye stays, and the view is current |
| Cameras.SetDirection | FrameworkGL/Camera.cs:83-86 | the target becomes eye + normalized direction; eye, up and projection stay; the view is current |
| Cameras.SetProjection | FrameworkGL/Camera.cs:98-101 | only the projection changes |
| Cameras.New2D | FrameworkGL/Camera.cs:147-155 | the eye is at the viewport centre at the layer, looking at (0, 0, -1) with up y, under an orthographic projection of the viewport's size, with the view current |
| Cameras.RotateFromMouse | FrameworkGL/Camera.cs:161-164 | goes through the direction setter, so the eye, up, rotation and projection stay and only the target turns |
| Cameras.Move | FrameworkGL/GameElement.cs:83-87 | a camera moves through its own position setter: its element moves as a plain element does, target, up and projection stay, and the view is current |
| Cameras.Rotate | FrameworkGL/GameElement.cs:95-100 | a camera turns through its own rotation setter: its element turns as a plain element does, target and up are transformed by the new rotation, the projection stays, and the view is current |
| Cameras.RotateLocal | FrameworkGL/GameElement.cs:108-110 | the local turn goes through the same setter: its element turns locally as a plain element does, target and up are transformed by the new rotation, the projection stays, and the view is current |
| Cameras.RotateLocalTurnsByComposed | FrameworkGL/GameElement.cs:95-110 | a local turn composes the orientation q with a turn about the axis carried into world space by q, and carries target and up by that composed orientation; the eye stays |
| Cameras.ApplyKeepsViewCurrent | FrameworkGL/Camera.cs:34-164 | every public mutation keeps the view equal to the look-at matrix of eye, target and up |
| Cameras.ViewCurrentAfter | FrameworkGL/Camera.cs:34-164 | any run of mutations from a camera with a current view keeps it current |
| Cameras.ViewStaysCurrent | FrameworkGL/Camera.cs:122-164 | from construction on, the view is always current |
| Cameras.CameraMatrixIsLookAtThenProjection | FrameworkGL/Camera.cs:106-108 | from construction on, the camera matrix is always the look-at matrix of the current eye, target and up, followed by the projection |
| Cameras.ProjectionChangesOnlyBySetter | FrameworkGL/Camera.cs:98-101 | a run of mutations without the projection setter leaves the projection as it was |
| Cameras.CameraElementFollowsMotions | FrameworkGL/Camera.cs:34-78 | going through the overriding setters does not change how the element moves: after any run of moves and turns, the camera's element is the plain element after the same motions |
| Text.Count | FrameworkGL/Material.cs:114 | the number of separators is zero exactly when none occurs |
| Text.Split | FrameworkGL/Material.cs:114 | splitting on one character gives one piece more than there are separators; no piece holds a separator; joining the pieces gives the line back |
| Text.SplitJoin | FrameworkGL/Material.cs:114 | splitting the join of separator-free pieces gives the pieces back |
| Materials.NewMaterial | FrameworkGL/Material.cs:81-88 | the defaults are name "", Ka (0,0,0), Kd (1,1,1), Ks (0.4,0.4,0.4), shininess 1, alpha 1 and no texture |
| Materials.Number | FrameworkGL/Material.cs:120-122 | a token is a number exactly when the parser accepts it; otherwise it fails naming the token |
| Materials.Colour | FrameworkGL/Material.cs:113-125 | a colour line without exactly four pieces fails with the key; a four-piece line succeeds iff pieces 1, 2 and 3 all parse, and then gives them as x, y and z; otherwise it fails naming the first of them that does not parse |
| Materials.ReadLine | FrameworkGL/Material.cs:97-174 | comment and empty lines change nothing; reading stops exactly at a `newmtl ` line that arrives once a name is set |
| Materials.NewMaterialNamesUnnamed | FrameworkGL/Material.cs:103-111 | a `newmtl ` line names a material with no name yet after its second piece, and reading goes on |
| Materials.ColourLineStores | FrameworkGL/Material.cs:113-153 | a `Ka`, `Kd` or `Ks` line stores its colour in the ambient, diffuse or specular field respectively, or fails the read with the colour's error |
| Materials.NumberLineStores | FrameworkGL/Material.cs:155-165 | an `Ns` line stores its second piece as the shininess and a `d` line its last piece as the alpha, or the read fails naming the token |
| Materials.TextureLineStores | FrameworkGL/Material.cs:167-173 | a `map_Kd` line always succeeds and records the directory followed by its last piece |
| Materials.FromLines | FrameworkGL/Material.cs:90-177 | an empty file gives the defaults |
| Materials.ReadAppend | FrameworkGL/Material.cs:97-174 | reading two blocks of lines is reading the first and then, unless it stopped or failed, the second |
| Materials.SkippedLineIsIrrelevant | FrameworkGL/Material.cs:100-101 | a comment or empty line anywhere in the file changes nothing |
| Materials.SecondMaterialIsIgnored | FrameworkGL/Material.cs:103-111 | once a name is set, a `newmtl ` line ends the read and nothing after it matters |
| Materials.ColourNeedsThreeNumbers | FrameworkGL/Material.cs:113-145 | a `Ka`, `Kd` or `Ks` line without exactly four pieces fails the whole read, naming its own key |
| Materials.AlphaTakesLastPiece | FrameworkGL/Material.cs:160-164 | `d -halo v` sets alpha to v: the flag is passed over |
| Materials.TexturePathIsConcatenated | FrameworkGL/Material.cs:167-172 | the texture path is the directory name followed directly by the file name, with no separator |
| Materials.UnknownLineIsIgnored | FrameworkGL/Material.cs:97-174 | a line that starts with none of the keys leaves the material unchanged |
| Materials.RepeatedKeyOverwrites | FrameworkGL/Material.cs:113-172 | of two lines setting the same key, the later wins and the earlier leaves no trace |
| Fonts.CsDiv | FrameworkGL/Font2D.cs:32-33 | C# division truncates toward zero: it agrees with floor division on non-negative operands, and a negative divisor negates the quotient of a non-negative dividend |
| Fonts.CsRem | FrameworkGL/Font2D.cs:46 | C# remainder completes the truncating quotient: a = (a / b) × b + a % b |
| Fonts.CsRemBounds | FrameworkGL/Font2D.cs:46-47 | the remainder is smaller than the divisor in size and has the sign of the dividend |
| Fonts.NewFont | FrameworkGL/Font2D.cs:26-41 | explicit sizes are used when both are given. Otherwise the sizes are texture width / cells per line and height / line count, truncated toward zero for either sign, so a negative grid dimension gives a size of 0 or less. That division throws exactly when a grid dimension is 0 |
| Fonts.CharacterBound | FrameworkGL/Font2D.cs:43-50 | the cell of code c is at ((c % perLine) × w, (c / perLine) × h) with size w × h, under C#'s truncating operators for any non-zero perLine (for a negative one, the rows run upward); it throws exactly when there are no cells per line |
| Fonts.NextInRowIsOneWidthRight | FrameworkGL/Font2D.cs:46-47 | the next code in the same row is one glyph width to the right, at the same height |
| Fonts.NextRowIsOneHeightDown | FrameworkGL/Font2D.cs:46-47 | the code one row further on is one glyph height below, in the same column |
| Fonts.CodesPastTheGridFallBelowIt | FrameworkGL/Font2D.cs:43-50 | the line count is never checked: codes past the grid give a cell below it instead of an error |
| Fonts.MeasureString | FrameworkGL/Font2D.cs:74-81 | the measured width is the number of code units × glyph width |
| Fonts.GlyphPosition | FrameworkGL/Font2D.cs:61 | the k-th glyph is placed k glyph widths right of the start, on the same line |
| Fonts.Layout | FrameworkGL/Font2D.cs:56-69 | one glyph per code unit, each clipped to its cell and placed by that rule; it fails exactly when the text is non-empty and there are no cells per line |
| Fonts.MeasureMatchesLayout | FrameworkGL/Font2D.cs:58-81 | the measured width is the offset just past the last glyph, and the first glyph is at the start |
| Sprites.Corners | FrameworkGL/Sprite.cs:86-97 | the four corners lie at the layer and span the sprite: two on the left edge x = 0, two on the right edge x = W, two at y = 0 and two at y = H |
| Sprites.CanvasData | FrameworkGL/Sprite.cs:86-99 | the canvas holds the corners (0,0,L), (0,H,L), (W,0,L), (W,H,L) with their texture coordinates and the indices 2,1,0,3,1,2, all below 4, and no normals or colours |
| Sprites.DeletePrevious | FrameworkGL/Sprite.cs:83-84 | an existing canvas is deleted and otherwise nothing is issued |
| Sprites.SetUpCanvas | FrameworkGL/Sprite.cs:86-100 | the new canvas holds the four corners, the given texture coordinates and the quad's indices; set-up raises only the texture-coordinate and index flags, and the calls are exactly its set-up calls |
| Sprites.Rebuild | FrameworkGL/Sprite.cs:82-101 | the calls are exactly the deletion of the previous canvas, if any, then the new canvas's set-up; the new canvas is indexed and textured |
| Sprites.NewSprite | FrameworkGL/Sprite.cs:64-80 | the sprite is placed at the area's corner with its size, rotation 0, scale 1, and a canvas showing the whole texture |
| Sprites.ClipToFullTexture | FrameworkGL/Sprite.cs:82-101 | only the canvas changes; it shows the whole texture with texture coordinates (0,1), (0,0), (1,1), (1,0), and the calls are exactly: delete the old canvas, then set up the new one, which is indexed and textured |
| Sprites.UpdateMesh | FrameworkGL/Sprite.cs:124-143 | only the canvas changes. Its texture coordinates are (p.x, s.y), (p.x, p.y), (s.x, s.y) and (s.x, p.y). The corners keep their place, and the calls are exactly: delete the old canvas, then set up the new one, which is indexed and textured |
| Sprites.UnitWindowIsFullTexture | FrameworkGL/Sprite.cs:124-143 | showing the window from (0,0) to (1,1) is showing the whole texture |
| Sprites.ClipEdges | FrameworkGL/Sprite.cs:112-122 | pixel edges are scaled by the texture's size; only the canvas changes; the calls are exactly: delete the old canvas, then set up the new one, which is indexed and textured |
| Sprites.ClipRect | FrameworkGL/Sprite.cs:107-109 | clipping to a rectangle is clipping to x, x + width, y + height and y, with both sums wrapped to 32-bit `int` |
| Sprites.ClipRectWrapsRightEdge | FrameworkGL/Sprite.cs:108 | a rectangle at `int.MaxValue` with width 1 gets its right edge at `int.MinValue` |
| Algebra.WrapInt32 | FrameworkGL/Sprite.cs:108 | a C# `int` result lies in the 32-bit range, differs from the exact value by a multiple of 2^32, and equals it when it fits |
| Sprites.FullEdgesAreUnitWindow | FrameworkGL/Sprite.cs:112-122 | pixel edges 0 to the texture's width and height scale to the unit window (0,0)-(1,1) |
| Sprites.FullRectIsFullTexture | FrameworkGL/Sprite.cs:107-122 | clipping to the whole texture in pixels shows the whole texture |
| Sprites.Draw | FrameworkGL/Sprite.cs:145-149 | the calls are exactly: bind the sprite's texture, the canvas's draw calls, bind texture 0 |
| Sprites.Delete | FrameworkGL/Sprite.cs:151-153 | the canvas is deleted |

## Left out

- `HUD.cs`, `Model.cs`, `InputManager.cs` and `LightSource.cs` are glue, a matrix product, unread dictionaries and a plain record, with no logic to state. `GameMain.cs` supplies only the frame time and the viewport, which are parameters here.
- Float numerics are left out. Vector, quaternion and matrix operations are uninterpreted terms, and scalars are exact reals without rounding or NaN. Conversions from `int` to `float` are exact.
- Shader version checking is left out: `Shader.IsSupported` parses the driver's version string, and here it is the `supported` parameter.
- File reading is left out: `AddShaderFile` and the `StreamReader` in `Material.FromFile`. The file's lines are the input.
- Driver status queries are left out. `GetShaderInfoLog`, `GetShader`, `GetProgramInfoLog` and `GetProgram` are not trace events; the status and log they return are parameters.
- `Console.WriteLine` in `GetVariableLocation` is left out.
- Texture loading is left out. A `Texture` is its name and its size, which is at least 1 pixel each way. The texture a material names is recorded by its path. `Texture.Bind` and `Texture.Unbind` are `BindTexture` trace events.
- Float division by a zero texture size in `Sprite.Clip` is therefore not modelled.
- `Font2D.Write` is modelled by its glyph layout (`Fonts.Layout`) only. Its shader writes, sprite draws and bind calls are not modelled.
- `Sprite.ModelMatrix` and the sprite's position, rotation and scale setters are left out. They are float matrix composition.
- `SetVariable(Vector3)` writes a `Vec3` term, which has no components to pass. The `SetVariable` overloads are one function taking the `UniformValue` to write.
- The byte contents of buffer uploads are left out. Only their sizes are in the trace.
- Fixed presets such as colour constants are left out.
- `Mesh.Delete` and `Mesh.AddIndices`, which `Sprite.cs` calls, are not part of `Mesh.cs`. They are modelled as a `DeleteMesh` trace event and as `AddIndex` on each value in turn.
- The unsigned 32-bit indices and the uint-to-int casts in `Mesh` are unbounded naturals, because no wrap-around is reachable from the code shown.
- `VertexUnit` equality is structural on the terms. `Equals` and `GetHashCode` are reference-based in the source and are not used by welding.
- Vector comparisons match the program only for vectors given by their components. Welding compares vertices with `==`, and loading drops a normal equal to `Vector3.Zero`. Here, two different terms that the program would compute to the same vector count as different: `Normalized(UnitY)` and `UnitY` are two vertices in the model and one in the program.
- A `map_Kd` line always succeeds here. In the program, an empty path makes the `Texture` constructor throw (FrameworkGL/Texture.cs:42-43). A path naming no file does too (FrameworkGL/Texture.cs:45-46).
- C# `int` arithmetic wraps around at 32 bits. `Sprite.Clip(Rectangle)` (FrameworkGL/Sprite.cs:108) wraps its two sums through `Algebra.WrapInt32`. The products and sums of `Font2D.CharacterBound` (FrameworkGL/Font2D.cs:46-47) and `Font2D.MeasureString` (FrameworkGL/Font2D.cs:74-81) are unbounded integers here, so huge character codes or strings do not wrap.
- `String.StartsWith(string)` compares under the current culture. Here it is an ordinal prefix test (`Text.StartsWith`); culture-specific comparison rules are not modelled.
- Fonts.CsDiv: states its quotient in closed form only for a non-negative dividend, with a divisor of either sign. `Fonts.CsRem` and `Fonts.CsRemBounds` fix a negative dividend.

## Findings

| source | as written | input that shows it | evidently intended | confidence | as-written member | corrected member |
|---|---|---|---|---|---|---|
| FrameworkGL/Mesh/Mesh.cs:69-72 | `Mesh(MeshData)` calls `LoadData` without creating the lists (and leaves the name at 0), so the first `vertices.Add` dereferences null | any `MeshData` holding one welded corner | create the five empty lists and set the name to -1 as `Mesh()` does, then load | not executed | Meshes.MeshFromDataAsWritten (with Meshes.MeshFromDataAsWrittenThrows) | Meshes.FromMeshData (with Meshes.FromMeshDataCreatesLists and Meshes.WeldThenLoadRoundTrip) |
