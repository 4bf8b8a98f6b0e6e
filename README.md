# A verified model of the GP1 Direct3D 11 rasterizer core

This project models the core of a small Direct3D 11 hardware rasterizer written in C++. It states and proves what that code does, over exact real arithmetic.

The core has five parts:

- **Value algebra** (`vectors.dfy`, `colors.dfy`): the Vector2/3/4 and ColorRGB types. The binary operators are functions on datatypes. The compound operators, `MaxToOne` and the writable `operator[]` are methods on small classes that change their fields in place.
- **Error hierarchy** (`errors.dfy`): `Error` and its namespaced subclasses, with `category()` and `what()` resolved as virtual calls. Also `utils::HandleThrowingFunction`.
- **GPU resource wrappers** (`samplers.dfy`, `textures.dfy`, `meshes.dfy`): move-only owners of COM handles.
  - The Direct3D device is an oracle (`devices.dfy`). It answers every call with an HRESULT and records the call in an ordered log.
  - Creation order, failure exits, moves and destructor releases are all stated in terms of that log.
- **Camera** (`cameras.dfy`): the accumulated yaw and pitch, moves, the perspective projection, and the per-frame keyboard and mouse dispatch. The matrix type lives in `matrices.dfy`.
- **Scene** (`scenes.dfy`): the per-frame upload of view × projection to every mesh, drawing every mesh in list order, and the two `Initialize` overrides.

Each C++ class whose methods update fields is a Dafny `class`. The C++ move constructor is `constructor MoveFrom`, move assignment is `method MoveAssign`, and the destructor is `method Destroy`. A ghost `alive` flag makes sure the destructor runs only once.

A C++ constructor that can throw becomes a static `New` method that returns `Result<T>`. What was thrown is a `Thrown` value. In particular, a failed buffer creation in `Mesh` throws `IntThrown(hr)`, the HRESULT as an int.

Parameters stand in for what the core calls but does not define (`MathEnv`):

- `PI`, `tanf` and `Lerpf`;
- the rotation and look-at builders of `Matrix`;
- the value a default-constructed `Matrix` holds.

The per-frame input is a parameter too: the elapsed time, the key snapshot and the relative mouse state. So is the surface `IMG_Load` returns.

## Model

| member | source | states |
|---|---|---|
| Vectors.Vector2Between | project/src/Structs.cpp:18-22 | the displacement from `from` to `to`: adding it to `from` gives `to` |
| Vectors.Vector3Between | project/src/Structs.cpp:145-150 | the same for Vector3 |
| Vectors.BetweenIsDifference | project/src/Structs.cpp:18-22 | both two-point constructors equal `to - from` |
| Vectors.FromVector4 | project/src/Structs.cpp:138-143 | Vector3(Vector4) drops w: widening the result again with w = 0 or w = 1 gives the input with that w |
| Vectors.SqrMagnitude2 | project/src/Structs.cpp:29-32 | the squared magnitude is the self dot product and never negative |
| Vectors.SqrMagnitude | project/src/Structs.cpp:157-160 | the same for Vector3 |
| Vectors.SqrMagnitude4 | project/src/Structs.cpp:323-326 | the same for Vector4 |
| Vectors.CrossIsOrthogonal | project/src/Structs.cpp:178-186 | Cross(a, b) has zero dot product with both a and b |
| Vectors.CrossIsAntiCommutative | project/src/Structs.cpp:54-57 | Cross(a, b) = -Cross(b, a) and Cross(a, a) = 0 in 3D; the 2D cross is anti-commutative and Cross2(v, v) = 0 |
| Vectors.ProjectPlusReject | project/src/Structs.cpp:188-196 | for Dot(v2, v2) ≠ 0, Project + Reject = v1, and the rejected part is orthogonal to v2 |
| Vectors.ReflectIsInvolution | project/src/Structs.cpp:198-201 | reflecting twice in a unit normal gives back the vector |
| Vectors.ReflectFlipsNormalComponent | project/src/Structs.cpp:198-201 | reflection in a unit normal negates the component along the normal |
| Vectors.ToPoint4 | project/src/Structs.cpp:203-206 | w = 1 and GetXYZ gives the vector back |
| Vectors.ToVector4 | project/src/Structs.cpp:208-211 | w = 0 and GetXYZ gives the vector back |
| Vectors.Vector4From | project/src/Structs.cpp:310-316 | Vector4(v, w) keeps v as its xyz and w as its w |
| Vectors.FourVectorRoundTrip | project/src/Structs.cpp:310-316 | GetXYZ and Vector3(Vector4) undo Vector4(v, w); Vector4(v, 1) and Vector4(v, 0) are ToPoint4 and ToVector4 |
| Vectors.GetXY3 | project/src/Structs.cpp:213-216 | GetXY returns components 0 and 1 |
| Vectors.GetXY4 | project/src/Structs.cpp:345-348 | Vector4::GetXY equals GetXY of its xyz part |
| Vectors.Dot4 | project/src/Structs.cpp:355-358 | the 4D dot product is the 3D dot product of the xyz parts plus w·w |
| Vectors.ScaleLeft | project/src/Structs.h:136-139 | scalar times vector equals vector times scalar |
| Vectors.AddNegIsZero | project/src/Structs.cpp:229-242 | a + (-a) is the zero vector, in 3D and 2D |
| Vectors.ComponentsRebuild | project/src/Structs.cpp:119-123 | reading components 0..n-1 through the const operator[] rebuilds the vector (also lines 287-296 and 398-409) |
| Vectors.Vector2Var.MulAssign | project/src/Structs.cpp:85-90 | `*=` leaves the value `old * scale` |
| Vectors.Vector2Var.DivAssign | project/src/Structs.cpp:92-97 | `/=` leaves `old / scale`, for a non-zero scale |
| Vectors.Vector2Var.SubAssign | project/src/Structs.cpp:99-104 | `-=` leaves `old - v` |
| Vectors.Vector2Var.AddAssign | project/src/Structs.cpp:106-111 | `+=` leaves `old + v` |
| Vectors.Vector2Var.SetAt | project/src/Structs.cpp:113-117 | writing through operator[] for index 0..1 sets that component and leaves the other one |
| Vectors.Vector3Var.MulAssign | project/src/Structs.cpp:244-250 | `*=` leaves `old * scale` |
| Vectors.Vector3Var.DivAssign | project/src/Structs.cpp:252-258 | `/=` leaves `old / scale`, for a non-zero scale |
| Vectors.Vector3Var.SubAssign | project/src/Structs.cpp:260-266 | `-=` leaves `old - v` |
| Vectors.Vector3Var.AddAssign | project/src/Structs.cpp:268-274 | `+=` leaves `old + v` |
| Vectors.Vector3Var.SetAt | project/src/Structs.cpp:276-285 | writing through operator[] for index 0..2 sets that component and leaves the others |
| Vectors.Vector4Var.AddAssign | project/src/Structs.cpp:376-383 | `+=` leaves `old + v` |
| Vectors.Vector4Var.SetAt | project/src/Structs.cpp:385-396 | writing through operator[] for index 0..3 sets that component and leaves the others |
| Colors.MaxChannel | project/src/ColorRGB.cpp:7 | the max is at least every channel and equals one of them |
| Colors.LerpIsChannelWise | project/src/ColorRGB.cpp:12-15 | each channel of the result depends only on the same channel of the two inputs |
| Colors.LerpEndpoints | project/src/ColorRGB.cpp:12-15 | when Lerpf returns its first argument at factor 0 and its second at factor 1, Lerp returns c1 at 0 and c2 at 1 |
| Colors.LerpIsAffine | project/src/ColorRGB.cpp:12-15 | with the affine Lerpf a + (b − a)·t, Lerp is the colour c1 + (c2 − c1)·t |
| Colors.MaxToOneKeepsBounded | project/src/ColorRGB.cpp:5-10 | a colour whose largest channel is at most 1 is unchanged |
| Colors.MaxToOneNormalizes | project/src/ColorRGB.cpp:7-9 | when the largest channel exceeds 1, every channel is divided by it; afterwards the largest channel is 1 and none exceeds 1 |
| Colors.MaxToOneIsIdempotent | project/src/ColorRGB.cpp:5-10 | applying MaxToOne twice equals applying it once |
| Colors.MaxToOneKeepsRatios | project/src/ColorRGB.cpp:9 | the result is the colour times one common factor in (0, 1] |
| Colors.ScaleCommutes | project/src/ColorRGB.h:35-38 | s * c equals c * s |
| Colors.ColorVar.MaxToOne | project/src/ColorRGB.cpp:5-10 | the in-place MaxToOne leaves exactly the normalised colour |
| Colors.ColorVar.AddAssign | project/src/ColorRGB.cpp:18-25 | `+=` leaves `old + c` |
| Colors.ColorVar.SubAssign | project/src/ColorRGB.cpp:32-39 | `-=` leaves `old - c` |
| Colors.ColorVar.MulAssign | project/src/ColorRGB.cpp:46-53 | `*=` by a colour leaves the channel-wise product |
| Colors.ColorVar.DivAssign | project/src/ColorRGB.cpp:60-67 | `/=` by a colour leaves the channel-wise quotient; every divisor channel must be non-zero |
| Colors.ColorVar.MulAssignScalar | project/src/ColorRGB.cpp:74-81 | `*=` by a scalar leaves `old * s` |
| Colors.ColorVar.DivAssignScalar | project/src/ColorRGB.cpp:88-95 | `/=` by a scalar leaves `old / s`, for a non-zero s |
| Errors.BaseOf | project/src/Error.h:32-307 | every class other than Error has a direct base one level closer to Error |
| Errors.CategoryClassesOwnCategory | project/src/Error.h:20-23 | Error and each category class declare category() and return their namespace's string (also lines 35-38, 56-59, 131-134, 161-164, 200-203, 221-224, 242-245) |
| Errors.LeavesInheritCategory | project/src/Error.h:41-47 | a leaf declares no category() and shares its base's namespace |
| Errors.CategoryByNamespace | project/src/Error.h:35-38 | category() is "ERR", "FILE_ERR", "FX_ERR", "TEX_ERR", "MESH_ERR", "SCENE_ERR", "RENDER_ERR" or "DX_INIT_ERR", by namespace, for every class |
| Errors.LeavesOwnWhat | project/src/Error.h:185-192 | each leaf declares what() and returns its own class name |
| Errors.CategoryClassesInheritWhat | project/src/Error.h:158-165 | a category class declares no what() and derives directly from Error |
| Errors.WhatByClass | project/src/Error.h:24-27 | every leaf's what() is its class name; Error and the category classes report "Error" |
| Errors.CreateFailsDifferOnlyInCategory | project/src/Error.h:62-69 | effect::CreateFail and mesh::CreateFail both report "CreateFail"; their categories are "FX_ERR" and "MESH_ERR" (also lines 167-174) |
| Errors.NamespaceCategoryIsInjective | project/src/Error.h:35-38 | no two namespaces share a category string |
| Errors.EffectLeavesDiffer | project/src/Error.h:62-122 | within namespace effect, the class name identifies the leaf |
| Errors.Dx11LeavesDiffer | project/src/Error.h:248-308 | within namespace dx11, the class name identifies the leaf |
| Errors.SmallNamespaceLeavesDiffer | project/src/Error.h:137-152 | within the other namespaces, the class name identifies the leaf |
| Errors.LeafReportIsUnique | project/src/Error.h:326 | two leaves that print the same category and what are the same class |
| Errors.Hex | project/src/Error.h:356 | std::hex output is non-empty and made of lower-case hexadecimal digits |
| Errors.HexRoundTrip | project/src/Error.h:356 | reading the printed hexadecimal digits back gives the number |
| Errors.HexHasNoLeadingZero | project/src/Error.h:356 | the printed digits start with '0' only for 0 |
| Errors.HandleThrowingFunction | project/src/Error.h:314-383 | returns true exactly when f threw, whatever it threw; prints nothing when f completed; prints "[category]: what" for a caught Error |
| Errors.HandledErrorReport | project/src/Error.h:321-329 | a caught leaf is printed with its namespace's category and its class name |
| Errors.HandledIntCodeReport | project/src/Error.h:351-359 | a caught int is printed as hexadecimal digits that read back as the code modulo 2^32 |
| Devices.ToUInt | project/src/Mesh.cpp:25 | a value stored in a UINT field is below 2^32, and is unchanged when it already fits |
| Devices.ReleaseAll | project/src/Sampler.cpp:89-110 | a destructor issues at most one release per handle field |
| Devices.ReleaseAll2 | project/src/Texture.cpp:81-92 | the releases of two fields are those of the first, then those of the second |
| Devices.ReleaseAll4 | project/src/Sampler.cpp:89-110 | the releases of four fields are issued in field order |
| Devices.ReleaseAllOnce | project/src/Sampler.cpp:89-110 | with no handle repeated, each live handle is released exactly once, a handle that is not held never is, and nothing but releases is issued |
| Devices.FirstFailure | project/src/Sampler.cpp:11-44 | the count of leading steps that succeed: every step before it succeeds and the step at it fails |
| Devices.FirstFailureIs | project/src/Sampler.cpp:11-44 | FirstFailure is the only count with that property |
| Devices.StopsAtFirstFailureIsFirstFailure | project/src/Sampler.cpp:11-44 | a constructor that stops at the first failing step attempts exactly FirstFailure + 1 steps when one fails, all of them otherwise, and finishes exactly when none fails |
| Devices.Device.Create | project/src/Texture.cpp:31 | a creation is logged, answered by the oracle, and hands out a fresh handle on success and null on failure |
| Devices.Device.ReleaseIfLive | project/src/Texture.cpp:83-86 | `if (p) p->Release()` logs a release only for a live handle |
| Devices.Device.Issue | project/src/Mesh.cpp:106 | a call whose result is ignored is logged and nothing else changes |
| Samplers.FromOrdinal | project/src/Sampler.cpp:146 | bit_cast back to FilterMode inverts the ordinal |
| Samplers.NextCycles | project/src/Sampler.cpp:143-148 | incrementing walks point → linear → anisotropic → point, never reaches the count sentinel, and returns to the start after three steps |
| Samplers.Sampler.constructor | project/src/Sampler.h:28-35 | a default sampler has all handles null and mode point |
| Samplers.Sampler.New | project/src/Sampler.cpp:9-45 | looks up "gSampler", then creates the point, linear and anisotropic states in that order; the first failure throws InvalidSampler and nothing later is attempted; on success the four handles are fresh and distinct and the mode is point |
| Samplers.Sampler.MoveFrom | project/src/Sampler.cpp:47-65 | the new sampler takes all four handles and the source's are nulled; the mode is not carried over |
| Samplers.Sampler.MoveAssign | project/src/Sampler.cpp:67-87 | a self-move changes nothing; otherwise the four handles move over and are nulled in the source, and both keep their own modes |
| Samplers.Sampler.Destroy | project/src/Sampler.cpp:89-110 | releases each non-null handle in field order |
| Samplers.DestroyReleasesOnce | project/src/Sampler.cpp:89-110 | the destructor of a valid sampler releases each of its live handles exactly once, a handle it does not hold never, and issues nothing but releases |
| Samplers.Sampler.IncrementFilterMode | project/src/Sampler.cpp:143-148 | the mode becomes (mode + 1) % count |
| Samplers.Sampler.Update | project/src/Sampler.cpp:119-141 | binds to slot 0 the state of the current mode, and does nothing for the sentinel |
| Samplers.Sampler.Cycle | project/src/Sampler.cpp:112-117 | advances the mode, keeps it off the sentinel, and binds to slot 0 exactly the state of the new mode |
| Textures.UploadCoversSurface | project/src/Texture.cpp:14-29 | for sizes that fit a UINT, the texture has the surface's width and height, 1 mip and 1 slice in the view's format; the row pitch is the surface pitch and the slice pitch is h × pitch |
| Textures.Texture.constructor | project/src/Texture.h:23-24 | a default texture holds two null handles |
| Textures.Texture.New | project/src/Texture.cpp:8-49 | a failed texture creation throws ResourceCreateFail without freeing the surface or creating a view; otherwise the surface is freed, then the view is created, and a failure there throws ResourceViewCreateFail |
| Textures.Texture.MoveFrom | project/src/Texture.cpp:51-63 | takes both handles and nulls them in the source |
| Textures.Texture.MoveAssign | project/src/Texture.cpp:65-79 | a self-move changes nothing; otherwise both handles move over and are nulled in the source |
| Textures.Texture.Destroy | project/src/Texture.cpp:81-92 | releases the view, then the texture, each only when not null |
| Textures.DestroyReleasesViewFirst | project/src/Texture.cpp:81-92 | two live handles are released view first, each exactly once |
| Textures.Texture.GetSrv | project/src/Texture.cpp:94-97 | returns the stored view |
| Meshes.PassCallsShape | project/src/Mesh.cpp:122-126 | pass i contributes its Apply at position 2i and a DrawIndexed(indexCount, 0, 0) right after it |
| Meshes.OneDrawPerPass | project/src/Mesh.cpp:122-126 | the pass loop issues exactly one indexed draw per pass |
| Meshes.EachPassAppliedOnce | project/src/Mesh.cpp:122-126 | every pass below the count is applied exactly once, and no other pass is |
| Meshes.PassCallsOnlyApplyAndDraw | project/src/Mesh.cpp:122-126 | the loop issues nothing but pass applications and indexed draws |
| Meshes.DrawSetsUpOnce | project/src/Mesh.cpp:103-127 | one Draw sets the topology exactly once, whatever the number of passes |
| Meshes.Mesh.New | project/src/Mesh.cpp:7-53 | empty vertices or indices throw BufferIsEmpty before any device call; otherwise the vertex buffer is created before the index buffer, the first failure throws its HRESULT as an int, and on success the counts are the input sizes as uint32 and the world matrix is the identity |
| Meshes.CountsAndWidths | project/src/Mesh.cpp:19-25 | when sizes fit, the stored counts are the input sizes and the byte widths are 32 × vertices and 4 × indices (also line 41) |
| Meshes.WideVertexBufferWraps | project/src/Mesh.cpp:25 | the UINT byte width wraps to 0 at 2^27 vertices |
| Meshes.Mesh.MoveFrom | project/src/Mesh.cpp:55-67 | copies the counts, takes both buffers and nulls them in the source, and copies the effect; the world matrix is the identity of the member initializer, not the source's |
| Meshes.Mesh.MoveAssign | project/src/Mesh.cpp:69-83 | no self-move test: the source's buffers end up null even when source and target are the same mesh; otherwise the buffers move over and the target's old ones are dropped unreleased |
| Meshes.Mesh.Destroy | project/src/Mesh.cpp:85-96 | releases the vertex buffer, then the index buffer, each only when not null |
| Meshes.Mesh.SetWorldViewProjection | project/src/Mesh.cpp:98-101 | uploads world × wvp to the mesh's effect |
| Meshes.IdentityWorldUploadsWvp | project/src/Mesh.cpp:100 | with an identity world matrix the uploaded matrix is wvp itself |
| Meshes.Mesh.Draw | project/src/Mesh.cpp:103-127 | sets topology, input layout, vertex buffer and index buffer, then applies each pass and issues one indexed draw of every index, pass by pass |
| Meshes.Mesh.GetVertexBuffer | project/src/Mesh.cpp:129-132 | returns the vertex buffer |
| Meshes.Mesh.GetIndexBuffer | project/src/Mesh.cpp:134-137 | returns the index buffer |
| Meshes.Mesh.GetEffect | project/src/Mesh.cpp:139-142 | returns the effect |
| Meshes.Mesh.GetVertexCount | project/src/Mesh.cpp:144-147 | returns the stored vertex count |
| Meshes.Mesh.GetIndexCount | project/src/Mesh.cpp:149-152 | returns the stored index count |
| Matrices.IdentityIsNeutral | project/src/Mesh.cpp:100 | the identity is neutral on both sides of the matrix product |
| Matrices.TransformScales | project/src/Camera.cpp:89-91 | transforming a scaled direction scales the transformed direction |
| Cameras.Camera.Default | project/src/Camera.h:39-52 | a default camera sits at the origin looking along +Z with a 60 degree lens and zero aspect, near and far |
| Cameras.Camera.constructor | project/src/Camera.cpp:6-14 | stores origin, aspect, near and far, then sets the lens from the angle in degrees; aspect, near and far default to 4/3, 0.1 and 100 (Camera.h lines 13-17) |
| Cameras.ConstructorStoresLens | project/src/Camera.cpp:6-14 | after construction the angle is degrees/180·PI and fov is tan of half of it; no rotation yet |
| Cameras.PerspectiveLayout | project/src/Camera.cpp:22-32 | for far ≠ near: (0,0) = 1/(aspect·fov), (1,1) = 1/fov, (2,2) = far/(far−near), (2,3) = 1, (3,2) = −far·near/(far−near), and every other entry is 0 |
| Cameras.AspectScalesOnlyHorizontal | project/src/Camera.cpp:27 | scaling the aspect by k divides entry (0,0) by k and changes no other entry |
| Cameras.DepthRange | project/src/Camera.cpp:24-25 | a·near + b = 0 and a·far + b = far, so depth runs from 0 at near to 1 at far |
| Cameras.Camera.SetPos | project/src/Camera.cpp:60-63 | sets the origin and nothing else |
| Cameras.Camera.SetFovAngleDegrees | project/src/Camera.cpp:65-69 | the angle becomes degrees/180·PI and fov the tangent of half of it |
| Cameras.Camera.Move | project/src/Camera.cpp:142-145 | adds the change to the origin and nothing else |
| Cameras.MovesAccumulate | project/src/Camera.cpp:142-145 | two moves are one move by their sum, and a move is undone by its negation |
| Cameras.Camera.Rotate | project/src/Camera.cpp:147-154 | adds yaw and pitch to the totals and recomputes forward from them |
| Cameras.RotationsAccumulate | project/src/Camera.cpp:147-154 | two rotations are one rotation by the summed angles |
| Cameras.RotateUsesTotalsOnly | project/src/Camera.cpp:152-153 | the new forward depends on the totals alone, and nothing but totals and forward changes |
| Cameras.Camera.Update | project/src/Camera.cpp:72-140 | the keyboard branches, then the mouse branches, then the view matrix |
| Cameras.UpdateRebuildsViewOnly | project/src/Camera.cpp:139 | the frame ends with the view built from the final origin and forward, and the lens is untouched |
| Cameras.Camera.UpdateFromKeyboard | project/src/Camera.cpp:78-114 | the speed multiplier, then one optional move per key group in source order |
| Cameras.Camera.MoveGroup | project/src/Camera.cpp:87-92 | a held group moves the origin by its direction × dt × multiplier, turned by the current rotations; an unheld one changes nothing |
| Cameras.KeyboardAppliesKeyMoves | project/src/Camera.cpp:87-114 | the keyboard half moves the origin by the list of key moves, applied in order |
| Cameras.OneMovePerKeyGroup | project/src/Camera.cpp:87-114 | each held key group issues exactly one move |
| Cameras.MovesFollowHeldGroups | project/src/Camera.cpp:87-114 | the moves depend on the keyboard only through which groups are held |
| Cameras.KeyMovesScale | project/src/Camera.cpp:83-86 | every move at multiplier 5 is five times the move at multiplier 1 |
| Cameras.ShiftMovesFiveTimesFaster | project/src/Camera.cpp:83-86 | holding left shift with the same other keys makes every keyboard move five times as long |
| Cameras.OnlyVerticalMoves | project/src/Camera.cpp:107-114 | with no horizontal key held, only the SPACE and C moves remain |
| Cameras.VerticalStepsStayVertical | project/src/Camera.cpp:109 | a SPACE or C step has no X or Z part (also line 113) |
| Cameras.VerticalKeysIgnoreOrientation | project/src/Camera.cpp:107-114 | SPACE and C move along world ±Y whatever the yaw and pitch |
| Cameras.ForwardAndBackCancel | project/src/Camera.cpp:87-98 | holding forward and back together, and nothing else, leaves the camera where it was |
| Cameras.Camera.UpdateFromMouse | project/src/Camera.cpp:116-136 | the right-drag, left-drag and both-buttons branches in source order |
| Cameras.RightDragRotates | project/src/Camera.cpp:120-123 | the right button alone rotates by dx and −dy scaled by radians and sensitivity, and does not move |
| Cameras.LeftDragTurnsAndDollies | project/src/Camera.cpp:125-131 | the left button alone turns the yaw only, then dollies along the new view direction |
| Cameras.LeftDragAlone | project/src/Camera.cpp:120-136 | with the left button alone, only the left-drag branch fires |
| Cameras.BothButtonsPan | project/src/Camera.cpp:133-136 | with both buttons down, neither single-button branch fires and the camera pans along the yawed Y without turning |
| Cameras.OtherButtonsAreIgnored | project/src/Camera.cpp:120-136 | any other button state changes nothing |
| Scenes.Scene.constructor | project/src/Scene.h:19-20 | a new scene has a default camera and no meshes |
| Scenes.Scene.Update | project/src/Scene.cpp:7-15 | the camera updates first; then every mesh, in list order, uploads world × (view × projection) with the updated camera; the mesh list is unchanged |
| Scenes.Scene.UploadToMeshes | project/src/Scene.cpp:11-14 | the mesh loop of Update uploads to every mesh in list order |
| Scenes.SameMatrixForEveryMesh | project/src/Scene.cpp:11-14 | meshes with identity world matrices all receive the very same matrix |
| Scenes.Scene.Draw | project/src/Scene.cpp:17-28 | an empty scene throws SceneIsEmpty before any device call; otherwise every mesh draws itself, in list order; the mesh list is unchanged |
| Scenes.Scene.DrawMeshes | project/src/Scene.cpp:24-27 | the mesh loop of Draw issues every mesh's draw calls in list order |
| Scenes.DrawsInListOrder | project/src/Scene.cpp:24-27 | the calls of mesh i come after those of every earlier mesh and before those of every later one |
| Scenes.EachMeshDrawnOnce | project/src/Scene.cpp:24-27 | a frame issues exactly one input-assembler set-up per mesh |
| Scenes.Scene.InitializeBase | project/src/Scene.cpp:30-32 | the base Initialize completes and changes nothing |
| Scenes.Scene.Initialize | project/src/Scene.cpp:34-46 | replaces the camera, then appends exactly one fresh mesh with 3 vertices and 3 indices, or throws the failed HRESULT and leaves the list as it was (also lines 48-81) |
| Scenes.Scene.PushMesh | project/src/Scene.cpp:45 | push_back of a temporary mesh: the new element owns the buffers and the temporary's destruction releases nothing |
| Scenes.SceneTriangleBuffers | project/src/Scene.cpp:38-45 | both scenes upload 3 vertices and the indices [0, 1, 2], each naming a vertex, in buffers of 96 and 12 bytes |
| Scenes.SceneCameraLens | project/src/Scene.cpp:36 | the scene camera sits at the scene's origin with a 45 degree lens, near 0.1 and far 100, and its projection maps near to depth 0 and far to 1 |

## Left out

- Magnitude, Normalize and Normalized of Vector2/3/4 are not modelled: they need a square root, and they divide by the magnitude unguarded.
- `operator==` with epsilon comparison (`AreEqual`) is not modelled; the model has exact equality over the reals.
- Floating point in general: all arithmetic is exact over `real`. Division by zero becomes a precondition: the colour and vector divisors, and far ≠ near, aspect ≠ 0 and fov ≠ 0 for the projection.
- `PI`, `tanf`, `Lerpf`, the rotation and look-at builders, and the default value of `Matrix` are parameters (`MathEnv`). Matrix.h and MathHelpers.h are not part of this model. The matrix product and the row-vector transform are written out as the standard ones.
- Console output: the colours and the text printed by `Sampler::Update` are not modelled. `HandleThrowingFunction`'s printed line is modelled without its colours.
- SDL: keyboard and mouse polling, the timer, and `IMG_Load` become the `Input` and `Surface` parameters. The unchecked null surface is assumed away: a surface always comes in.
- Effect.cpp is not part of this model. A mesh's effect is an opaque value: its identity, its technique, its number of passes and its input layout. `Mesh.New` takes it as a parameter, where the source builds it from PosCol3D.fx in the member initializer.
- Meshes.Mesh.MoveFrom: the effect's defaulted move is a plain copy, so the moved-from effect still refers to the same D3DX effect. Releasing that effect twice is not modelled.
- Renderer.cpp and main.cpp (device, swap chain, render targets, the window and the event loop) are not part of this model.
- The 5-argument Mesh constructor and `VehicleScene` are declared in the headers but are not defined in the .cpp files. `BasicTriangleScene` is defined in Scene.cpp but not declared in Scene.h. The model follows the .cpp files: the 3-argument constructor, and the two `Initialize` overrides that Scene.cpp defines.
- `Scene::m_LightDir` and `m_F2Held` are never used by the core, so they are not modelled.
- Scenes.Scene.Update computes view × projection once before the loop. The source recomputes it for each mesh; nothing in the loop changes the camera, so the uploads are the same.
- Scenes.Scene.Initialize replaces the camera with a new object. The source move-assigns a temporary into the member, so the two differ only in object identity.
- Samplers.Sampler.Update and Samplers.Sampler.Cycle require a live sampler variable. The source calls `SetSampler` through `m_pSamplerVariable` unguarded, so on a default-constructed or moved-from sampler it dereferences null; that undefined behaviour is not modelled.
- `Mesh() = default` is not modelled: `Effect` declares no default constructor, so the defaulted Mesh default constructor is implicitly deleted and no object can be made with it.
- Scenes.Scene.PushMesh: the vector's reallocation, which move-constructs the old elements into new storage, is not modelled; the list is a `seq` of references.
- Scenes.Scene.InitializeBase: `Scene::Initialize` is pure virtual with an empty body; only that body is modelled.
- The Camera getters GetPosition, GetFov, GetFovAngle, GetNear and GetFar just return a field. The model reads the field directly; only GetViewMatrix and GetProjectionMatrix are functions.
- Samplers.Sampler.New: `GetVariableByName(...)->AsSampler()` is treated as a device call whose failure yields null, the case the source's null check handles.
- Sampler, texture and mesh constructors leak what they created before a later step throws. The model logs no release on those paths; it does not track the leaked handles further.
- Integer width: `ToUInt` models the UINT conversions of counts, byte widths and pitches. The int-to-float conversion of mouse motion, and a possible `-INT_MIN` overflow, are not modelled.
