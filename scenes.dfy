/** Scene of project/src/Scene.cpp: a camera and the meshes it draws. Each frame the camera
    reads the input and every mesh gets the camera's view-projection matrix; drawing draws
    every mesh in list order, and a scene without meshes refuses to draw. */
module Scenes {
  import opened Vectors
  import opened Matrices
  import opened Errors
  import opened Devices
  import opened Meshes
  import opened Cameras
  import Colors

  /** The dynamic class of a scene, which decides what its virtual Initialize does. */
  datatype SceneKind = BasicTriangleScene | CameraAndTexturesScene

  /** Both scenes place one triangle: the three corners in order. */
  const TriangleIndices: seq<nat> := [0, 1, 2]

  /** A vertex given by position and colour only; its uv is value-initialised. */
  function ColoredVertex(position: Vector3, color: Colors.ColorRGB): Vertex
  {
    Vertex(position, color, Vector2(0.0, 0.0))
  }

  /** The triangle of BasicTriangleScene: red on top, blue right, green left, at z = 0.5. */
  const BasicTriangleVertices: seq<Vertex> := [
    ColoredVertex(Vector3(0.0, 0.5, 0.5), Colors.ColorRGB(1.0, 0.0, 0.0)),
    ColoredVertex(Vector3(0.5, -0.5, 0.5), Colors.ColorRGB(0.0, 0.0, 1.0)),
    ColoredVertex(Vector3(-0.5, -0.5, 0.5), Colors.ColorRGB(0.0, 1.0, 0.0))
  ]

  /** The triangle of CameraAndTexturesScene: the same colours, six units wide, at z = 2. */
  const CameraAndTexturesVertices: seq<Vertex> := [
    ColoredVertex(Vector3(0.0, 3.0, 2.0), Colors.ColorRGB(1.0, 0.0, 0.0)),
    ColoredVertex(Vector3(3.0, -3.0, 2.0), Colors.ColorRGB(0.0, 0.0, 1.0)),
    ColoredVertex(Vector3(-3.0, -3.0, 2.0), Colors.ColorRGB(0.0, 1.0, 0.0))
  ]

  function VerticesFor(kind: SceneKind): seq<Vertex>
  {
    match kind
    case BasicTriangleScene => BasicTriangleVertices
    case CameraAndTexturesScene => CameraAndTexturesVertices
  }

  function CameraOriginFor(kind: SceneKind): Vector3
  {
    match kind
    case BasicTriangleScene => Vector3(0.0, 0.0, -1.0)
    case CameraAndTexturesScene => Vector3(0.0, 0.0, -10.0)
  }

  /** The camera both Initialize overrides build: 45 degrees, the given aspect ratio, and
      Camera's default near (0.1) and far (100) planes. */
  function SceneCamera(env: MathEnv, kind: SceneKind, aspectRatio: real): CameraState
  {
    NewCameraState(env, CameraOriginFor(kind), 45.0, aspectRatio, 0.1, 100.0)
  }

  /** The upload one mesh's SetWorldViewProjection makes. */
  function UploadOf(mesh: Mesh, wvp: Matrix): Call
    reads mesh
  {
    SetWorldViewProjectionMatrix(mesh.effect.id, Mul(mesh.world, wvp))
  }

  /** The uploads of Update's mesh loop, in list order. */
  function Uploads(meshes: seq<Mesh>, wvp: Matrix): (calls: seq<Call>)
    reads meshes
  {
    seq(|meshes|, j requires 0 <= j < |meshes| reads meshes => UploadOf(meshes[j], wvp))
  }

  /** Each mesh's own draw calls, in list order. */
  function CallsOf(meshes: seq<Mesh>): (calls: seq<seq<Call>>)
    reads meshes
  {
    seq(|meshes|, j requires 0 <= j < |meshes| reads meshes => meshes[j].DrawCalls())
  }

  function Flatten(calls: seq<seq<Call>>): seq<Call>
  {
    if calls == [] then [] else Flatten(calls[..|calls| - 1]) + calls[|calls| - 1]
  }

  /** The calls of Draw's mesh loop: every mesh's own draw calls, in list order. */
  function AllDraws(meshes: seq<Mesh>): seq<Call>
    reads meshes
  {
    Flatten(CallsOf(meshes))
  }

  lemma {:induction false} FlattenConcat(a: seq<seq<Call>>, b: seq<seq<Call>>)
    ensures Flatten(a + b) == Flatten(a) + Flatten(b)
    decreases |b|
  {
    if b == [] {
      assert a + b == a;
    } else {
      var b' := b[..|b| - 1];
      assert (a + b)[..|a + b| - 1] == a + b';
      assert (a + b)[|a + b| - 1] == b[|b| - 1];
      FlattenConcat(a, b');
    }
  }

  /** Drawing is in list order: the calls of mesh i come after those of every earlier mesh
      and before those of every later one. */
  lemma DrawsInListOrder(meshes: seq<Mesh>, i: nat)
    requires i < |meshes|
    ensures AllDraws(meshes) == AllDraws(meshes[..i]) + meshes[i].DrawCalls() + AllDraws(meshes[i + 1..])
  {
    var calls := CallsOf(meshes);
    var single := [meshes[i].DrawCalls()];
    assert calls == CallsOf(meshes[..i]) + single + CallsOf(meshes[i + 1..]);
    FlattenConcat(CallsOf(meshes[..i]) + single, CallsOf(meshes[i + 1..]));
    FlattenConcat(CallsOf(meshes[..i]), single);
    assert single[..0] == [];
  }

  lemma {:induction false} FlattenCountsSetups(calls: seq<seq<Call>>)
    requires forall j :: 0 <= j < |calls| ==> Occurrences(calls[j], TopologySetup) == 1
    ensures Occurrences(Flatten(calls), TopologySetup) == |calls|
  {
    if calls != [] {
      var prev := calls[..|calls| - 1];
      FlattenCountsSetups(prev);
      OccurrencesConcat(Flatten(prev), calls[|calls| - 1], TopologySetup);
    }
  }

  /** Every mesh is drawn exactly once: the frame holds one input-assembler set-up per mesh. */
  lemma EachMeshDrawnOnce(meshes: seq<Mesh>)
    ensures Occurrences(AllDraws(meshes), TopologySetup) == |meshes|
  {
    var calls := CallsOf(meshes);
    forall j | 0 <= j < |calls|
      ensures Occurrences(calls[j], TopologySetup) == 1
    {
      var m := meshes[j];
      DrawSetsUpOnce(m.effect, m.vertexBuffer, m.indexBuffer, m.indexCount);
    }
    FlattenCountsSetups(calls);
  }

  /** Meshes whose world matrix is still the identity (no source path changes it) all
      receive the very same matrix: view times projection. */
  lemma SameMatrixForEveryMesh(meshes: seq<Mesh>, wvp: Matrix)
    requires forall j :: 0 <= j < |meshes| ==> meshes[j].world == Identity
    ensures |Uploads(meshes, wvp)| == |meshes|
    ensures forall j :: 0 <= j < |meshes| ==>
              Uploads(meshes, wvp)[j] == SetWorldViewProjectionMatrix(meshes[j].effect.id, wvp)
  {
    IdentityWorldUploadsWvp(wvp);
  }

  /** Both scenes upload one triangle: three vertices, every index naming one of them, and
      buffers of 96 and 12 bytes. */
  lemma SceneTriangleBuffers(kind: SceneKind)
    ensures |VerticesFor(kind)| == 3 && |TriangleIndices| == 3
    ensures forall k :: k in TriangleIndices ==> k < |VerticesFor(kind)|
    ensures BufferSteps(VerticesFor(kind), TriangleIndices)[0].bufferDesc.byteWidth == 96
    ensures BufferSteps(VerticesFor(kind), TriangleIndices)[1].bufferDesc.byteWidth == 12
  {
    CountsAndWidths(VerticesFor(kind), TriangleIndices);
  }

  /** The scene camera sits at the scene's origin with a 45 degree lens and near/far planes
      0.1 and 100; its projection maps the near plane to depth 0 and the far plane to 1. */
  lemma SceneCameraLens(env: MathEnv, kind: SceneKind, aspectRatio: real)
    requires aspectRatio != 0.0 && env.tan(45.0 / 180.0 * env.pi * 0.5) != 0.0
    ensures var s := SceneCamera(env, kind, aspectRatio);
            && s.origin == CameraOriginFor(kind) && s.aspectRatio == aspectRatio
            && s.near == 0.1 && s.far == 100.0 && s.fovAngle == 45.0 / 180.0 * env.pi
    ensures var s := SceneCamera(env, kind, aspectRatio);
            var p := Perspective(aspectRatio, s.fov, s.near, s.far);
            && 0.1 * Entry(p, 2, 2) + Entry(p, 3, 2) == 0.0
            && 100.0 * Entry(p, 2, 2) + Entry(p, 3, 2) == 100.0
  {
    var s := SceneCamera(env, kind, aspectRatio);
    ConstructorStoresLens(env, CameraOriginFor(kind), 45.0, aspectRatio, 0.1, 100.0);
    PerspectiveLayout(aspectRatio, s.fov, 0.1, 100.0);
    DepthRange(0.1, 100.0);
  }

  class Scene {
    const kind: SceneKind
    var camera: Camera
    var meshes: seq<Mesh>

    /** Scene() = default: a default camera and no meshes. */
    constructor (env: MathEnv, kind: SceneKind)
      ensures this.kind == kind && meshes == [] && fresh(camera)
      ensures camera.State() == CameraState(Zero3, UnitZ, 60.0 / 180.0 * env.pi,
                                            env.tan(60.0 / 180.0 * env.pi * 0.5),
                                            0.0, 0.0, 0.0, 0.0, 0.0, env.defaultMatrix)
    {
      this.kind := kind;
      camera := new Camera.Default(env);
      meshes := [];
    }

    /** Update: the camera reads the frame's input first; then every mesh, in list order,
        uploads its world matrix times the camera's view times its projection. (The source
        recomputes view times projection for each mesh; nothing in the loop changes the
        camera, so it is computed once here.) */
    method Update(env: MathEnv, device: Device, input: Input)
      requires camera.far != camera.near && camera.aspectRatio != 0.0 && camera.fov != 0.0
      modifies camera, device
      ensures camera.State() == UpdateSpec(env, old(camera.State()), input)
      ensures camera.far != camera.near && camera.aspectRatio != 0.0 && camera.fov != 0.0
      ensures device.log == old(device.log) + Uploads(meshes, Mul(camera.view, camera.GetProjectionMatrix()))
      ensures device.nextId == old(device.nextId)
      ensures meshes == old(meshes)
    {
      ghost var before := camera.State();
      camera.Update(env, input);
      UpdateRebuildsViewOnly(env, before, input);
      UploadToMeshes(device, Mul(camera.GetViewMatrix(), camera.GetProjectionMatrix()));
    }

    /** The mesh loop of Update: SetWorldViewProjection(wvp) on every mesh, in list order. */
    method UploadToMeshes(device: Device, wvp: Matrix)
      modifies device
      ensures device.log == old(device.log) + Uploads(meshes, wvp)
      ensures device.nextId == old(device.nextId)
    {
      ghost var uploads := Uploads(meshes, wvp);
      var i := 0;
      while i < |meshes|
        invariant 0 <= i <= |meshes|
        invariant device.log == old(device.log) + uploads[..i]
        invariant device.nextId == old(device.nextId)
      {
        meshes[i].SetWorldViewProjection(device, wvp);
        assert UploadOf(meshes[i], wvp) == uploads[i];
        assert uploads[..i + 1] == uploads[..i] + [uploads[i]];
        i := i + 1;
      }
      assert uploads[..|meshes|] == uploads;
    }

    /** Draw: an empty scene throws SceneIsEmpty before any device call; otherwise every mesh
        draws itself, in list order. */
    method Draw(device: Device) returns (c: Completion)
      modifies device
      ensures meshes == [] ==> c == Exceptional(Raised(SceneIsEmpty)) && device.log == old(device.log)
      ensures meshes != [] ==> c == Normal && device.log == old(device.log) + AllDraws(meshes)
      ensures device.nextId == old(device.nextId)
      ensures meshes == old(meshes)
    {
      if |meshes| == 0 {
        return Exceptional(Raised(SceneIsEmpty));
      }
      DrawMeshes(device);
      c := Normal;
    }

    /** The mesh loop of Draw: every mesh draws itself, in list order. */
    method DrawMeshes(device: Device)
      modifies device
      ensures device.log == old(device.log) + AllDraws(meshes)
      ensures device.nextId == old(device.nextId)
    {
      ghost var calls := CallsOf(meshes);
      var i := 0;
      while i < |meshes|
        invariant 0 <= i <= |meshes|
        invariant device.log == old(device.log) + Flatten(calls[..i])
        invariant device.nextId == old(device.nextId)
      {
        meshes[i].Draw(device);
        assert meshes[i].DrawCalls() == calls[i];
        assert calls[..i + 1][..i] == calls[..i];
        i := i + 1;
      }
      assert calls[..|meshes|] == calls;
    }

    /** The base Scene::Initialize: its body is empty, so it completes and changes nothing. */
    method InitializeBase(device: Device, aspectRatio: real) returns (c: Completion)
      ensures c == Normal
    {
      c := Normal;
    }

    /** The virtual Initialize of both derived scenes: replace the camera with one at the
        scene's origin, then push back a mesh made from the scene's triangle. The camera is
        replaced even when the mesh constructor then throws. */
    method Initialize(env: MathEnv, device: Device, effect: Effect, aspectRatio: real) returns (c: Completion)
      modifies this, device
      ensures fresh(camera) && camera.State() == SceneCamera(env, kind, aspectRatio)
      ensures var m := |device.log| - |old(device.log)|;
              var steps := BufferSteps(VerticesFor(kind), TriangleIndices);
              && StopsAtFirstFailure(device.answer, |old(device.log)|, steps, m, c.Normal?)
              && device.log == old(device.log) + steps[..m]
              && (c.Exceptional? ==> c.thrown == IntThrown(device.answer(|old(device.log)| + m - 1, steps[m - 1])))
      ensures c.Exceptional? ==> meshes == old(meshes)
      ensures c.Normal? ==> && |meshes| == |old(meshes)| + 1 && meshes[..|old(meshes)|] == old(meshes)
                            && IsNewMesh(meshes[|old(meshes)|], effect, old(device.nextId), 3, 3)
                            && fresh(meshes[|old(meshes)|])
    {
      match kind
      case BasicTriangleScene =>
        camera := new Camera(env, Vector3(0.0, 0.0, -1.0), 45.0, aspectRatio);
        c := PushMesh(device, effect, BasicTriangleVertices, TriangleIndices);
      case CameraAndTexturesScene =>
        camera := new Camera(env, Vector3(0.0, 0.0, -10.0), 45.0, aspectRatio);
        c := PushMesh(device, effect, CameraAndTexturesVertices, TriangleIndices);
    }

    /** m_Meshes.push_back(Mesh(pDevice, vertices, indices)): the temporary mesh is built, moved
        into a new element at the back of the list, and then destroyed; its buffers were
        nulled by the move, so its destruction releases nothing. */
    method PushMesh(device: Device, effect: Effect, vertices: seq<Vertex>, indices: seq<nat>)
      returns (c: Completion)
      requires |vertices| > 0 && |indices| > 0
      modifies this, device
      ensures camera == old(camera)
      ensures var m := |device.log| - |old(device.log)|;
              var steps := BufferSteps(vertices, indices);
              && StopsAtFirstFailure(device.answer, |old(device.log)|, steps, m, c.Normal?)
              && device.log == old(device.log) + steps[..m]
              && (c.Exceptional? ==> c.thrown == IntThrown(device.answer(|old(device.log)| + m - 1, steps[m - 1])))
      ensures c.Exceptional? ==> meshes == old(meshes)
      ensures c.Normal? ==> && |meshes| == |old(meshes)| + 1 && meshes[..|old(meshes)|] == old(meshes)
                            && IsNewMesh(meshes[|old(meshes)|], effect, old(device.nextId),
                                         ToUInt(|vertices|), ToUInt(|indices|))
                            && fresh(meshes[|old(meshes)|])
    {
      var r := Mesh.New(device, effect, vertices, indices);
      if r.Threw? {
        return Exceptional(r.thrown);
      }
      var temporary := r.value;
      var element := new Mesh.MoveFrom(temporary);
      temporary.Destroy(device);
      ReleaseAll2(Null, Null);
      meshes := meshes + [element];
      c := Normal;
    }
  }

  /** A freshly pushed mesh: the given counts, the scene's effect, an identity world matrix,
      and the two buffers created from device id `id` on. */
  ghost predicate IsNewMesh(mesh: Mesh, effect: Effect, id: nat, vertexCount: nat, indexCount: nat)
    reads mesh
  {
    && mesh.Valid() && mesh.alive
    && mesh.vertexCount == vertexCount && mesh.indexCount == indexCount
    && mesh.effect == effect && mesh.world == Identity
    && mesh.Handles() == [Live(id), Live(id + 1)]
  }
}
