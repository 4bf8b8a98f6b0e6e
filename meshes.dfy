/** Mesh of project/src/Mesh.cpp: an immutable vertex buffer and index buffer on the GPU, the
    effect that draws them, and the world matrix its world-view-projection is built from. */
module Meshes {
  import opened Vectors
  import opened Matrices
  import opened Errors
  import opened Devices

  /** The effect a mesh owns, kept opaque: Effect.cpp is not part of this model. All the mesh
      uses of it are its identity (where the world-view-projection variable lives), its
      technique, the technique's number of passes and its input layout. */
  datatype Effect = Effect(id: nat, technique: nat, passCount: nat, inputLayout: Handle)

  /** sizeof(UINT). */
  const IndexSize: nat := 4

  function VertexBufferDesc(vertexCount: nat): BufferDesc
  {
    BufferDesc(UsageImmutable, ToUInt(VertexSize * vertexCount), BindVertexBuffer)
  }

  function IndexBufferDesc(indexCount: nat): BufferDesc
  {
    BufferDesc(UsageImmutable, ToUInt(IndexSize * indexCount), BindIndexBuffer)
  }

  /** The two buffer creations of the constructor, vertex buffer first. */
  function BufferSteps(vertices: seq<Vertex>, indices: seq<nat>): seq<Call>
  {
    [CreateBuffer(VertexBufferDesc(ToUInt(|vertices|)), VertexData(vertices)),
     CreateBuffer(IndexBufferDesc(ToUInt(|indices|)), IndexData(indices))]
  }

  /** The input-assembler set-up Draw issues before its pass loop: topology, input layout,
      vertex buffer in slot 0 with the vertex stride and offset 0, index buffer of 32-bit
      indices at offset 0. */
  function DrawSetup(effect: Effect, vertexBuffer: Handle, indexBuffer: Handle): seq<Call>
  {
    [SetPrimitiveTopology(TriangleList), SetInputLayout(effect.inputLayout),
     SetVertexBuffers(0, 1, vertexBuffer, VertexSize, 0), SetIndexBuffer(indexBuffer, R32Uint, 0)]
  }

  /** The calls of the first n passes: apply the pass, then draw every index. */
  function PassCalls(technique: nat, indexCount: nat, n: nat): seq<Call>
  {
    if n == 0 then []
    else PassCalls(technique, indexCount, n - 1) + [ApplyPass(technique, n - 1), DrawIndexed(indexCount, 0, 0)]
  }

  /** Pass i contributes call 2i, which applies it, and call 2i + 1, which draws all indices
      from index 0 with base vertex 0. */
  lemma {:induction false} PassCallsShape(technique: nat, indexCount: nat, n: nat)
    ensures |PassCalls(technique, indexCount, n)| == 2 * n
    ensures forall i :: 0 <= i < n ==>
              PassCalls(technique, indexCount, n)[2 * i] == ApplyPass(technique, i) &&
              PassCalls(technique, indexCount, n)[2 * i + 1] == DrawIndexed(indexCount, 0, 0)
  {
    if n > 0 {
      PassCallsShape(technique, indexCount, n - 1);
      var prev := PassCalls(technique, indexCount, n - 1);
      var calls := PassCalls(technique, indexCount, n);
      assert calls == prev + [ApplyPass(technique, n - 1), DrawIndexed(indexCount, 0, 0)];
      forall i | 0 <= i < n
        ensures calls[2 * i] == ApplyPass(technique, i) && calls[2 * i + 1] == DrawIndexed(indexCount, 0, 0)
      {
        if i < n - 1 {
          assert calls[2 * i] == prev[2 * i] && calls[2 * i + 1] == prev[2 * i + 1];
        }
      }
    }
  }

  /** How many times call `c` occurs in `calls`. */
  function Occurrences(calls: seq<Call>, c: Call): nat
  {
    if calls == [] then 0
    else Occurrences(calls[..|calls| - 1], c) + (if calls[|calls| - 1] == c then 1 else 0)
  }

  lemma {:induction false} OccurrencesConcat(a: seq<Call>, b: seq<Call>, c: Call)
    ensures Occurrences(a + b, c) == Occurrences(a, c) + Occurrences(b, c)
    decreases |b|
  {
    if b == [] {
      assert a + b == a;
    } else {
      var b' := b[..|b| - 1];
      assert (a + b)[..|a + b| - 1] == a + b';
      OccurrencesConcat(a, b', c);
    }
  }

  lemma OccurrencesOne(x: Call, c: Call)
    ensures Occurrences([x], c) == if x == c then 1 else 0
  {
    assert [x][..0] == [];
  }

  /** A call that is not there occurs zero times. */
  lemma {:induction false} OccurrencesAbsent(calls: seq<Call>, c: Call)
    requires c !in calls
    ensures Occurrences(calls, c) == 0
  {
    if calls != [] {
      var prev := calls[..|calls| - 1];
      assert c !in prev by {
        assert forall x :: x in prev ==> x in calls;
      }
      OccurrencesAbsent(prev, c);
    }
  }

  /** One more pass adds its application and its draw. */
  lemma PassStepOccurrences(prev: seq<Call>, apply: Call, draw: Call, c: Call)
    ensures Occurrences(prev + [apply, draw], c) ==
            Occurrences(prev, c) + (if apply == c then 1 else 0) + (if draw == c then 1 else 0)
  {
    assert [apply, draw] == [apply] + [draw];
    OccurrencesOne(apply, c);
    OccurrencesOne(draw, c);
    OccurrencesConcat([apply], [draw], c);
    OccurrencesConcat(prev, [apply, draw], c);
  }

  /** Exactly one indexed draw per pass. */
  lemma {:induction false} OneDrawPerPass(technique: nat, indexCount: nat, n: nat)
    ensures Occurrences(PassCalls(technique, indexCount, n), DrawIndexed(indexCount, 0, 0)) == n
  {
    if n > 0 {
      OneDrawPerPass(technique, indexCount, n - 1);
      PassStepOccurrences(PassCalls(technique, indexCount, n - 1), ApplyPass(technique, n - 1),
                          DrawIndexed(indexCount, 0, 0), DrawIndexed(indexCount, 0, 0));
    }
  }

  /** Each pass of the technique is applied exactly once, and no other pass is. */
  lemma {:induction false} EachPassAppliedOnce(technique: nat, indexCount: nat, n: nat, p: nat)
    ensures Occurrences(PassCalls(technique, indexCount, n), ApplyPass(technique, p)) == if p < n then 1 else 0
  {
    if n > 0 {
      EachPassAppliedOnce(technique, indexCount, n - 1, p);
      PassStepOccurrences(PassCalls(technique, indexCount, n - 1), ApplyPass(technique, n - 1),
                          DrawIndexed(indexCount, 0, 0), ApplyPass(technique, p));
    }
  }

  /** The pass loop issues nothing but pass applications and indexed draws. */
  lemma {:induction false} PassCallsOnlyApplyAndDraw(technique: nat, indexCount: nat, n: nat)
    ensures forall c :: c in PassCalls(technique, indexCount, n) ==> c.ApplyPass? || c.DrawIndexed?
  {
    if n > 0 {
      PassCallsOnlyApplyAndDraw(technique, indexCount, n - 1);
    }
  }

  /** The input-assembler set-up that starts every Draw. */
  const TopologySetup := SetPrimitiveTopology(TriangleList)

  /** One Draw sets up the input assembler exactly once, before its passes, however many
      passes the technique has. */
  lemma DrawSetsUpOnce(effect: Effect, vertexBuffer: Handle, indexBuffer: Handle, indexCount: nat)
    ensures Occurrences(DrawSetup(effect, vertexBuffer, indexBuffer) +
                        PassCalls(effect.technique, indexCount, effect.passCount), TopologySetup) == 1
  {
    var setup := DrawSetup(effect, vertexBuffer, indexBuffer);
    var passes := PassCalls(effect.technique, indexCount, effect.passCount);
    assert setup == [setup[0]] + ([setup[1]] + ([setup[2]] + [setup[3]]));
    OccurrencesOne(setup[0], TopologySetup);
    OccurrencesOne(setup[1], TopologySetup);
    OccurrencesOne(setup[2], TopologySetup);
    OccurrencesOne(setup[3], TopologySetup);
    OccurrencesConcat([setup[2]], [setup[3]], TopologySetup);
    OccurrencesConcat([setup[1]], [setup[2]] + [setup[3]], TopologySetup);
    OccurrencesConcat([setup[0]], [setup[1]] + ([setup[2]] + [setup[3]]), TopologySetup);
    PassCallsOnlyApplyAndDraw(effect.technique, indexCount, effect.passCount);
    OccurrencesAbsent(passes, TopologySetup);
    OccurrencesConcat(setup, passes, TopologySetup);
  }

  class Mesh {
    var vertexCount: nat
    var indexCount: nat
    var world: Matrix
    var vertexBuffer: Handle
    var indexBuffer: Handle
    var effect: Effect
    /** Whether the C++ object is still within its lifetime (its destructor has not run). */
    ghost var alive: bool

    /** The owning handle fields in the order the destructor releases them. */
    function Handles(): seq<Handle>
      reads this
    {
      [vertexBuffer, indexBuffer]
    }

    ghost predicate Valid()
      reads this
    {
      DistinctLive(Handles()) && vertexCount < 0x1_0000_0000 && indexCount < 0x1_0000_0000
    }

    /** Every call one Draw issues for this mesh. */
    function DrawCalls(): seq<Call>
      reads this
    {
      DrawSetup(effect, vertexBuffer, indexBuffer) + PassCalls(effect.technique, indexCount, effect.passCount)
    }

    /** The object the constructor leaves behind once both buffers exist; the world matrix
        starts as the identity. */
    constructor Own(effect: Effect, vertexCount: nat, indexCount: nat, vertexBuffer: Handle, indexBuffer: Handle)
      requires DistinctLive([vertexBuffer, indexBuffer])
      requires vertexCount < 0x1_0000_0000 && indexCount < 0x1_0000_0000
      ensures Valid() && alive && world == Identity && this.effect == effect
      ensures this.vertexCount == vertexCount && this.indexCount == indexCount
      ensures this.vertexBuffer == vertexBuffer && this.indexBuffer == indexBuffer
    {
      this.effect := effect;
      this.vertexCount, this.indexCount := vertexCount, indexCount;
      this.vertexBuffer, this.indexBuffer := vertexBuffer, indexBuffer;
      world := Identity;
      alive := true;
    }

    /** Mesh(pDevice, vertices, indices), with the effect its member initializer made: an empty
        vertex or index list throws BufferIsEmpty before any device call; otherwise the counts
        are stored as uint32, the vertex buffer is created and then the index buffer, and the
        first creation that fails throws its HRESULT as an int. */
    static method New(device: Device, effect: Effect, vertices: seq<Vertex>, indices: seq<nat>)
      returns (r: Result<Mesh>)
      modifies device
      ensures |vertices| == 0 || |indices| == 0 ==>
                r == Threw(Raised(BufferIsEmpty)) && device.log == old(device.log)
                && device.nextId == old(device.nextId)
      ensures |vertices| > 0 && |indices| > 0 ==>
                var m := |device.log| - |old(device.log)|;
                var steps := BufferSteps(vertices, indices);
                && StopsAtFirstFailure(device.answer, |old(device.log)|, steps, m, r.Ok?)
                && device.log == old(device.log) + steps[..m]
                && (r.Threw? ==> r.thrown == IntThrown(device.answer(|old(device.log)| + m - 1, steps[m - 1])))
      ensures r.Ok? ==> var mesh := r.value;
              && fresh(mesh) && mesh.Valid() && mesh.alive
              && mesh.vertexCount == ToUInt(|vertices|) && mesh.indexCount == ToUInt(|indices|)
              && mesh.world == Identity && mesh.effect == effect
              && mesh.vertexBuffer == Live(old(device.nextId)) && mesh.indexBuffer == Live(old(device.nextId) + 1)
    {
      if |vertices| == 0 {
        return Threw(Raised(BufferIsEmpty));
      }
      if |indices| == 0 {
        return Threw(Raised(BufferIsEmpty));
      }
      var vertexCount := ToUInt(|vertices|);
      var indexCount := ToUInt(|indices|);
      var hr: HResult;
      var vb, ib: Handle;
      hr, vb := device.Create(CreateBuffer(VertexBufferDesc(vertexCount), VertexData(vertices)));
      if Failed(hr) {
        return Threw(IntThrown(hr));
      }
      hr, ib := device.Create(CreateBuffer(IndexBufferDesc(indexCount), IndexData(indices)));
      if Failed(hr) {
        return Threw(IntThrown(hr));
      }
      var mesh := new Mesh.Own(effect, vertexCount, indexCount, vb, ib);
      r := Ok(mesh);
    }

    /** Mesh(Mesh&&): copies the counts, takes both buffers and nulls them in the source, and
        takes the effect, whose defaulted move leaves the source's effect as it was. The world
        matrix is not transferred: the new mesh starts with the identity. */
    constructor MoveFrom(rhs: Mesh)
      requires rhs.Valid()
      modifies rhs
      ensures Valid() && rhs.Valid() && alive
      ensures vertexCount == old(rhs.vertexCount) && indexCount == old(rhs.indexCount)
      ensures Handles() == old(rhs.Handles()) && effect == old(rhs.effect) && world == Identity
      ensures rhs.Handles() == [Null, Null]
      ensures rhs.vertexCount == old(rhs.vertexCount) && rhs.indexCount == old(rhs.indexCount)
      ensures rhs.effect == old(rhs.effect) && rhs.world == old(rhs.world) && rhs.alive == old(rhs.alive)
    {
      vertexCount := rhs.vertexCount;
      indexCount := rhs.indexCount;
      vertexBuffer := rhs.vertexBuffer;
      indexBuffer := rhs.indexBuffer;
      effect := rhs.effect;
      world := Identity;
      alive := true;
      new;
      rhs.vertexBuffer := Null;
      rhs.indexBuffer := Null;
    }

    /** operator=(Mesh&&): there is no self-move test. The counts, buffers and effect are
        copied over, then the source's buffers are nulled, so a mesh moved onto itself loses
        both buffers. The target's previous buffers are dropped unreleased and its world
        matrix is kept. */
    method MoveAssign(rhs: Mesh)
      requires Valid() && rhs.Valid()
      modifies this, rhs
      ensures Valid() && rhs.Valid()
      ensures vertexCount == old(rhs.vertexCount) && indexCount == old(rhs.indexCount)
      ensures effect == old(rhs.effect) && world == old(world)
      ensures this != rhs ==> Handles() == old(rhs.Handles())
      ensures rhs.Handles() == [Null, Null]
      ensures this != rhs ==> rhs.vertexCount == old(rhs.vertexCount) && rhs.indexCount == old(rhs.indexCount)
                              && rhs.effect == old(rhs.effect) && rhs.world == old(rhs.world)
      ensures alive == old(alive) && rhs.alive == old(rhs.alive)
    {
      vertexCount := rhs.vertexCount;
      indexCount := rhs.indexCount;
      vertexBuffer := rhs.vertexBuffer;
      rhs.vertexBuffer := Null;
      indexBuffer := rhs.indexBuffer;
      rhs.indexBuffer := Null;
      effect := rhs.effect;
    }

    /** ~Mesh(): releases the vertex buffer, then the index buffer, each only when not null. */
    method Destroy(device: Device)
      requires alive
      modifies this, device
      ensures !alive
      ensures device.log == old(device.log) + ReleaseAll(old(Handles()))
      ensures Handles() == old(Handles())
    {
      ghost var hs := Handles();
      device.ReleaseIfLive(vertexBuffer);
      device.ReleaseIfLive(indexBuffer);
      alive := false;
      ReleaseAll2(hs[0], hs[1]);
    }

    /** SetWorldViewProjection: uploads world * wvp to the effect's matrix variable. */
    method SetWorldViewProjection(device: Device, wvp: Matrix)
      modifies device
      ensures device.log == old(device.log) + [SetWorldViewProjectionMatrix(effect.id, Mul(world, wvp))]
      ensures device.nextId == old(device.nextId)
    {
      device.Issue(SetWorldViewProjectionMatrix(effect.id, Mul(world, wvp)));
    }

    /** Draw: the input-assembler set-up, then, for each pass of the technique in order, apply
        the pass and draw all indices. */
    method Draw(device: Device)
      modifies device
      ensures device.log == old(device.log) + DrawCalls()
      ensures device.nextId == old(device.nextId)
    {
      device.Issue(SetPrimitiveTopology(TriangleList));
      device.Issue(SetInputLayout(effect.inputLayout));
      device.Issue(SetVertexBuffers(0, 1, vertexBuffer, VertexSize, 0));
      device.Issue(SetIndexBuffer(indexBuffer, R32Uint, 0));
      assert device.log == old(device.log) + DrawSetup(effect, vertexBuffer, indexBuffer);
      var passes := effect.passCount;
      var passIdx: nat := 0;
      while passIdx < passes
        invariant passIdx <= passes
        invariant device.log == old(device.log) + DrawSetup(effect, vertexBuffer, indexBuffer)
                                + PassCalls(effect.technique, indexCount, passIdx)
        invariant device.nextId == old(device.nextId)
      {
        device.Issue(ApplyPass(effect.technique, passIdx));
        device.Issue(DrawIndexed(indexCount, 0, 0));
        passIdx := passIdx + 1;
      }
    }

    method GetVertexBuffer() returns (h: Handle)
      ensures h == vertexBuffer
    {
      h := vertexBuffer;
    }

    method GetIndexBuffer() returns (h: Handle)
      ensures h == indexBuffer
    {
      h := indexBuffer;
    }

    method GetEffect() returns (e: Effect)
      ensures e == effect
    {
      e := effect;
    }

    method GetVertexCount() returns (n: nat)
      ensures n == vertexCount
    {
      n := vertexCount;
    }

    method GetIndexCount() returns (n: nat)
      ensures n == indexCount
    {
      n := indexCount;
    }
  }

  /** The stored counts are the input sizes whenever those fit a uint32, and the byte widths
      are then the element sizes times the counts, as long as those fit a UINT too. */
  lemma CountsAndWidths(vertices: seq<Vertex>, indices: seq<nat>)
    requires VertexSize * |vertices| < 0x1_0000_0000 && IndexSize * |indices| < 0x1_0000_0000
    ensures ToUInt(|vertices|) == |vertices| && ToUInt(|indices|) == |indices|
    ensures BufferSteps(vertices, indices)[0].bufferDesc.byteWidth == VertexSize * |vertices|
    ensures BufferSteps(vertices, indices)[1].bufferDesc.byteWidth == IndexSize * |indices|
  {
  }

  /** With the world matrix still the identity, the uploaded matrix is wvp itself. */
  lemma IdentityWorldUploadsWvp(wvp: Matrix)
    ensures Mul(Identity, wvp) == wvp
  {
    IdentityIsNeutral(wvp);
  }

  /** A mesh with more than 2^32 / 32 vertices gets a vertex buffer narrower than its data: the
      byte width wraps around. */
  lemma WideVertexBufferWraps()
    ensures VertexBufferDesc(0x800_0000).byteWidth == 0
  {
  }
}
