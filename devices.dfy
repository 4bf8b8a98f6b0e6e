/** The Direct3D 11 device, device context and effect framework as the core sees them: an
    oracle that answers each call with an HRESULT, and the ordered log of every call the core
    makes. A call that creates an object hands back a fresh handle when it succeeds and the
    null handle when it fails, as the out-pointer of a failed D3D creation is nulled. */
module Devices {
  import opened Vectors
  import opened Matrices

  /** A COM interface pointer held by the core: null, or a live object with an identity. */
  datatype Handle = Null | Live(id: nat)

  /** HRESULT is a 32-bit signed LONG; FAILED(hr) is hr < 0. */
  type HResult = x: int | -0x8000_0000 <= x < 0x8000_0000

  predicate Failed(hr: HResult)
  {
    hr < 0
  }

  /** UINT arithmetic: the value as it is stored in a 32-bit unsigned field. */
  function ToUInt(x: int): (u: nat)
    ensures u < 0x1_0000_0000
    ensures 0 <= x < 0x1_0000_0000 ==> u == x
  {
    x % 0x1_0000_0000
  }

  datatype Filter = FilterMinMagMipPoint | FilterMinMagMipLinear | FilterAnisotropic
  datatype AddressMode = Wrap
  datatype Format = R8G8B8A8Unorm | R32Uint
  datatype Usage = UsageDefault | UsageImmutable
  datatype BindFlag = BindShaderResource | BindVertexBuffer | BindIndexBuffer
  datatype Topology = TriangleList
  datatype ViewDimension = Texture2DView

  /** D3D11_SAMPLER_DESC: only the fields the core sets. */
  datatype SamplerDesc = SamplerDesc(filter: Filter, addressU: AddressMode, addressV: AddressMode,
                                     addressW: AddressMode)

  datatype TextureDesc = TextureDesc(width: nat, height: nat, mipLevels: nat, arraySize: nat,
                                     format: Format, sampleCount: nat, sampleQuality: nat,
                                     usage: Usage, bindFlags: BindFlag)

  /** D3D11_SUBRESOURCE_DATA of a texture: the host pixels (the loaded surface) and its pitches. */
  datatype TextureData = TextureData(pixels: nat, sysMemPitch: nat, sysMemSlicePitch: nat)

  datatype ViewDesc = ViewDesc(format: Format, dimension: ViewDimension, mipLevels: nat)

  datatype BufferDesc = BufferDesc(usage: Usage, byteWidth: nat, bindFlags: BindFlag)

  /** The host array a buffer is created from. */
  datatype BufferData = VertexData(vertices: seq<Vertex>) | IndexData(indices: seq<nat>)

  /** Every call the core makes into code it does not own. */
  datatype Call =
    | GetSamplerVariable(name: string)
    | CreateSamplerState(sampler: SamplerDesc)
    | CreateTexture2D(texture: TextureDesc, data: TextureData)
    | FreeSurface(surface: nat)
    | CreateShaderResourceView(resource: Handle, view: ViewDesc)
    | CreateBuffer(bufferDesc: BufferDesc, contents: BufferData)
    | Release(handle: nat)
    | SetSampler(variable: Handle, slot: nat, state: Handle)
    | SetWorldViewProjectionMatrix(effect: nat, matrix: Matrix)
    | SetPrimitiveTopology(topology: Topology)
    | SetInputLayout(layout: Handle)
    | SetVertexBuffers(startSlot: nat, count: nat, buffer: Handle, stride: nat, offset: nat)
    | SetIndexBuffer(buffer: Handle, format: Format, offset: nat)
    | ApplyPass(technique: nat, pass: nat)
    | DrawIndexed(indexCount: nat, startIndex: nat, baseVertex: int)

  /** The release calls a destructor issues for its handle fields, in field order, skipping nulls. */
  function ReleaseAll(hs: seq<Handle>): (calls: seq<Call>)
    ensures |calls| <= |hs|
  {
    if hs == [] then [] else ReleaseOf(hs[0]) + ReleaseAll(hs[1..])
  }

  /** The release call of one handle field: none for a null pointer. */
  function ReleaseOf(h: Handle): seq<Call>
  {
    if h.Live? then [Release(h.id)] else []
  }

  /** The destructor's releases, one field at a time. */
  lemma ReleaseAllCons(h: Handle, hs: seq<Handle>)
    ensures ReleaseAll([h] + hs) == ReleaseOf(h) + ReleaseAll(hs)
  {
    assert ([h] + hs)[1..] == hs;
  }

  lemma ReleaseAll2(a: Handle, b: Handle)
    ensures ReleaseAll([a, b]) == ReleaseOf(a) + ReleaseOf(b)
  {
    ReleaseAllCons(b, []);
    ReleaseAllCons(a, [b]);
    assert [a, b] == [a] + [b];
    assert [b] == [b] + [];
  }

  lemma ReleaseAll4(a: Handle, b: Handle, c: Handle, d: Handle)
    ensures ReleaseAll([a, b, c, d]) == ReleaseOf(a) + ReleaseOf(b) + ReleaseOf(c) + ReleaseOf(d)
  {
    ReleaseAll2(c, d);
    assert [b, c, d] == [b] + [c, d];
    ReleaseAllCons(b, [c, d]);
    assert [a, b, c, d] == [a] + [b, c, d];
    ReleaseAllCons(a, [b, c, d]);
  }

  /** No live handle occurs twice. */
  predicate DistinctLive(hs: seq<Handle>)
  {
    forall i, j :: 0 <= i < j < |hs| && hs[i].Live? ==> hs[i] != hs[j]
  }

  /** Handles created one after another are distinct. */
  lemma ConsecutiveAreDistinct(n: nat)
    ensures DistinctLive([Live(n), Live(n + 1), Live(n + 2), Live(n + 3)])
  {
  }

  /** Each live handle of a list without repeats is released exactly once, and nothing else is
      released. */
  lemma {:induction false} ReleaseAllOnce(hs: seq<Handle>, id: nat)
    requires DistinctLive(hs)
    ensures multiset(ReleaseAll(hs))[Release(id)] == if Live(id) in hs then 1 else 0
    ensures forall c :: c in ReleaseAll(hs) ==> c.Release?
  {
    if hs != [] {
      var tail := hs[1..];
      assert DistinctLive(tail) by {
        forall i, j | 0 <= i < j < |tail| && tail[i].Live? ensures tail[i] != tail[j] {
          assert tail[i] == hs[i + 1] && tail[j] == hs[j + 1];
        }
      }
      ReleaseAllOnce(tail, id);
      assert Live(id) in hs <==> hs[0] == Live(id) || Live(id) in tail;
      if hs[0] == Live(id) {
        assert Live(id) !in tail by {
          forall j | 0 <= j < |tail| ensures tail[j] != Live(id) {
            assert hs[0] != hs[j + 1];
          }
        }
      }
    }
  }

  /** The number of steps of `steps`, issued from log position `base` on, that succeed before
      the first one that fails; |steps| when none fails. */
  function FirstFailure(answer: (nat, Call) -> HResult, base: nat, steps: seq<Call>): (k: nat)
    ensures k <= |steps|
    ensures forall i :: 0 <= i < k ==> !Failed(answer(base + i, steps[i]))
    ensures k < |steps| ==> Failed(answer(base + k, steps[k]))
    decreases |steps|
  {
    if steps == [] then 0
    else if Failed(answer(base, steps[0])) then 0
    else 1 + FirstFailure(answer, base + 1, steps[1..])
  }

  /** FirstFailure is the only count with its defining property: the steps before k succeed
      and step k, when there is one, fails. */
  lemma FirstFailureIs(answer: (nat, Call) -> HResult, base: nat, steps: seq<Call>, k: nat)
    requires k <= |steps|
    requires forall i :: 0 <= i < k ==> !Failed(answer(base + i, steps[i]))
    requires k < |steps| ==> Failed(answer(base + k, steps[k]))
    ensures FirstFailure(answer, base, steps) == k
    decreases k
  {
    if k > 0 {
      assert !Failed(answer(base + 0, steps[0]));
      var tail := steps[1..];
      forall i | 0 <= i < k - 1
        ensures !Failed(answer(base + 1 + i, tail[i]))
      {
        assert tail[i] == steps[i + 1] && base + 1 + i == base + (i + 1);
      }
      FirstFailureIs(answer, base + 1, tail, k - 1);
    }
  }

  /** A constructor that issues `steps` in order and throws at the first one that fails has
      issued the first m of them, and finished (`ok`) exactly when it issued all of them and the
      last succeeded. */
  ghost predicate StopsAtFirstFailure(answer: (nat, Call) -> HResult, base: nat, steps: seq<Call>,
                                      m: int, ok: bool)
  {
    && 1 <= m <= |steps|
    && (forall i :: 0 <= i < m - 1 ==> !Failed(answer(base + i, steps[i])))
    && (ok <==> !Failed(answer(base + m - 1, steps[m - 1])))
    && (ok ==> m == |steps|)
  }

  /** Such a constructor attempts the steps up to and including the first failure, and no
      more; it finishes exactly when no step fails. */
  lemma StopsAtFirstFailureIsFirstFailure(answer: (nat, Call) -> HResult, base: nat,
                                          steps: seq<Call>, m: int, ok: bool)
    requires StopsAtFirstFailure(answer, base, steps, m, ok)
    ensures ok <==> FirstFailure(answer, base, steps) == |steps|
    ensures !ok ==> m == FirstFailure(answer, base, steps) + 1
    ensures ok ==> m == |steps|
  {
    if ok {
      FirstFailureIs(answer, base, steps, |steps|);
    } else {
      FirstFailureIs(answer, base, steps, m - 1);
    }
  }

  /** The runtime: an oracle for HRESULTs and the log of calls made so far. The answer to a
      call may depend on its position in the log and on the call itself. */
  class Device {
    var log: seq<Call>
    var nextId: nat
    const answer: (nat, Call) -> HResult

    constructor (answer: (nat, Call) -> HResult)
      ensures log == [] && nextId == 0 && this.answer == answer
    {
      log := [];
      nextId := 0;
      this.answer := answer;
    }

    /** A call that creates an object (or looks up an effect variable). */
    method Create(c: Call) returns (hr: HResult, h: Handle)
      modifies this
      ensures log == old(log) + [c]
      ensures hr == answer(|old(log)|, c)
      ensures h == if Failed(hr) then Null else Live(old(nextId))
      ensures nextId == old(nextId) + 1
    {
      hr := answer(|log|, c);
      h := if Failed(hr) then Null else Live(nextId);
      log := log + [c];
      nextId := nextId + 1;
    }

    /** The destructors' `if (p) p->Release();`: a release call for a live handle only. */
    method ReleaseIfLive(h: Handle)
      modifies this
      ensures log == old(log) + ReleaseOf(h)
      ensures nextId == old(nextId)
    {
      if h.Live? {
        log := log + [Release(h.id)];
      }
    }

    /** A call whose result the core does not look at. */
    method Issue(c: Call)
      modifies this
      ensures log == old(log) + [c]
      ensures nextId == old(nextId)
    {
      log := log + [c];
    }
  }
}
