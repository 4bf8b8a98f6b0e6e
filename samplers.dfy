/** Sampler of project/src/Sampler.cpp: owns the effect's "gSampler" variable and three sampler
    states (point, linear, anisotropic) and binds the one of the current filter mode to slot 0. */
module Samplers {
  import opened Errors
  import opened Devices

  /** Sampler::FilterMode in declaration order; Count is the sentinel. */
  datatype FilterMode = Point | Linear | Anisotropic | Count

  function Ordinal(m: FilterMode): nat
  {
    match m
    case Point => 0
    case Linear => 1
    case Anisotropic => 2
    case Count => 3
  }

  /** std::bit_cast<FilterMode, int>, for the values the enum has. */
  function FromOrdinal(n: nat): (m: FilterMode)
    requires n <= 3
    ensures Ordinal(m) == n
  {
    if n == 0 then Point else if n == 1 then Linear else if n == 2 then Anisotropic else Count
  }

  /** The mode IncrementFilterMode moves to: (mode + 1) % count. */
  function Next(m: FilterMode): FilterMode
  {
    FromOrdinal((Ordinal(m) + 1) % Ordinal(Count))
  }

  /** Incrementing never lands on the sentinel, and walks point, linear, anisotropic, point. */
  lemma NextCycles(m: FilterMode)
    ensures Next(m) != Count
    ensures Next(Point) == Linear && Next(Linear) == Anisotropic && Next(Anisotropic) == Point
    ensures m != Count ==> Next(Next(Next(m))) == m
    ensures m != Count ==> Next(m) != m && Next(Next(m)) != m
  {
  }

  function SamplerDescFor(f: Filter): SamplerDesc
  {
    SamplerDesc(f, Wrap, Wrap, Wrap)
  }

  /** What the constructor asks for, in order: the sampler variable, then the three states. */
  const VariableLookup := GetSamplerVariable("gSampler")
  const PointCreation := CreateSamplerState(SamplerDescFor(FilterMinMagMipPoint))
  const LinearCreation := CreateSamplerState(SamplerDescFor(FilterMinMagMipLinear))
  const AnisotropicCreation := CreateSamplerState(SamplerDescFor(FilterAnisotropic))
  const CreationSteps := [VariableLookup, PointCreation, LinearCreation, AnisotropicCreation]

  class Sampler {
    var mode: FilterMode
    var samplerVariable: Handle
    var pointSampler: Handle
    var linearSampler: Handle
    var anisotropicSampler: Handle
    /** Whether the C++ object is still within its lifetime (its destructor has not run). */
    ghost var alive: bool

    /** The owning handle fields in declaration order. */
    function Handles(): seq<Handle>
      reads this
    {
      [samplerVariable, pointSampler, linearSampler, anisotropicSampler]
    }

    /** The sampler state bound for a mode; the sentinel has none. */
    function StateFor(m: FilterMode): Handle
      reads this
    {
      match m
      case Point => pointSampler
      case Linear => linearSampler
      case Anisotropic => anisotropicSampler
      case Count => Null
    }

    ghost predicate Valid()
      reads this
    {
      mode != Count && DistinctLive(Handles())
    }

    /** Sampler() = default: every handle null, mode point. */
    constructor ()
      ensures Valid() && alive
      ensures mode == Point && Handles() == [Null, Null, Null, Null]
    {
      mode := Point;
      samplerVariable, pointSampler, linearSampler, anisotropicSampler := Null, Null, Null, Null;
      alive := true;
    }

    /** Sampler(pDevice, pEffect): the variable lookup and the three creations, in that order;
        the first that fails throws InvalidSampler and no later step is attempted. Nothing is
        released on the failure path. The handles are held in locals until every step has
        succeeded: a constructor that throws leaves no object behind. */
    static method New(device: Device) returns (r: Result<Sampler>)
      modifies device
      ensures var m := |device.log| - |old(device.log)|;
              && StopsAtFirstFailure(device.answer, |old(device.log)|, CreationSteps, m, r.Ok?)
              && device.log == old(device.log) + CreationSteps[..m]
      ensures r.Threw? ==> r.thrown == Raised(InvalidSampler)
      ensures r.Ok? ==> var s := r.value;
              && fresh(s) && s.Valid() && s.alive && s.mode == Point
              && s.Handles() == [Live(old(device.nextId)), Live(old(device.nextId) + 1),
                                 Live(old(device.nextId) + 2), Live(old(device.nextId) + 3)]
    {
      ghost var n := device.nextId;
      var hr: HResult;
      var variable, point, linear, anisotropic: Handle;
      hr, variable := device.Create(VariableLookup);
      if variable == Null {
        assert device.log == old(device.log) + CreationSteps[..1];
        return Threw(Raised(InvalidSampler));
      }
      hr, point := device.Create(PointCreation);
      if Failed(hr) {
        assert device.log == old(device.log) + CreationSteps[..2];
        return Threw(Raised(InvalidSampler));
      }
      hr, linear := device.Create(LinearCreation);
      if Failed(hr) {
        assert device.log == old(device.log) + CreationSteps[..3];
        return Threw(Raised(InvalidSampler));
      }
      hr, anisotropic := device.Create(AnisotropicCreation);
      if Failed(hr) {
        return Threw(Raised(InvalidSampler));
      }
      ConsecutiveAreDistinct(n);
      var s := new Sampler.Own(variable, point, linear, anisotropic);
      r := Ok(s);
    }

    /** The object the constructor leaves behind once every step has succeeded. */
    constructor Own(variable: Handle, point: Handle, linear: Handle, anisotropic: Handle)
      requires DistinctLive([variable, point, linear, anisotropic])
      ensures Valid() && alive && mode == Point
      ensures Handles() == [variable, point, linear, anisotropic]
    {
      mode := Point;
      samplerVariable, pointSampler, linearSampler, anisotropicSampler := variable, point, linear, anisotropic;
      alive := true;
    }

    /** Sampler(Sampler&&): takes all four handles and nulls them in the source; the filter mode
        is not transferred and starts at point. (A constructor's object is always fresh, so the
        source's self-move test cannot succeed here.) */
    constructor MoveFrom(rhs: Sampler)
      requires rhs.Valid()
      modifies rhs
      ensures Valid() && rhs.Valid() && alive
      ensures Handles() == old(rhs.Handles()) && mode == Point
      ensures rhs.Handles() == [Null, Null, Null, Null]
      ensures rhs.mode == old(rhs.mode) && rhs.alive == old(rhs.alive)
    {
      mode := Point;
      samplerVariable := rhs.samplerVariable;
      pointSampler := rhs.pointSampler;
      linearSampler := rhs.linearSampler;
      anisotropicSampler := rhs.anisotropicSampler;
      alive := true;
      new;
      rhs.samplerVariable := Null;
      rhs.pointSampler := Null;
      rhs.linearSampler := Null;
      rhs.anisotropicSampler := Null;
    }

    /** operator=(Sampler&&): a self-move changes nothing; otherwise the four handles move over
        and are nulled in the source, the target keeps its own mode, and the target's previous
        handles are dropped without being released (no device call is made). */
    method MoveAssign(rhs: Sampler)
      requires Valid() && rhs.Valid()
      modifies this, rhs
      ensures Valid() && rhs.Valid()
      ensures this == rhs ==> Handles() == old(Handles())
      ensures this != rhs ==> Handles() == old(rhs.Handles()) && rhs.Handles() == [Null, Null, Null, Null]
      ensures mode == old(mode) && rhs.mode == old(rhs.mode)
      ensures alive == old(alive) && rhs.alive == old(rhs.alive)
    {
      if this == rhs {
        return;
      }
      samplerVariable := rhs.samplerVariable;
      rhs.samplerVariable := Null;
      pointSampler := rhs.pointSampler;
      rhs.pointSampler := Null;
      linearSampler := rhs.linearSampler;
      rhs.linearSampler := Null;
      anisotropicSampler := rhs.anisotropicSampler;
      rhs.anisotropicSampler := Null;
    }

    /** ~Sampler(): releases each non-null handle, in field order. */
    method Destroy(device: Device)
      requires alive
      modifies this, device
      ensures !alive
      ensures device.log == old(device.log) + ReleaseAll(old(Handles()))
      ensures Handles() == old(Handles()) && mode == old(mode)
    {
      ghost var hs := Handles();
      device.ReleaseIfLive(samplerVariable);
      device.ReleaseIfLive(pointSampler);
      device.ReleaseIfLive(linearSampler);
      device.ReleaseIfLive(anisotropicSampler);
      alive := false;
      ReleaseAll4(hs[0], hs[1], hs[2], hs[3]);
    }

    /** The private IncrementFilterMode. */
    method IncrementFilterMode()
      modifies this
      ensures mode == Next(old(mode))
      ensures Handles() == old(Handles()) && alive == old(alive)
    {
      mode := FromOrdinal((Ordinal(mode) + 1) % Ordinal(Count));
    }

    /** The private Update: binds the state of the current mode to slot 0 of the sampler
        variable; the sentinel falls into the default branch, which does nothing. */
    method Update(device: Device)
      requires mode != Count ==> samplerVariable.Live?
      modifies device
      ensures device.log == old(device.log) +
                (if mode == Count then [] else [SetSampler(samplerVariable, 0, StateFor(mode))])
    {
      match mode
      case Point => device.Issue(SetSampler(samplerVariable, 0, pointSampler));
      case Linear => device.Issue(SetSampler(samplerVariable, 0, linearSampler));
      case Anisotropic => device.Issue(SetSampler(samplerVariable, 0, anisotropicSampler));
      case Count =>
    }

    /** Cycle: advance the mode, then bind the state that belongs to the new mode. */
    method Cycle(device: Device)
      requires Valid() && samplerVariable.Live?
      modifies this, device
      ensures Valid()
      ensures mode == Next(old(mode)) && Handles() == old(Handles()) && alive == old(alive)
      ensures device.log == old(device.log) + [SetSampler(samplerVariable, 0, StateFor(mode))]
    {
      IncrementFilterMode();
      NextCycles(old(mode));
      Update(device);
    }
  }

  /** Destroying a sampler releases each of its live handles exactly once and nothing else. */
  lemma DestroyReleasesOnce(s: Sampler, id: nat)
    requires s.Valid()
    ensures multiset(ReleaseAll(s.Handles()))[Release(id)] == if Live(id) in s.Handles() then 1 else 0
    ensures forall c :: c in ReleaseAll(s.Handles()) ==> c.Release?
  {
    ReleaseAllOnce(s.Handles(), id);
  }
}
