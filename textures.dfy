/** Texture of project/src/Texture.cpp: a 2D RGBA8 texture made from a loaded image surface,
    and the shader resource view over it. */
module Textures {
  import opened Errors
  import opened Devices

  /** The SDL surface that IMG_Load hands back (loading is not modelled; the surface is an
      input): its identity, its size in pixels and its row pitch in bytes, all C ints. */
  datatype Surface = Surface(id: nat, w: int, h: int, pitch: int)

  /** The description of the texture made from a surface: its size, one mip level, one array
      slice, RGBA8, no multisampling, default usage, bound as a shader resource. */
  function TextureDescFor(s: Surface): TextureDesc
  {
    TextureDesc(ToUInt(s.w), ToUInt(s.h), 1, 1, R8G8B8A8Unorm, 1, 0, UsageDefault, BindShaderResource)
  }

  /** The initial data: the surface's pixels, its pitch, and h * pitch as the slice pitch, each
      cast to UINT. */
  function TextureDataFor(s: Surface): TextureData
  {
    TextureData(s.id, ToUInt(s.pitch), ToUInt(s.h * s.pitch))
  }

  const ViewDescForTexture := ViewDesc(R8G8B8A8Unorm, Texture2DView, 1)

  /** For a surface whose sizes fit a UINT, the texture has exactly the surface's size, each
      row is uploaded with the surface's own pitch, and the one slice spans all rows. */
  lemma UploadCoversSurface(s: Surface)
    requires 0 <= s.w < 0x1_0000_0000 && 0 <= s.h < 0x1_0000_0000
    requires 0 <= s.pitch < 0x1_0000_0000 && 0 <= s.h * s.pitch < 0x1_0000_0000
    ensures TextureDescFor(s).width == s.w && TextureDescFor(s).height == s.h
    ensures TextureDataFor(s).sysMemPitch == s.pitch
    ensures TextureDataFor(s).sysMemSlicePitch == TextureDescFor(s).height * TextureDataFor(s).sysMemPitch
    ensures TextureDescFor(s).mipLevels == 1 && TextureDescFor(s).arraySize == 1
    ensures TextureDescFor(s).format == ViewDescForTexture.format
  {
  }

  class Texture {
    var resource: Handle
    var resourceView: Handle
    /** Whether the C++ object is still within its lifetime (its destructor has not run). */
    ghost var alive: bool

    /** The owning handle fields in the order the destructor releases them. */
    function Handles(): seq<Handle>
      reads this
    {
      [resourceView, resource]
    }

    ghost predicate Valid()
      reads this
    {
      DistinctLive(Handles())
    }

    /** Texture() = default: both handles null. */
    constructor ()
      ensures Valid() && alive && Handles() == [Null, Null]
    {
      resource, resourceView := Null, Null;
      alive := true;
    }

    /** The object the constructor leaves behind once both creations have succeeded. */
    constructor Own(resource: Handle, resourceView: Handle)
      requires DistinctLive([resourceView, resource])
      ensures Valid() && alive
      ensures this.resource == resource && this.resourceView == resourceView
    {
      this.resource, this.resourceView := resource, resourceView;
      alive := true;
    }

    /** Texture(pDevice, path), from the loaded surface: create the texture; when that fails,
        throw ResourceCreateFail without freeing the surface or creating a view. Otherwise free
        the surface, then create the view over the new texture; when that fails, throw
        ResourceViewCreateFail, leaving the texture unreleased. */
    static method New(device: Device, surface: Surface) returns (r: Result<Texture>)
      modifies device
      ensures var base := |old(device.log)|;
              var create := CreateTexture2D(TextureDescFor(surface), TextureDataFor(surface));
              var view := CreateShaderResourceView(Live(old(device.nextId)), ViewDescForTexture);
              if Failed(device.answer(base, create)) then
                && r == Threw(Raised(ResourceCreateFail))
                && device.log == old(device.log) + [create]
              else
                && device.log == old(device.log) + [create, FreeSurface(surface.id), view]
                && (r.Threw? <==> Failed(device.answer(base + 2, view)))
                && (r.Threw? ==> r.thrown == Raised(ResourceViewCreateFail))
      ensures r.Ok? ==> var t := r.value;
              && fresh(t) && t.Valid() && t.alive
              && t.resource == Live(old(device.nextId)) && t.resourceView == Live(old(device.nextId) + 1)
    {
      var hr: HResult;
      var res, view: Handle;
      hr, res := device.Create(CreateTexture2D(TextureDescFor(surface), TextureDataFor(surface)));
      if Failed(hr) {
        return Threw(Raised(ResourceCreateFail));
      }
      device.Issue(FreeSurface(surface.id));
      hr, view := device.Create(CreateShaderResourceView(res, ViewDescForTexture));
      if Failed(hr) {
        return Threw(Raised(ResourceViewCreateFail));
      }
      var t := new Texture.Own(res, view);
      r := Ok(t);
    }

    /** Texture(Texture&&): takes both handles and nulls them in the source. (A constructor's
        object is always fresh, so the source's self-move test cannot succeed here.) */
    constructor MoveFrom(rhs: Texture)
      requires rhs.Valid()
      modifies rhs
      ensures Valid() && rhs.Valid() && alive
      ensures Handles() == old(rhs.Handles())
      ensures rhs.Handles() == [Null, Null] && rhs.alive == old(rhs.alive)
    {
      resource := rhs.resource;
      resourceView := rhs.resourceView;
      alive := true;
      new;
      rhs.resource := Null;
      rhs.resourceView := Null;
    }

    /** operator=(Texture&&): a self-move changes nothing; otherwise both handles move over and
        are nulled in the source, and the target's previous handles are dropped unreleased. */
    method MoveAssign(rhs: Texture)
      requires Valid() && rhs.Valid()
      modifies this, rhs
      ensures Valid() && rhs.Valid()
      ensures this == rhs ==> Handles() == old(Handles())
      ensures this != rhs ==> Handles() == old(rhs.Handles()) && rhs.Handles() == [Null, Null]
      ensures alive == old(alive) && rhs.alive == old(rhs.alive)
    {
      if this == rhs {
        return;
      }
      resource := rhs.resource;
      rhs.resource := Null;
      resourceView := rhs.resourceView;
      rhs.resourceView := Null;
    }

    /** ~Texture(): releases the view, then the texture, each only when it is not null. */
    method Destroy(device: Device)
      requires alive
      modifies this, device
      ensures !alive
      ensures device.log == old(device.log) + ReleaseAll(old(Handles()))
      ensures Handles() == old(Handles())
    {
      ghost var hs := Handles();
      device.ReleaseIfLive(resourceView);
      device.ReleaseIfLive(resource);
      alive := false;
      ReleaseAll2(hs[0], hs[1]);
    }

    /** GetSRV: the stored view, unchanged. */
    method GetSrv() returns (view: Handle)
      ensures view == resourceView
    {
      view := resourceView;
    }
  }

  /** Destroying a texture releases the view before the texture, and each live handle once. */
  lemma DestroyReleasesViewFirst(view: Handle, res: Handle, id: nat)
    requires view.Live? && res.Live? && DistinctLive([view, res])
    ensures ReleaseAll([view, res]) == [Release(view.id), Release(res.id)]
    ensures multiset(ReleaseAll([view, res]))[Release(id)] == if Live(id) in [view, res] then 1 else 0
  {
    ReleaseAll2(view, res);
    ReleaseAllOnce([view, res], id);
  }
}
