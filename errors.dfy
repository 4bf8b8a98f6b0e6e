/** The error hierarchy of project/src/Error.h and utils::HandleThrowingFunction.
    Every class of the hierarchy is one ErrorKind. A class may override category(), what(),
    both or neither; Category and What resolve the virtual call by walking up to the nearest
    class that overrides it, as dynamic dispatch does. Thrown is whatever a C++ throw
    expression of the core can throw. */
module Errors {

  datatype ErrorKind =
    | BaseError
    // namespace file
    | FileError | CouldNotOpenFile
    // namespace effect
    | EffectError | EffectCreateFail | InvalidEffect | LayoutCreateFail | InvalidTechnique
    | InvalidWorldViewProjection | InvalidDiffuseMap | InvalidSampler
    // namespace texture
    | TextureError | ResourceCreateFail | ResourceViewCreateFail
    // namespace mesh
    | MeshError | MeshCreateFail | BufferCreateFail | BufferIsEmpty
    // namespace scene
    | SceneError | SceneIsEmpty
    // namespace rendering
    | RenderError | MeshRenderError
    // namespace dx11
    | DXInitError | DeviceCreateFail | DXGIFactoryCreateFail | SwapChainCreateFail
    | DepthStencilCreateFail | DepthStencilViewCreateFail | GetRenderTargetBufferFail
    | RenderTargetViewCreateFail

  /** The namespaces of Error.h; Root stands for error::Error itself. */
  datatype Namespace = Root | File | Effect | Texture | Mesh | Scene | Rendering | Dx11

  datatype Option<T> = None | Some(value: T)

  /** Distance from error::Error in the class hierarchy. */
  function Depth(k: ErrorKind): nat
  {
    match k
    case BaseError => 0
    case FileError | EffectError | TextureError | MeshError | SceneError | RenderError | DXInitError => 1
    case _ => 2
  }

  /** The direct base class. */
  function BaseOf(k: ErrorKind): (p: ErrorKind)
    requires k != BaseError
    ensures Depth(p) == Depth(k) - 1
  {
    match k
    case FileError | EffectError | TextureError | MeshError | SceneError | RenderError | DXInitError =>
      BaseError
    case CouldNotOpenFile => FileError
    case EffectCreateFail | InvalidEffect | LayoutCreateFail | InvalidTechnique
       | InvalidWorldViewProjection | InvalidDiffuseMap | InvalidSampler => EffectError
    case ResourceCreateFail | ResourceViewCreateFail => TextureError
    case MeshCreateFail | BufferCreateFail | BufferIsEmpty => MeshError
    case SceneIsEmpty => SceneError
    case MeshRenderError => RenderError
    case DeviceCreateFail | DXGIFactoryCreateFail | SwapChainCreateFail | DepthStencilCreateFail
       | DepthStencilViewCreateFail | GetRenderTargetBufferFail | RenderTargetViewCreateFail => DXInitError
  }

  /** The body of category() when the class itself declares one. */
  function OwnCategory(k: ErrorKind): Option<string>
  {
    match k
    case BaseError => Some("ERR")
    case FileError => Some("FILE_ERR")
    case EffectError => Some("FX_ERR")
    case TextureError => Some("TEX_ERR")
    case MeshError => Some("MESH_ERR")
    case SceneError => Some("SCENE_ERR")
    case RenderError => Some("RENDER_ERR")
    case DXInitError => Some("DX_INIT_ERR")
    case _ => None
  }

  /** The body of what() when the class itself declares one: every leaf returns its own class
      name (both CreateFail classes return "CreateFail"). */
  function OwnWhat(k: ErrorKind): Option<string>
  {
    match k
    case BaseError => Some("Error")
    case FileError | EffectError | TextureError | MeshError | SceneError | RenderError | DXInitError => None
    case CouldNotOpenFile => Some("CouldNotOpenFile")
    case EffectCreateFail => Some("CreateFail")
    case InvalidEffect => Some("InvalidEffect")
    case LayoutCreateFail => Some("LayoutCreateFail")
    case InvalidTechnique => Some("InvalidTechnique")
    case InvalidWorldViewProjection => Some("InvalidWorldViewProjection")
    case InvalidDiffuseMap => Some("InvalidDiffuseMap")
    case InvalidSampler => Some("InvalidSampler")
    case ResourceCreateFail => Some("ResourceCreateFail")
    case ResourceViewCreateFail => Some("ResourceViewCreateFail")
    case MeshCreateFail => Some("CreateFail")
    case BufferCreateFail => Some("BufferCreateFail")
    case BufferIsEmpty => Some("BufferIsEmpty")
    case SceneIsEmpty => Some("SceneIsEmpty")
    case MeshRenderError => Some("MeshRenderError")
    case DeviceCreateFail => Some("DeviceCreateFail")
    case DXGIFactoryCreateFail => Some("DXGIFactoryCreateFail")
    case SwapChainCreateFail => Some("SwapChainCreateFail")
    case DepthStencilCreateFail => Some("DepthStencilCreateFail")
    case DepthStencilViewCreateFail => Some("DepthStencilViewCreateFail")
    case GetRenderTargetBufferFail => Some("GetRenderTargetBufferFail")
    case RenderTargetViewCreateFail => Some("RenderTargetViewCreateFail")
  }

  /** The virtual call e.category(). */
  function Category(k: ErrorKind): string
    decreases Depth(k)
  {
    match OwnCategory(k)
    case Some(s) => s
    case None => if k == BaseError then "ERR" else Category(BaseOf(k))
  }

  /** The virtual call e.what(). */
  function What(k: ErrorKind): string
    decreases Depth(k)
  {
    match OwnWhat(k)
    case Some(s) => s
    case None => if k == BaseError then "Error" else What(BaseOf(k))
  }

  // ---------------------------------------------------------------- reference tables

  function NamespaceOf(k: ErrorKind): Namespace
  {
    match k
    case BaseError => Root
    case FileError | CouldNotOpenFile => File
    case EffectError | EffectCreateFail | InvalidEffect | LayoutCreateFail | InvalidTechnique
       | InvalidWorldViewProjection | InvalidDiffuseMap | InvalidSampler => Effect
    case TextureError | ResourceCreateFail | ResourceViewCreateFail => Texture
    case MeshError | MeshCreateFail | BufferCreateFail | BufferIsEmpty => Mesh
    case SceneError | SceneIsEmpty => Scene
    case RenderError | MeshRenderError => Rendering
    case DXInitError | DeviceCreateFail | DXGIFactoryCreateFail | SwapChainCreateFail
       | DepthStencilCreateFail | DepthStencilViewCreateFail | GetRenderTargetBufferFail
       | RenderTargetViewCreateFail => Dx11
  }

  function NamespaceCategory(n: Namespace): string
  {
    match n
    case Root => "ERR"
    case File => "FILE_ERR"
    case Effect => "FX_ERR"
    case Texture => "TEX_ERR"
    case Mesh => "MESH_ERR"
    case Scene => "SCENE_ERR"
    case Rendering => "RENDER_ERR"
    case Dx11 => "DX_INIT_ERR"
  }

  /** The unqualified C++ class name. */
  function ClassName(k: ErrorKind): string
  {
    match k
    case BaseError => "Error"
    case FileError => "FileError"
    case CouldNotOpenFile => "CouldNotOpenFile"
    case EffectError => "EffectError"
    case EffectCreateFail => "CreateFail"
    case InvalidEffect => "InvalidEffect"
    case LayoutCreateFail => "LayoutCreateFail"
    case InvalidTechnique => "InvalidTechnique"
    case InvalidWorldViewProjection => "InvalidWorldViewProjection"
    case InvalidDiffuseMap => "InvalidDiffuseMap"
    case InvalidSampler => "InvalidSampler"
    case TextureError => "TextureError"
    case ResourceCreateFail => "ResourceCreateFail"
    case ResourceViewCreateFail => "ResourceViewCreateFail"
    case MeshError => "MeshError"
    case MeshCreateFail => "CreateFail"
    case BufferCreateFail => "BufferCreateFail"
    case BufferIsEmpty => "BufferIsEmpty"
    case SceneError => "SceneError"
    case SceneIsEmpty => "SceneIsEmpty"
    case RenderError => "RenderError"
    case MeshRenderError => "MeshRenderError"
    case DXInitError => "DXInitError"
    case DeviceCreateFail => "DeviceCreateFail"
    case DXGIFactoryCreateFail => "DXGIFactoryCreateFail"
    case SwapChainCreateFail => "SwapChainCreateFail"
    case DepthStencilCreateFail => "DepthStencilCreateFail"
    case DepthStencilViewCreateFail => "DepthStencilViewCreateFail"
    case GetRenderTargetBufferFail => "GetRenderTargetBufferFail"
    case RenderTargetViewCreateFail => "RenderTargetViewCreateFail"
  }

  /** A leaf is a class of depth 2, the kinds the core actually throws. */
  predicate IsLeaf(k: ErrorKind)
  {
    Depth(k) == 2
  }

  // ---------------------------------------------------------------- lemmas

  /** A category class and the base class declare category() themselves, and what they
      return is their namespace's category. */
  lemma CategoryClassesOwnCategory(k: ErrorKind)
    requires Depth(k) <= 1
    ensures OwnCategory(k) == Some(NamespaceCategory(NamespaceOf(k)))
  {
  }

  /** A leaf declares no category() and lives in its base class's namespace. */
  lemma LeavesInheritCategory(k: ErrorKind)
    requires Depth(k) == 2
    ensures OwnCategory(k) == None && NamespaceOf(BaseOf(k)) == NamespaceOf(k)
  {
  }

  /** category() depends only on the namespace the class lives in. */
  lemma CategoryByNamespace(k: ErrorKind)
    ensures Category(k) == NamespaceCategory(NamespaceOf(k))
  {
    if Depth(k) <= 1 {
      CategoryClassesOwnCategory(k);
    } else {
      LeavesInheritCategory(k);
      CategoryClassesOwnCategory(BaseOf(k));
    }
  }

  /** A leaf declares what() itself and returns its class name. */
  lemma LeavesOwnWhat(k: ErrorKind)
    requires Depth(k) == 2
    ensures OwnWhat(k) == Some(ClassName(k))
  {
  }

  /** A category class declares no what() and derives directly from error::Error. */
  lemma CategoryClassesInheritWhat(k: ErrorKind)
    requires Depth(k) == 1
    ensures OwnWhat(k) == None && BaseOf(k) == BaseError
  {
  }

  /** Every leaf reports its class name from what(); the base class and the intermediate
      category classes inherit what() == "Error". */
  lemma WhatByClass(k: ErrorKind)
    ensures IsLeaf(k) ==> What(k) == ClassName(k)
    ensures !IsLeaf(k) ==> What(k) == "Error"
  {
    if IsLeaf(k) {
      LeavesOwnWhat(k);
    } else if k != BaseError {
      CategoryClassesInheritWhat(k);
    }
  }

  /** effect::CreateFail and mesh::CreateFail share what() and differ in category(). */
  lemma CreateFailsDifferOnlyInCategory()
    ensures What(EffectCreateFail) == What(MeshCreateFail) == "CreateFail"
    ensures Category(EffectCreateFail) == "FX_ERR" && Category(MeshCreateFail) == "MESH_ERR"
  {
  }

  /** Distinct namespaces have distinct categories. */
  lemma NamespaceCategoryIsInjective(n1: Namespace, n2: Namespace)
    requires NamespaceCategory(n1) == NamespaceCategory(n2)
    ensures n1 == n2
  {
  }

  /** Within namespace effect, the class name identifies the leaf. */
  lemma EffectLeavesDiffer(k1: ErrorKind, k2: ErrorKind)
    requires IsLeaf(k1) && IsLeaf(k2) && NamespaceOf(k1) == NamespaceOf(k2) == Effect
    requires ClassName(k1) == ClassName(k2)
    ensures k1 == k2
  {
  }

  /** Within namespace dx11, the class name identifies the leaf. */
  lemma Dx11LeavesDiffer(k1: ErrorKind, k2: ErrorKind)
    requires IsLeaf(k1) && IsLeaf(k2) && NamespaceOf(k1) == NamespaceOf(k2) == Dx11
    requires ClassName(k1) == ClassName(k2)
    ensures k1 == k2
  {
  }

  /** Within the other namespaces, the class name identifies the leaf. */
  lemma SmallNamespaceLeavesDiffer(k1: ErrorKind, k2: ErrorKind)
    requires IsLeaf(k1) && IsLeaf(k2) && NamespaceOf(k1) == NamespaceOf(k2)
    requires NamespaceOf(k1) != Effect && NamespaceOf(k1) != Dx11
    requires ClassName(k1) == ClassName(k2)
    ensures k1 == k2
  {
  }

  /** No two leaves report the same category and the same what: the pair identifies the
      class. */
  lemma LeafReportIsUnique(k1: ErrorKind, k2: ErrorKind)
    requires IsLeaf(k1) && IsLeaf(k2)
    requires Category(k1) == Category(k2) && What(k1) == What(k2)
    ensures k1 == k2
  {
    CategoryByNamespace(k1);
    CategoryByNamespace(k2);
    WhatByClass(k1);
    WhatByClass(k2);
    NamespaceCategoryIsInjective(NamespaceOf(k1), NamespaceOf(k2));
    match NamespaceOf(k1)
    case Effect => EffectLeavesDiffer(k1, k2);
    case Dx11 => Dx11LeavesDiffer(k1, k2);
    case _ => SmallNamespaceLeavesDiffer(k1, k2);
  }

  // ---------------------------------------------------------------- thrown values

  /** A value thrown by the core: an Error (by its most derived class), a std::exception with
      its what(), a std::string, an int or uint32_t code, or anything else. */
  datatype Thrown =
    | Raised(kind: ErrorKind)
    | StdException(message: string)
    | StringThrown(text: string)
    | IntThrown(code: int)
    | UIntThrown(ucode: nat)
    | OtherThrown

  /** How a call ended: normally, or by a throw. */
  datatype Completion = Normal | Exceptional(thrown: Thrown)

  datatype Result<T> = Ok(value: T) | Threw(thrown: Thrown)

  /** What HandleThrowingFunction hands back: its bool result and the line it writes to the
      console (the console colours are not modelled). */
  datatype Handled = Handled(failed: bool, console: string)

  const HexDigits := "0123456789abcdef"

  /** std::hex formatting of an unsigned value: lower-case digits, no leading zeros. */
  function Hex(n: nat): (s: string)
    ensures |s| >= 1
    ensures forall i :: 0 <= i < |s| ==> s[i] in HexDigits
  {
    if n < 16 then [HexDigits[n]] else Hex(n / 16) + [HexDigits[n % 16]]
  }

  function HexDigitValue(c: char): nat
  {
    if '0' <= c <= '9' then (c - '0') as nat
    else if 'a' <= c <= 'f' then (c - 'a') as nat + 10
    else 0
  }

  /** Reads a string of hexadecimal digits back. */
  function ParseHex(s: string): nat
  {
    if |s| == 0 then 0 else ParseHex(s[..|s| - 1]) * 16 + HexDigitValue(s[|s| - 1])
  }

  lemma HexDigitRoundTrip(d: nat)
    requires d < 16
    ensures HexDigitValue(HexDigits[d]) == d
  {
  }

  lemma {:induction false} HexRoundTrip(n: nat)
    ensures ParseHex(Hex(n)) == n
  {
    var s := Hex(n);
    if n < 16 {
      assert s == [HexDigits[n]];
      assert s[..0] == [];
      HexDigitRoundTrip(n);
    } else {
      var q, r := n / 16, n % 16;
      HexRoundTrip(q);
      assert s == Hex(q) + [HexDigits[r]];
      assert s[..|s| - 1] == Hex(q);
      HexDigitRoundTrip(r);
      assert ParseHex(s) == ParseHex(Hex(q)) * 16 + HexDigitValue(HexDigits[r]);
      assert n == q * 16 + r;
    }
  }

  lemma {:induction false} HexHasNoLeadingZero(n: nat)
    ensures Hex(n)[0] == '0' ==> n == 0
  {
    if n >= 16 {
      HexHasNoLeadingZero(n / 16);
    }
  }

  /** An int code printed with std::hex shows its 32-bit two's complement bits. */
  function IntToUnsigned32(code: int): nat
  {
    code % 0x1_0000_0000
  }

  /** The console line for a caught value: "[category]: what" for an Error. */
  function Report(t: Thrown): string
  {
    match t
    case Raised(k) => "[" + Category(k) + "]: " + What(k) + "\n"
    case StdException(m) => "Caught exception: " + m + "\n"
    case StringThrown(s) => "Caught exception: " + s + "\n"
    case IntThrown(code) => "Caught exception: CODE=[0x" + Hex(IntToUnsigned32(code)) + "]\n"
    case UIntThrown(code) => "Caught exception: CODE=[0x" + Hex(code) + "]\n"
    case OtherThrown => "Caught unhandled exception\n"
  }

  /** HandleThrowingFunction(f), given how f() ended: true is returned exactly when f threw,
      whatever was thrown, and nothing escapes. */
  function HandleThrowingFunction(c: Completion): (h: Handled)
    ensures h.failed <==> c.Exceptional?
    ensures c.Normal? ==> h.console == ""
    ensures c.Exceptional? && c.thrown.Raised? ==>
              h.console == "[" + Category(c.thrown.kind) + "]: " + What(c.thrown.kind) + "\n"
  {
    match c
    case Normal => Handled(false, "")
    case Exceptional(t) => Handled(true, Report(t))
  }

  /** A caught Error is reported with its namespace's category and its class's what. */
  lemma HandledErrorReport(k: ErrorKind)
    requires IsLeaf(k)
    ensures HandleThrowingFunction(Exceptional(Raised(k))).console
         == "[" + NamespaceCategory(NamespaceOf(k)) + "]: " + ClassName(k) + "\n"
  {
    CategoryByNamespace(k);
    WhatByClass(k);
  }

  /** A caught int code is printed in hexadecimal, and the printed digits give the code back
      modulo 2^32. */
  lemma HandledIntCodeReport(code: int)
    ensures exists digits :: HandleThrowingFunction(Exceptional(IntThrown(code))).console
                 == "Caught exception: CODE=[0x" + digits + "]\n"
               && ParseHex(digits) == code % 0x1_0000_0000
  {
    var digits := Hex(IntToUnsigned32(code));
    HexRoundTrip(IntToUnsigned32(code));
    assert HandleThrowingFunction(Exceptional(IntThrown(code))).console
        == "Caught exception: CODE=[0x" + digits + "]\n";
  }
}
