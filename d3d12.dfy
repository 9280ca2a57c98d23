/**
 * The Direct3D 12 structures the resource builder reads and writes: the resource
 * description, heap properties, and the render-target, depth-stencil and
 * shader-resource view descriptions. Unions are modelled by one constructor per
 * union member the builder writes.
 */
module D3D12 {
  import opened Dxgi

  type u16 = x: int | 0 <= x < 0x1_0000
  type u32 = x: int | 0 <= x < 0x1_0000_0000
  type u64 = x: int | 0 <= x < 0x1_0000_0000_0000_0000

  /** Raw bits of a 32-bit float; the builder only passes such values through. */
  type FloatBits = u32

  const U32Modulus: int := 0x1_0000_0000

  /** D3D12_REQ_MIP_LEVELS */
  const ReqMipLevels: u16 := 15
  /** D3D12_REQ_TEXTURE2D_ARRAY_AXIS_DIMENSION */
  const ReqTexture2DArrayAxisDimension: u16 := 2048
  /** D3D12_DEFAULT_SHADER_4_COMPONENT_MAPPING: components 0, 1, 2, 3 in order */
  const DefaultShader4ComponentMapping: u32 := 0x1688

  /** C++ conversion of a signed `int` to `UINT`: the value modulo 2^32. */
  function ToUint(x: int): (r: u32)
    ensures 0 <= x < U32Modulus ==> r == x
    ensures -U32Modulus <= x < 0 ==> r == x + U32Modulus
  {
    x % U32Modulus
  }

  datatype ResourceDimension = Unknown | Buffer | Texture1D | Texture2D | Texture3D

  /** The bits of D3D12_RESOURCE_FLAGS; a flag word is the set of bits it holds. */
  datatype ResourceFlag =
    | AllowRenderTarget
    | AllowDepthStencil
    | AllowUnorderedAccess
    | DenyShaderResource
    | AllowCrossAdapter
    | AllowSimultaneousAccess
      /** Any other flag bit (VIDEO_DECODE_REFERENCE_ONLY and later), by its bit position. */
    | OtherFlag(bit: nat)

  datatype SampleDesc = SampleDesc(count: u32, quality: u32)

  /** D3D12_RESOURCE_DESC; `layout` is the D3D12_TEXTURE_LAYOUT code, which the builder never sets. */
  datatype ResourceDesc = ResourceDesc(
    dimension: ResourceDimension,
    alignment: u64,
    width: u64,
    height: u32,
    depthOrArraySize: u16,
    mipLevels: u16,
    format: Format,
    sampleDesc: SampleDesc,
    layout: u32,
    flags: set<ResourceFlag>)

  /** D3D12_HEAP_TYPE; `Unset` is the zero value, which names no heap type. */
  datatype HeapType = Unset | Default | Upload | Readback | Custom

  /** D3D12_HEAP_PROPERTIES; the builder only ever writes `heapType`. */
  datatype HeapProperties = HeapProperties(
    heapType: HeapType,
    cpuPageProperty: u32,
    memoryPoolPreference: u32,
    creationNodeMask: u32,
    visibleNodeMask: u32)

  /**
   * What ID3D12Resource::GetHeapProperties reports: whether it returned S_OK, and the
   * values it left in its two out-parameters (the heap properties and the heap flags).
   */
  datatype HeapQuery = HeapQuery(succeeded: bool, properties: HeapProperties, flags: u32)

  /** A live resource, seen through its two queries: GetDesc and GetHeapProperties. */
  datatype ExistingResource = ExistingResource(desc: ResourceDesc, heapQuery: HeapQuery)

  datatype RtvDimension =
    | Unknown | Buffer | Texture1D | Texture1DArray | Texture2D | Texture2DArray
    | Texture2DMS | Texture2DMSArray | Texture3D
  {
    predicate IsMultisampled() { Texture2DMS? || Texture2DMSArray? }

    /** The array variant of a sliceable dimension; other dimensions are their own. */
    function ToArray(): RtvDimension
    {
      match this
      case Texture1D => RtvDimension.Texture1DArray
      case Texture2D => RtvDimension.Texture2DArray
      case Texture2DMS => RtvDimension.Texture2DMSArray
      case _ => this
    }

    /** The depth-stencil dimension of the same name, Unknown where there is none. */
    function ToDsv(): DsvDimension
    {
      match this
      case Texture1D => DsvDimension.Texture1D
      case Texture1DArray => DsvDimension.Texture1DArray
      case Texture2D => DsvDimension.Texture2D
      case Texture2DArray => DsvDimension.Texture2DArray
      case Texture2DMS => DsvDimension.Texture2DMS
      case Texture2DMSArray => DsvDimension.Texture2DMSArray
      case _ => DsvDimension.Unknown
    }

    /** The shader-resource dimension of the same name. */
    function ToSrv(): SrvDimension
    {
      match this
      case Unknown => SrvDimension.Unknown
      case Buffer => SrvDimension.Buffer
      case Texture1D => SrvDimension.Texture1D
      case Texture1DArray => SrvDimension.Texture1DArray
      case Texture2D => SrvDimension.Texture2D
      case Texture2DArray => SrvDimension.Texture2DArray
      case Texture2DMS => SrvDimension.Texture2DMS
      case Texture2DMSArray => SrvDimension.Texture2DMSArray
      case Texture3D => SrvDimension.Texture3D
    }
  }

  datatype DsvDimension =
    | Unknown | Texture1D | Texture1DArray | Texture2D | Texture2DArray
    | Texture2DMS | Texture2DMSArray
  {
    predicate IsMultisampled() { Texture2DMS? || Texture2DMSArray? }
  }

  datatype SrvDimension =
    | Unknown | Buffer | Texture1D | Texture1DArray | Texture2D | Texture2DArray
    | Texture2DMS | Texture2DMSArray | Texture3D | TextureCube | TextureCubeArray
  {
    predicate IsMultisampled() { Texture2DMS? || Texture2DMSArray? }
  }

  /** The members of the D3D12_RENDER_TARGET_VIEW_DESC union that the builder writes. */
  datatype RtvSubresource =
    | RtvTexture2D(mipSlice: u32, planeSlice: u32)
    | RtvTexture2DArray(mipSlice: u32, firstArraySlice: u32, arraySize: u32, planeSlice: u32)

  datatype RenderTargetViewDesc = RenderTargetViewDesc(
    format: Format, viewDimension: RtvDimension, subresource: RtvSubresource)

  /** The members of the D3D12_DEPTH_STENCIL_VIEW_DESC union that the builder writes. */
  datatype DsvSubresource =
    | DsvTexture2D(mipSlice: u32)
    | DsvTexture2DArray(mipSlice: u32, firstArraySlice: u32, arraySize: u32)

  /** `flags` is the D3D12_DSV_FLAGS word (read-only depth or stencil). */
  datatype DepthStencilViewDesc = DepthStencilViewDesc(
    format: Format, viewDimension: DsvDimension, flags: u32, subresource: DsvSubresource)

  datatype BufferSrvFlags = BufferSrvNone | BufferSrvRaw

  /** The members of the D3D12_SHADER_RESOURCE_VIEW_DESC union that the builder writes. */
  datatype SrvSubresource =
    | SrvBuffer(firstElement: u64, numElements: u32, structureByteStride: u32, flags: BufferSrvFlags)
    | SrvTexture2D(mostDetailedMip: u32, mipLevels: u32, planeSlice: u32, resourceMinLodClamp: FloatBits)
    | SrvTexture2DArray(
        mostDetailedMip: u32, mipLevels: u32, firstArraySlice: u32, arraySize: u32,
        planeSlice: u32, resourceMinLodClamp: FloatBits)

  datatype ShaderResourceViewDesc = ShaderResourceViewDesc(
    format: Format, viewDimension: SrvDimension, shader4ComponentMapping: u32,
    subresource: SrvSubresource)
}
