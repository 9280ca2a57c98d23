/**
 * AR::ResourceBuilder: a D3D12 resource description extended with six cached view
 * dimensions and the heap placement. Its constructors and setters change the builder in
 * place and are proved against the functions of module BuilderSpec; its const
 * projections are functions that read the builder and return a fresh descriptor.
 */
module AR {
  import opened Wrappers
  import opened Dxgi
  import opened D3D12
  import opened Typeless
  import BuilderSpec

  /** std::min: the second argument only when it is strictly smaller. */
  function Min(a: int, b: int): (r: int)
    ensures r <= a && r <= b && (r == a || r == b)
  {
    if b < a then b else a
  }

  /**
   * A view's slice or mip count: the smaller of what the resource has and what the caller
   * asks for, less the first slice or mip. The subtraction is done in `int` and stored in a
   * `UINT`, so there is no lower clamp: a base past that minimum wraps to a count near 2^32.
   */
  function ViewCount(resourceCount: u16, requestedCount: u16, base: u16): (r: u32)
    ensures base <= Min(resourceCount, requestedCount) ==>
      && r == Min(resourceCount, requestedCount) - base
      && base + r <= resourceCount
      && r <= requestedCount
    ensures base > Min(resourceCount, requestedCount) ==>
      && r == U32Modulus - (base - Min(resourceCount, requestedCount))
      && r > U32Modulus - 0x1_0000
  {
    ToUint(Min(resourceCount, requestedCount) - base)
  }

  class ResourceBuilder {
    var desc: ResourceDesc
    var rtvDimension: RtvDimension
    var rtvDimensionArray: RtvDimension
    var dsvDimension: DsvDimension
    var dsvDimensionArray: DsvDimension
    var srvDimension: SrvDimension
    var srvDimensionArray: SrvDimension
    var heapProperties: HeapProperties
    var heapFlags: u32

    /** The builder's fields as one value. */
    function State(): BuilderSpec.BuilderState
      reads this
    {
      BuilderSpec.BuilderState(
        desc,
        BuilderSpec.ViewDimensions(
          rtvDimension, rtvDimensionArray, dsvDimension, dsvDimensionArray,
          srvDimension, srvDimensionArray),
        heapProperties, heapFlags)
    }

    /** A value-initialised builder (`ResourceBuilder builder = {};`): every field zero. */
    constructor ()
      ensures State() == BuilderSpec.ZeroState
    {
      desc := BuilderSpec.ZeroDesc;
      rtvDimension, rtvDimensionArray := RtvDimension.Unknown, RtvDimension.Unknown;
      dsvDimension, dsvDimensionArray := DsvDimension.Unknown, DsvDimension.Unknown;
      srvDimension, srvDimensionArray := SrvDimension.Unknown, SrvDimension.Unknown;
      heapProperties := HeapProperties(HeapType.Unset, 0, 0, 0, 0);
      heapFlags := 0;
    }

    method FromExistingResource(resource: Option<ExistingResource>)
      modifies this
      ensures State() == BuilderSpec.FromExistingResource(old(State()), resource)
    {
      if resource.Some? {
        desc := resource.value.desc;
        heapProperties := resource.value.heapQuery.properties;
        heapFlags := resource.value.heapQuery.flags;
        if resource.value.heapQuery.succeeded {
          BuildViewDimensions();
        }
      }
    }

    method Buffer(byteWidth: u64)
      modifies this
      ensures State() == BuilderSpec.Buffer(old(State()), byteWidth)
    {
      desc := desc.(width := byteWidth, dimension := ResourceDimension.Buffer);
      BuildViewDimensions();
    }

    method Texture1D(width: u64, format: Format, arraySize: u16 := 1, mipLevels: u16 := 1)
      modifies this
      ensures State() == BuilderSpec.Texture1D(old(State()), width, format, arraySize, mipLevels)
    {
      SetHeapType(HeapType.Default);
      desc := desc.(
        width := width, height := 1, depthOrArraySize := arraySize, mipLevels := mipLevels,
        dimension := ResourceDimension.Texture1D, alignment := 0, format := format,
        sampleDesc := SampleDesc(1, 0));
      BuildViewDimensions();
    }

    method Texture2D(width: u64, height: u32, format: Format, arraySize: u16 := 1, mipLevels: u16 := 1)
      modifies this
      ensures State() == BuilderSpec.Texture2D(old(State()), width, height, format, arraySize, mipLevels)
    {
      SetHeapType(HeapType.Default);
      desc := desc.(
        width := width, height := height, depthOrArraySize := arraySize, mipLevels := mipLevels,
        dimension := ResourceDimension.Texture2D, alignment := 0, format := format,
        sampleDesc := SampleDesc(1, 0));
      BuildViewDimensions();
    }

    method Texture3D(width: u64, height: u32, depth: u16, format: Format, mipLevels: u16 := 1)
      modifies this
      ensures State() == BuilderSpec.Texture3D(old(State()), width, height, depth, format, mipLevels)
    {
      SetHeapType(HeapType.Default);
      desc := desc.(
        width := width, height := height, depthOrArraySize := depth, mipLevels := mipLevels,
        dimension := ResourceDimension.Texture3D, alignment := 0, format := format,
        sampleDesc := SampleDesc(1, 0));
      BuildViewDimensions();
    }

    method SetFormat(format: Format)
      modifies this
      ensures State() == BuilderSpec.SetFormat(old(State()), format)
    {
      desc := desc.(format := format);
    }

    method SetHeapType(heapType: HeapType)
      modifies this
      ensures State() == BuilderSpec.SetHeapType(old(State()), heapType)
    {
      heapProperties := heapProperties.(heapType := heapType);
    }

    method BuildViewDimensions()
      modifies this
      ensures State() == BuilderSpec.BuildViewDimensions(old(State()))
    {
      if desc.dimension == ResourceDimension.Buffer {
        rtvDimension := RtvDimension.Buffer;
        dsvDimension := DsvDimension.Unknown;
        srvDimension := SrvDimension.Buffer;
      } else if desc.dimension == ResourceDimension.Texture1D {
        rtvDimension := RtvDimension.Texture1D;
        dsvDimension := DsvDimension.Unknown;
        srvDimension := SrvDimension.Texture1D;
      } else if desc.dimension == ResourceDimension.Texture3D {
        rtvDimension := RtvDimension.Texture3D;
        dsvDimension := DsvDimension.Unknown;
        srvDimension := SrvDimension.Texture3D;
      } else if desc.sampleDesc.count > 1 {
        rtvDimension := RtvDimension.Texture2DMS;
        dsvDimension := DsvDimension.Texture2DMS;
        srvDimension := SrvDimension.Texture2DMS;
        rtvDimensionArray :=
          if desc.depthOrArraySize == 1 then RtvDimension.Texture2DMS else RtvDimension.Texture2DMSArray;
        dsvDimensionArray :=
          if desc.depthOrArraySize == 1 then DsvDimension.Texture2DMS else DsvDimension.Texture2DMSArray;
        srvDimensionArray :=
          if desc.depthOrArraySize == 1 then SrvDimension.Texture2DMS else SrvDimension.Texture2DMSArray;
      } else {
        rtvDimension := RtvDimension.Texture2D;
        dsvDimension := DsvDimension.Texture2D;
        srvDimension := SrvDimension.Texture2D;
        rtvDimensionArray :=
          if desc.depthOrArraySize == 1 then RtvDimension.Texture2D else RtvDimension.Texture2DArray;
        dsvDimensionArray :=
          if desc.depthOrArraySize == 1 then DsvDimension.Texture2D else DsvDimension.Texture2DArray;
        srvDimensionArray :=
          if desc.depthOrArraySize == 1 then SrvDimension.Texture2D else SrvDimension.Texture2DArray;
      }
    }

    /** The description as a render target: Flags replaced by render-target access, plus unordered access iff asked. */
    function AsColorTarget(allowUAV: bool := false): (r: ResourceDesc)
      reads this
      ensures AllowRenderTarget in r.flags
      ensures AllowUnorderedAccess in r.flags <==> allowUAV
      ensures r.flags <= {AllowRenderTarget, AllowUnorderedAccess}
      ensures r == desc.(flags := r.flags)
    {
      var value := desc.(flags := {AllowRenderTarget});
      if allowUAV then value.(flags := value.flags + {AllowUnorderedAccess}) else value
    }

    /** The description as a depth target: Flags replaced by depth-stencil access, plus deny-shader-resource iff shader reads are not allowed. */
    function AsDepthTarget(allowSRV: bool := true): (r: ResourceDesc)
      reads this
      ensures AllowDepthStencil in r.flags
      ensures DenyShaderResource in r.flags <==> !allowSRV
      ensures r.flags <= {AllowDepthStencil, DenyShaderResource}
      ensures r == desc.(flags := r.flags)
    {
      var value := desc.(flags := {AllowDepthStencil});
      if !allowSRV then value.(flags := value.flags + {DenyShaderResource}) else value
    }

    /** A single-slice render-target view of mip `baseMip`. */
    function AsColorTargetView(viewFormat: Format := Format.Unknown, baseMip: u32 := 0)
      : (r: RenderTargetViewDesc)
      reads this
      ensures IsTypeless(desc.format) ==> r.format == viewFormat
      ensures !IsTypeless(desc.format) ==> r.format == desc.format
      ensures r.viewDimension == rtvDimension
      ensures r.subresource.RtvTexture2D? && r.subresource.mipSlice == baseMip
      ensures r.subresource.planeSlice == 0
    {
      RenderTargetViewDesc(ResolveViewFormat(desc.format, viewFormat), rtvDimension, RtvTexture2D(baseMip, 0))
    }

    /** A render-target view of slices from `baseArray`, at most `arraySize` of them, of mip `baseMip`. */
    function AsColorTargetViewArray(
      viewFormat: Format := Format.Unknown, baseMip: u16 := 0, baseArray: u16 := 0,
      arraySize: u16 := ReqTexture2DArrayAxisDimension): (r: RenderTargetViewDesc)
      reads this
      ensures IsTypeless(desc.format) ==> r.format == viewFormat
      ensures !IsTypeless(desc.format) ==> r.format == desc.format
      ensures r.viewDimension == rtvDimensionArray
      ensures r.subresource.RtvTexture2DArray?
      ensures r.subresource.mipSlice == baseMip && r.subresource.firstArraySlice == baseArray
      ensures r.subresource.arraySize == ViewCount(desc.depthOrArraySize, arraySize, baseArray)
      ensures r.subresource.planeSlice == 0
    {
      RenderTargetViewDesc(
        ResolveViewFormat(desc.format, viewFormat), rtvDimensionArray,
        RtvTexture2DArray(baseMip, baseArray, ViewCount(desc.depthOrArraySize, arraySize, baseArray), 0))
    }

    /** A single-slice depth-stencil view of mip `baseMip`. */
    function AsDepthStencilView(viewFormat: Format := Format.Unknown, baseMip: u16 := 0)
      : (r: DepthStencilViewDesc)
      reads this
      ensures IsTypeless(desc.format) ==> r.format == viewFormat
      ensures !IsTypeless(desc.format) ==> r.format == desc.format
      ensures r.viewDimension == dsvDimension
      ensures r.flags == 0
      ensures r.subresource.DsvTexture2D? && r.subresource.mipSlice == baseMip
    {
      DepthStencilViewDesc(ResolveViewFormat(desc.format, viewFormat), dsvDimension, 0, DsvTexture2D(baseMip))
    }

    /** A depth-stencil view of slices from `baseArray`, at most `arraySize` of them, of mip `baseMip`. */
    function AsDepthStencilViewArray(
      viewFormat: Format := Format.Unknown, baseMip: u16 := 0, baseArray: u16 := 0,
      arraySize: u16 := ReqTexture2DArrayAxisDimension): (r: DepthStencilViewDesc)
      reads this
      ensures IsTypeless(desc.format) ==> r.format == viewFormat
      ensures !IsTypeless(desc.format) ==> r.format == desc.format
      ensures r.viewDimension == dsvDimensionArray
      ensures r.flags == 0
      ensures r.subresource.DsvTexture2DArray?
      ensures r.subresource.mipSlice == baseMip && r.subresource.firstArraySlice == baseArray
      ensures r.subresource.arraySize == ViewCount(desc.depthOrArraySize, arraySize, baseArray)
    {
      DepthStencilViewDesc(
        ResolveViewFormat(desc.format, viewFormat), dsvDimensionArray, 0,
        DsvTexture2DArray(baseMip, baseArray, ViewCount(desc.depthOrArraySize, arraySize, baseArray)))
    }

    /**
     * A raw or structured buffer view. The format is the caller's, not resolved against the
     * resource; the view is raw iff there is no stride and no format; the element range is
     * not clamped against the buffer's width. The builder's state is not read.
     */
    function AsBufferResourceView(
      firstElement: u32 := 0, numElements: u32 := 0xffff_ffff, byteStride: u32 := 0,
      viewFormat: Format := Format.Unknown): (r: ShaderResourceViewDesc)
      ensures r.format == viewFormat
      ensures r.viewDimension == SrvDimension.Buffer
      ensures r.shader4ComponentMapping == DefaultShader4ComponentMapping
      ensures r.subresource.SrvBuffer?
      ensures r.subresource.firstElement == firstElement && r.subresource.numElements == numElements
      ensures r.subresource.structureByteStride == byteStride
      ensures r.subresource.flags == BufferSrvRaw <==> byteStride == 0 && viewFormat == Format.Unknown
    {
      var flags := if byteStride == 0 && viewFormat == Format.Unknown then BufferSrvRaw else BufferSrvNone;
      ShaderResourceViewDesc(
        viewFormat, SrvDimension.Buffer, DefaultShader4ComponentMapping,
        SrvBuffer(firstElement, numElements, byteStride, flags))
    }

    /** A single-slice shader-resource view of mips from `baseMip`, at most `mipLevels` of them. */
    function AsShaderResourceView(
      viewFormat: Format := Format.Unknown, baseMip: u16 := 0, mipLevels: u16 := ReqMipLevels,
      minLod: FloatBits := 0): (r: ShaderResourceViewDesc)
      reads this
      ensures IsTypeless(desc.format) ==> r.format == viewFormat
      ensures !IsTypeless(desc.format) ==> r.format == desc.format
      ensures r.viewDimension == srvDimension
      ensures r.shader4ComponentMapping == DefaultShader4ComponentMapping
      ensures r.subresource.SrvTexture2D? && r.subresource.mostDetailedMip == baseMip
      ensures r.subresource.mipLevels == ViewCount(desc.mipLevels, mipLevels, baseMip)
      ensures r.subresource.planeSlice == 0 && r.subresource.resourceMinLodClamp == minLod
    {
      ShaderResourceViewDesc(
        ResolveViewFormat(desc.format, viewFormat), srvDimension, DefaultShader4ComponentMapping,
        SrvTexture2D(baseMip, ViewCount(desc.mipLevels, mipLevels, baseMip), 0, minLod))
    }

    /** A shader-resource view of mips from `baseMip` and slices from `baseArray`, each range clamped independently. */
    function AsShaderResourceViewArray(
      viewFormat: Format := Format.Unknown, baseMip: u16 := 0, baseArray: u16 := 0,
      mipLevels: u16 := ReqMipLevels, arraySize: u16 := ReqTexture2DArrayAxisDimension,
      minLod: FloatBits := 0): (r: ShaderResourceViewDesc)
      reads this
      ensures IsTypeless(desc.format) ==> r.format == viewFormat
      ensures !IsTypeless(desc.format) ==> r.format == desc.format
      ensures r.viewDimension == srvDimensionArray
      ensures r.shader4ComponentMapping == DefaultShader4ComponentMapping
      ensures r.subresource.SrvTexture2DArray?
      ensures r.subresource.mostDetailedMip == baseMip && r.subresource.firstArraySlice == baseArray
      ensures r.subresource.mipLevels == ViewCount(desc.mipLevels, mipLevels, baseMip)
      ensures r.subresource.arraySize == ViewCount(desc.depthOrArraySize, arraySize, baseArray)
      ensures r.subresource.planeSlice == 0 && r.subresource.resourceMinLodClamp == minLod
    {
      ShaderResourceViewDesc(
        ResolveViewFormat(desc.format, viewFormat), srvDimensionArray, DefaultShader4ComponentMapping,
        SrvTexture2DArray(
          baseMip, ViewCount(desc.mipLevels, mipLevels, baseMip), baseArray,
          ViewCount(desc.depthOrArraySize, arraySize, baseArray), 0, minLod))
    }
  }
}
