/**
 * Properties of the builder's projections: what the header's default arguments give, and
 * the views produced right after each constructor.
 */
module ViewProperties {
  import opened Dxgi
  import opened D3D12
  import opened Typeless
  import opened AR
  import BuilderSpec

  /** Default target projections carry only their single base flag. */
  lemma DefaultTargetsCarryOneFlag(b: ResourceBuilder)
    ensures b.AsColorTarget().flags == {AllowRenderTarget}
    ensures b.AsDepthTarget().flags == {AllowDepthStencil}
  {
  }

  /** A typeless resource viewed with the default view format gets view format Unknown. */
  lemma TypelessWithDefaultFormatIsUnknown(b: ResourceBuilder)
    requires IsTypeless(b.desc.format)
    ensures b.AsColorTargetView().format == Format.Unknown
    ensures b.AsColorTargetViewArray().format == Format.Unknown
    ensures b.AsDepthStencilView().format == Format.Unknown
    ensures b.AsDepthStencilViewArray().format == Format.Unknown
    ensures b.AsShaderResourceView().format == Format.Unknown
    ensures b.AsShaderResourceViewArray().format == Format.Unknown
  {
  }

  /** With default bases the counts are the smaller of the resource's count and the API maximum. */
  lemma DefaultCountsAreCapped(b: ResourceBuilder)
    ensures b.AsColorTargetViewArray().subresource.arraySize
      == Min(b.desc.depthOrArraySize, ReqTexture2DArrayAxisDimension)
    ensures b.AsDepthStencilViewArray().subresource.arraySize
      == Min(b.desc.depthOrArraySize, ReqTexture2DArrayAxisDimension)
    ensures b.AsShaderResourceView().subresource.mipLevels == Min(b.desc.mipLevels, ReqMipLevels)
    ensures b.AsShaderResourceViewArray().subresource.mipLevels == Min(b.desc.mipLevels, ReqMipLevels)
    ensures b.AsShaderResourceViewArray().subresource.arraySize
      == Min(b.desc.depthOrArraySize, ReqTexture2DArrayAxisDimension)
  {
  }

  /** A default buffer view is a raw view of 0xffffffff elements from element 0. */
  lemma DefaultBufferViewIsRaw(b: ResourceBuilder)
    ensures b.AsBufferResourceView().subresource
      == SrvBuffer(0, 0xffff_ffff, 0, BufferSrvRaw)
  {
  }

  /** A non-zero stride makes a structured view even with an unknown format. */
  lemma StridedBufferViewIsNotRaw(b: ResourceBuilder)
    ensures b.AsBufferResourceView(0, 100, 0, Format.Unknown).subresource.flags == BufferSrvRaw
    ensures b.AsBufferResourceView(0, 100, 16, Format.Unknown).subresource.flags == BufferSrvNone
  {
  }

  /** A base slice past the available slices wraps the count instead of clamping it to zero. */
  lemma BaseSliceBeyondCountWraps(b: ResourceBuilder)
    requires b.desc.depthOrArraySize == 4
    ensures b.AsColorTargetViewArray(Format.Unknown, 0, 5).subresource.arraySize == 0xffff_ffff
  {
  }

  /** Right after Buffer(n): a buffer of n bytes with buffer render-target and shader-resource views and no depth-stencil view. */
  lemma BufferViews(b: ResourceBuilder, s: BuilderSpec.BuilderState, n: u64)
    requires b.State() == BuilderSpec.Buffer(s, n)
    ensures b.desc.dimension == ResourceDimension.Buffer && b.desc.width == n
    ensures b.AsShaderResourceView().viewDimension == SrvDimension.Buffer
    ensures b.AsDepthStencilView().viewDimension == DsvDimension.Unknown
  {
  }

  /** A single-slice 2D texture of a typed format: a non-array 2D color view in that format. */
  lemma TypedTexture2DColorView(b: ResourceBuilder, s: BuilderSpec.BuilderState, f: Format)
    requires !IsTypeless(f)
    requires b.State() == BuilderSpec.Texture2D(s, 256, 256, f, 1, 1)
    ensures b.AsColorTargetView() == RenderTargetViewDesc(f, RtvDimension.Texture2D, RtvTexture2D(0, 0))
  {
  }

  /** A 4-slice typeless 2D texture viewed from slice 1 with 3 requested: the caller's format, and min(4, 3) - 1 = 2 slices. */
  lemma TypelessTexture2DArrayColorView(
    b: ResourceBuilder, s: BuilderSpec.BuilderState, y: Format, z: Format)
    requires IsTypeless(y)
    requires b.State() == BuilderSpec.Texture2D(s, 256, 256, y, 4, 1)
    ensures b.AsColorTargetViewArray(z, 0, 1, 3)
      == RenderTargetViewDesc(z, RtvDimension.Texture2DArray, RtvTexture2DArray(0, 1, 2, 0))
  {
  }

  /** A 1D texture has no depth-stencil view dimension. */
  lemma Texture1DHasNoDepthStencilView(
    b: ResourceBuilder, s: BuilderSpec.BuilderState, w: u64, f: Format, a: u16, m: u16)
    requires b.State() == BuilderSpec.Texture1D(s, w, f, a, m)
    ensures b.AsDepthStencilView().viewDimension == DsvDimension.Unknown
  {
  }

  /** A 3D texture has 3D render-target and shader-resource view dimensions and no depth-stencil view dimension. */
  lemma Texture3DViews(
    b: ResourceBuilder, s: BuilderSpec.BuilderState, w: u64, h: u32, d: u16, f: Format, m: u16)
    requires b.State() == BuilderSpec.Texture3D(s, w, h, d, f, m)
    ensures b.AsColorTargetView().viewDimension == RtvDimension.Texture3D
    ensures b.AsShaderResourceView().viewDimension == SrvDimension.Texture3D
    ensures b.AsDepthStencilView().viewDimension == DsvDimension.Unknown
  {
  }

  /** A freshly built builder, driven through the class's own methods. */
  method BuildTypedTarget(f: Format) returns (view: RenderTargetViewDesc, target: ResourceDesc)
    requires !IsTypeless(f)
    ensures view == RenderTargetViewDesc(f, RtvDimension.Texture2D, RtvTexture2D(0, 0))
    ensures target.dimension == ResourceDimension.Texture2D && target.flags == {AllowRenderTarget}
  {
    var b := new ResourceBuilder();
    b.Texture2D(256, 256, f);
    view := b.AsColorTargetView();
    target := b.AsColorTarget();
  }
}
