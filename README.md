# ResourceBuilder, modelled in Dafny

`AR::ResourceBuilder` is a helper that builds Direct3D 12 resource descriptions
(buffers, 1D, 2D and 3D textures) and projects them into view descriptions. It extends
`D3D12_RESOURCE_DESC` with six cached view dimensions (render-target, depth-stencil and
shader-resource, each in a single and an array flavour) and the heap placement.

The model has these parts:

- `Dxgi` and `D3D12` hold the API types. `Format` has the 24 formats the builder treats
  as typeless, `Unknown`, and `Other(code)` for every other format. The integer widths
  are subset types `u16`, `u32` and `u64`. `ToUint` is the modular `int` to `UINT`
  conversion.
- `Typeless` holds `IsTypeless` from the header and the view-format rule that six
  projections share.
- `BuilderSpec` holds the builder's state as a value (`BuilderState`). Each in-place
  operation is a function from the old state to the new one, and the view-dimension
  derivation is one more such function. `Command`, `Step` and `Run` describe any sequence
  of calls, and the lemmas about such sequences are proved by induction.
- `AR` holds the class `ResourceBuilder`. Its fields are the description record, the six
  view dimensions, the heap properties and the heap flags. The constructors and setters
  are methods with `modifies this`, each proved to leave exactly the state given by its
  `BuilderSpec` function. The `const` projections are functions that return a fresh descriptor;
  all but `AsBufferResourceView` read the builder.
- `ViewProperties` holds lemmas about the projections: what the default arguments give,
  and the views right after `Buffer`, `Texture1D`, `Texture2D` and `Texture3D`.

Three behaviours are modelled as the code has them:

- `ZeroMemory(this, sizeof(this))` clears only a pointer's worth of bytes. Those bytes
  are `Dimension` and padding, and `Dimension` is then reassigned. So no constructor
  resets the builder: fields a constructor does not assign keep their old values.
- The `*Array` view dimensions are written only on the 2D branch of the derivation.
  Buffers, 1D and 3D textures leave them stale.
- Slice and mip counts are `min(...) - base`, computed in `int` and stored in a `UINT`.
  A base past the minimum wraps to a count near 2^32.

Three further facts about the code that a reader might not expect:

- A reader might expect each constructor to zero-fill the builder, so that two successive
  constructor calls leave no residue. It does not: a buffer built after a 2D texture keeps
  the texture's height, format and mips (`BufferKeepsTextureFields`), and a 1D texture
  built after a 2D array keeps the 2D-array view dimensions (`Texture1DKeepsArrayViews`).
- The cached view dimensions are not always consistent with the shape. They are not on a
  value-initialised builder (`ZeroStateNotConsistent`) nor after a failed heap query
  (`FailedHeapQueryLeavesStaleViews`). They are consistent after any shape-defining call
  followed by calls that do not fail a heap query (`ShapedBuilderStaysConsistent`).
- The last branch of the derivation takes every dimension that is not a buffer, 1D or 3D,
  so `D3D12_RESOURCE_DIMENSION_UNKNOWN` gets the 2D view dimensions
  (`TakesTexture2DBranch`).

## Model

| member | source | states |
|---|---|---|
| `Typeless.IsTypeless` | ResourceBuilder.h:33-66 | True exactly for the 24 enumerated typeless formats; false for `Unknown` and every other format. |
| `Typeless.ResolveViewFormat` | ResourceBuilder.cpp:180 | A view gets the caller's format iff the resource format is typeless, else the resource's own. A typeless result can only be the caller's format. The result is `Unknown` iff the resource format is `Unknown`, or it is typeless and the caller passed `Unknown`. |
| `D3D12.ToUint` | ResourceBuilder.cpp:201 | Storing an `int` into a `UINT` keeps values in range and adds 2^32 to negative ones. |
| `AR.Min` | ResourceBuilder.cpp:252 | `std::min` returns one of its arguments and is at most both. |
| `AR.ViewCount` | ResourceBuilder.cpp:308-310 | When the base is within `min(resource, requested)`, the count is that minimum less the base, the range fits in the resource, and the count is at most the request. When the base is past the minimum, the count wraps to 2^32 minus the overshoot, which is above 2^32 - 2^16. |
| `BuilderSpec.BuildViewDimensions` | ResourceBuilder.cpp:319-368 | Only view dimensions change, and the SRV dimension always names the RTV one. There is no DSV dimension iff the resource is a buffer, 1D or 3D; these get their own shape's RTV dimension and keep their array fields. On the 2D branch the dimension is multisampled iff the sample count exceeds 1, the DSV dimension matches the RTV one, and the array fields take the array variant iff DepthOrArraySize is not 1. |
| `BuilderSpec.SetHeapType` | ResourceBuilder.cpp:287-291 | Only `HeapProperties.Type` changes. |
| `BuilderSpec.SetFormat` | ResourceBuilder.cpp:132-137 | Only `Format` changes; the view dimensions are not rederived. |
| `BuilderSpec.Buffer` | ResourceBuilder.cpp:48-59 | Sets Dimension to BUFFER and Width to the byte width. Every other description field and the heap placement keep their prior values. The views become (BUFFER, UNKNOWN, BUFFER) and the array fields are unchanged. |
| `BuilderSpec.Texture1D` | ResourceBuilder.cpp:63-82 | Sets Height 1, DepthOrArraySize to the slice count, MipLevels, Format, Alignment 0, SampleDesc {1,0} and heap type DEFAULT. Layout, Flags and the other heap fields are kept. The views become (TEXTURE1D, UNKNOWN, TEXTURE1D) and the array fields are unchanged. |
| `BuilderSpec.Texture2D` | ResourceBuilder.cpp:86-105 | Sets the same fields as Texture1D, but with the given height. The views are the non-multisampled 2D ones, and each array field takes the array variant iff the slice count is not 1. |
| `BuilderSpec.Texture3D` | ResourceBuilder.cpp:109-128 | Sets the same fields, with DepthOrArraySize holding the depth. The views become (TEXTURE3D, UNKNOWN, TEXTURE3D) and the array fields are unchanged. |
| `BuilderSpec.FromExistingResource` | ResourceBuilder.cpp:29-44 | A null resource changes nothing. Otherwise the description and both heap out-parameters are copied. On a successful heap query the views are those the derivation gives for the new description and the old views, so a buffer, 1D or 3D resource keeps its stale array fields; on a failed one the views are left exactly as before. |
| `BuilderSpec.Step` | ResourceBuilder.cpp:29-137 | A shape-defining call leaves consistent view dimensions. Any call but a failed heap query keeps them consistent. A call other than FromExistingResource keeps the sample count at most 1 and all views non-multisampled. |
| `BuilderSpec.BuildViewDimensionsIdempotent` | ResourceBuilder.cpp:319-368 | Deriving again after a derivation changes nothing. |
| `BuilderSpec.BuildViewDimensionsReadsShapeOnly` | ResourceBuilder.cpp:321-367 | The derived view dimensions depend only on Dimension, SampleDesc.Count, DepthOrArraySize and the prior array fields. |
| `BuilderSpec.ZeroStateNotConsistent` | ResourceBuilder.h:217-224 | A value-initialised builder's cached view dimensions do not match its shape. |
| `BuilderSpec.DefaultTexture2DArrayFieldsMatch` | ResourceBuilder.h:102-103 | With the default arguments, each array view dimension of a 2D texture equals its non-array one. |
| `BuilderSpec.BufferKeepsTextureFields` | ResourceBuilder.cpp:51-54 | Buffer after Texture2D keeps the texture's height, slices, mips, format, sample description and heap type, for every slice count. |
| `BuilderSpec.Texture1DKeepsArrayViews` | ResourceBuilder.cpp:327-332 | Texture1D after a 2D array texture keeps the 2D-array view dimensions. |
| `BuilderSpec.FailedHeapQueryLeavesStaleViews` | ResourceBuilder.cpp:34-40 | A consistent buffer builder given a 2D resource whose heap query fails ends with a 2D description but buffer view dimensions. |
| `BuilderSpec.RunKeepsViewsConsistent` | ResourceBuilder.cpp:29-137 | Any sequence of calls with no failed heap query preserves consistency of the view dimensions. |
| `BuilderSpec.ShapedBuilderStaysConsistent` | ResourceBuilder.cpp:29-128 | From any builder, a shape-defining call followed by calls with no failed heap query leaves consistent view dimensions. |
| `BuilderSpec.MultisampledOnlyFromExisting` | ResourceBuilder.cpp:341-353 | Without FromExistingResource, a builder with sample count at most 1 and no multisampled view keeps both properties through any sequence of calls. |
| `BuilderSpec.ZeroStateNeverMultisampled` | ResourceBuilder.cpp:341-345 | From a value-initialised builder, no multisampled view dimension is reachable without FromExistingResource. |
| `AR.ResourceBuilder.constructor` | ResourceBuilder.h:70 | A value-initialised builder has every field zero. |
| `AR.ResourceBuilder.FromExistingResource` | ResourceBuilder.cpp:29-44 | The builder's new state is `BuilderSpec.FromExistingResource` of its old state. |
| `AR.ResourceBuilder.Buffer` | ResourceBuilder.cpp:48-59 | The builder's new state is `BuilderSpec.Buffer` of its old state. |
| `AR.ResourceBuilder.Texture1D` | ResourceBuilder.cpp:63-82 | The builder's new state is `BuilderSpec.Texture1D` of its old state; the defaults are 1 slice and 1 mip. |
| `AR.ResourceBuilder.Texture2D` | ResourceBuilder.cpp:86-105 | The builder's new state is `BuilderSpec.Texture2D` of its old state; the defaults are 1 slice and 1 mip. |
| `AR.ResourceBuilder.Texture3D` | ResourceBuilder.cpp:109-128 | The builder's new state is `BuilderSpec.Texture3D` of its old state; the default is 1 mip. |
| `AR.ResourceBuilder.SetFormat` | ResourceBuilder.cpp:132-137 | The builder's new state is `BuilderSpec.SetFormat` of its old state. |
| `AR.ResourceBuilder.SetHeapType` | ResourceBuilder.cpp:287-291 | The builder's new state is `BuilderSpec.SetHeapType` of its old state. |
| `AR.ResourceBuilder.BuildViewDimensions` | ResourceBuilder.cpp:319-368 | The builder's new state is `BuilderSpec.BuildViewDimensions` of its old state. |
| `AR.ResourceBuilder.AsColorTarget` | ResourceBuilder.cpp:141-154 | Flags are replaced by ALLOW_RENDER_TARGET, plus ALLOW_UNORDERED_ACCESS iff asked, and nothing else. Every other field is the builder's. |
| `AR.ResourceBuilder.AsDepthTarget` | ResourceBuilder.cpp:158-171 | Flags are replaced by ALLOW_DEPTH_STENCIL, plus DENY_SHADER_RESOURCE iff shader reads are disallowed, and nothing else. Every other field is the builder's. |
| `AR.ResourceBuilder.AsColorTargetView` | ResourceBuilder.cpp:175-185 | Typeless-aware format; the cached non-array RTV dimension; mip slice `baseMip`. |
| `AR.ResourceBuilder.AsColorTargetViewArray` | ResourceBuilder.cpp:189-204 | Typeless-aware format; the cached array RTV dimension; first slice `baseArray`; slice count `ViewCount(DepthOrArraySize, arraySize, baseArray)`. |
| `AR.ResourceBuilder.AsDepthStencilView` | ResourceBuilder.cpp:208-218 | Typeless-aware format; the cached non-array DSV dimension; no DSV flags; mip slice `baseMip`. |
| `AR.ResourceBuilder.AsDepthStencilViewArray` | ResourceBuilder.cpp:222-237 | Typeless-aware format; the cached array DSV dimension; first slice and wrapped slice count as for the RTV array view. |
| `AR.ResourceBuilder.AsShaderResourceView` | ResourceBuilder.cpp:241-257 | Typeless-aware format; the cached SRV dimension; default component mapping; most detailed mip `baseMip`; mip count `ViewCount(MipLevels, mipLevels, baseMip)`; min LOD passed through. |
| `AR.ResourceBuilder.AsBufferResourceView` | ResourceBuilder.cpp:261-284 | Dimension BUFFER and the caller's format, unresolved. Element range and stride are passed through unclamped. The view is RAW iff the stride is 0 and the format is `Unknown`. The builder is not read. |
| `AR.ResourceBuilder.AsShaderResourceViewArray` | ResourceBuilder.cpp:295-315 | Typeless-aware format; the cached array SRV dimension; independent wrapped mip and slice counts; bases and min LOD passed through. |
| `ViewProperties.DefaultTargetsCarryOneFlag` | ResourceBuilder.h:126-132 | Default `AsColorTarget` carries only ALLOW_RENDER_TARGET and default `AsDepthTarget` only ALLOW_DEPTH_STENCIL. |
| `ViewProperties.TypelessWithDefaultFormatIsUnknown` | ResourceBuilder.h:139-140 | A typeless resource viewed with the default view format gets `Unknown` from every texture view projection. |
| `ViewProperties.DefaultCountsAreCapped` | ResourceBuilder.h:209-215 | With default arguments, slice counts are min(DepthOrArraySize, 2048) and mip counts are min(MipLevels, 15). |
| `ViewProperties.DefaultBufferViewIsRaw` | ResourceBuilder.h:183-187 | The default buffer view is RAW, of 0xffffffff elements from element 0, with no stride. |
| `ViewProperties.StridedBufferViewIsNotRaw` | ResourceBuilder.cpp:275-278 | With an unknown format, stride 0 gives a RAW view and stride 16 does not. |
| `ViewProperties.BaseSliceBeyondCountWraps` | ResourceBuilder.cpp:201 | Four slices viewed from slice 5 give a slice count of 0xffffffff. |
| `ViewProperties.BufferViews` | ResourceBuilder.cpp:48-59 | Right after `Buffer(n)`, the resource is a buffer of width n, its SRV dimension is BUFFER and its DSV dimension is UNKNOWN. |
| `ViewProperties.TypedTexture2DColorView` | ResourceBuilder.cpp:175-185 | A 256x256 single-slice 2D texture of a typed format gives a non-array 2D color view in that format. |
| `ViewProperties.TypelessTexture2DArrayColorView` | ResourceBuilder.cpp:189-204 | A 4-slice typeless 2D texture viewed with format Z from slice 1, 3 requested, gives a 2D-array view in Z of 2 slices. |
| `ViewProperties.Texture1DHasNoDepthStencilView` | ResourceBuilder.cpp:327-332 | A 1D texture's depth-stencil view has dimension UNKNOWN. |
| `ViewProperties.Texture3DViews` | ResourceBuilder.cpp:333-338 | Right after `Texture3D`, from any prior state, the SRV and RTV dimensions are TEXTURE3D and the DSV dimension is UNKNOWN. |
| `ViewProperties.BuildTypedTarget` | ResourceBuilder.cpp:86-105 | A fresh builder made into a default 2D texture of a typed format gives that 2D color view and a 2D color-target description with only the render-target flag. |

## Left out

- `ID3D12Resource::GetDesc` and `GetHeapProperties` are inputs, not calls. A resource is its description plus what the heap query reports: whether it returned S_OK, and what it left in its two out-parameters. Those values are copied whether or not the query succeeded. There is no device.
- `ZeroMemory` is modelled only through its effect on named fields, which is none. The bytes it clears are `Dimension` and padding, and `Dimension` is reassigned.
- Struct inheritance and union aliasing are left out. A view's union is one constructor per member the builder writes, so `Texture2D.MipSlice` written on a buffer RTV is not tied to `Buffer.FirstElement`.
- `minLod` is carried as the raw bits of a 32-bit float and only passed through. `Shader4ComponentMapping` is the constant 0x1688.
- The numeric codes of the D3D12 and DXGI enumerations are not modelled. Flag words are sets of named flags; flags beyond the six the builder's era names (such as VIDEO_DECODE_REFERENCE_ONLY) are `OtherFlag(bit)`, identified only by their bit position.
- `return *this` (call chaining) is not modelled; the methods return nothing.
- Validity checks of the D3D12 runtime, such as whether a dimension supports render targets, are left out. The builder does none.
- A default-initialised builder whose fields are indeterminate is not modelled. The class starts value-initialised, and every `BuilderSpec` function accepts an arbitrary prior state.
