/** The typeless-format test of the builder's header, and the view-format rule built on it. */
module Typeless {
  import opened Dxgi

  /** The 24 formats the builder enumerates as typeless. */
  const TypelessFormats: set<Format> := {
    R32G32B32A32Typeless, R32G32B32Typeless, R16G16B16A16Typeless, R32G32Typeless,
    R32G8X24Typeless, R32FloatX8X24Typeless, R10G10B10A2Typeless, R8G8B8A8Typeless,
    R16G16Typeless, R32Typeless, R24G8Typeless, R24UnormX8Typeless,
    R8G8Typeless, R16Typeless, R8Typeless, BC1Typeless,
    BC2Typeless, BC3Typeless, BC4Typeless, BC5Typeless,
    B8G8R8A8Typeless, B8G8R8X8Typeless, BC6HTypeless, BC7Typeless
  }

  /** Whether a format leaves its interpretation to the view that reads it. */
  function IsTypeless(format: Format): (b: bool)
    ensures b <==> format in TypelessFormats
    ensures format == Format.Unknown ==> !b
    ensures format.Other? ==> !b
  {
    match format
    case Unknown => false
    case Other(_) => false
    case _ => true
  }

  /**
   * The format every render-target, depth-stencil and texture shader-resource view gets:
   * the caller's view format for a typeless resource, the resource's own format otherwise.
   */
  function ResolveViewFormat(resourceFormat: Format, viewFormat: Format): (r: Format)
    ensures IsTypeless(resourceFormat) ==> r == viewFormat
    ensures !IsTypeless(resourceFormat) ==> r == resourceFormat
    ensures IsTypeless(r) ==> r == viewFormat
    ensures r == Format.Unknown <==>
      resourceFormat == Format.Unknown || (IsTypeless(resourceFormat) && viewFormat == Format.Unknown)
  {
    if IsTypeless(resourceFormat) then viewFormat else resourceFormat
  }
}
