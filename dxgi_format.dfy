/**
 * DXGI pixel and element formats, as far as the resource builder tells them apart:
 * the unknown format, the 24 formats that the builder treats as typeless, and every
 * other format, identified only by its code.
 */
module Dxgi {
  datatype Format =
    | Unknown
    | R32G32B32A32Typeless
    | R32G32B32Typeless
    | R16G16B16A16Typeless
    | R32G32Typeless
    | R32G8X24Typeless
    | R32FloatX8X24Typeless
    | R10G10B10A2Typeless
    | R8G8B8A8Typeless
    | R16G16Typeless
    | R32Typeless
    | R24G8Typeless
    | R24UnormX8Typeless
    | R8G8Typeless
    | R16Typeless
    | R8Typeless
    | BC1Typeless
    | BC2Typeless
    | BC3Typeless
    | BC4Typeless
    | BC5Typeless
    | B8G8R8A8Typeless
    | B8G8R8X8Typeless
    | BC6HTypeless
    | BC7Typeless
      /** Any format other than the 25 above (typed formats, and partially typeless
          ones such as X24_TYPELESS_G8_UINT, which the builder does not list).
          `code` is an opaque tag that tells such formats apart, not a DXGI_FORMAT value:
          `Other(n)` never stands for `Unknown` or for one of the 24 typeless formats,
          whatever `n` is. */
    | Other(code: nat)
}
