/**
 * The resource builder's state as a value, and each of its in-place operations as a
 * function from the state before to the state after. The class in module AR is proved
 * against these functions; the lemmas here are about any sequence of them.
 */
module BuilderSpec {
  import opened Wrappers
  import opened Dxgi
  import opened D3D12

  /** The six cached view dimensions; the `*Array` ones are meant for array views. */
  datatype ViewDimensions = ViewDimensions(
    rtv: RtvDimension, rtvArray: RtvDimension,
    dsv: DsvDimension, dsvArray: DsvDimension,
    srv: SrvDimension, srvArray: SrvDimension)
  {
    predicate SameArrayFields(other: ViewDimensions)
    {
      rtvArray == other.rtvArray && dsvArray == other.dsvArray && srvArray == other.srvArray
    }

    predicate HasMultisampled()
    {
      rtv.IsMultisampled() || rtvArray.IsMultisampled() || dsv.IsMultisampled()
      || dsvArray.IsMultisampled() || srv.IsMultisampled() || srvArray.IsMultisampled()
    }
  }

  /** Everything a ResourceBuilder holds: the description it extends, the cached view dimensions, the heap placement. */
  datatype BuilderState = BuilderState(
    desc: ResourceDesc, views: ViewDimensions, heapProperties: HeapProperties, heapFlags: u32)

  const ZeroDesc: ResourceDesc :=
    ResourceDesc(ResourceDimension.Unknown, 0, 0, 0, 0, 0, Format.Unknown, SampleDesc(0, 0), 0, {})

  /** A value-initialised builder: every field zero. */
  const ZeroState: BuilderState := BuilderState(
    ZeroDesc,
    ViewDimensions(RtvDimension.Unknown, RtvDimension.Unknown, DsvDimension.Unknown,
                   DsvDimension.Unknown, SrvDimension.Unknown, SrvDimension.Unknown),
    HeapProperties(HeapType.Unset, 0, 0, 0, 0),
    0)

  /** The dimensions the derivation sends to its last branch: 2D, and anything not buffer, 1D or 3D. */
  predicate TakesTexture2DBranch(d: ResourceDimension)
  {
    d.Texture2D? || d.Unknown?
  }

  /**
   * The derivation of the cached view dimensions from Dimension, SampleDesc.Count and
   * DepthOrArraySize. Buffers, 1D and 3D get the view dimension of their own shape and no
   * depth-stencil dimension, and keep their `*Array` fields; the 2D branch is multisampled
   * iff the sample count exceeds 1, and its `*Array` fields take the array variant iff
   * DepthOrArraySize is not 1.
   */
  function BuildViewDimensions(s: BuilderState): (r: BuilderState)
    ensures r.desc == s.desc && r.heapProperties == s.heapProperties && r.heapFlags == s.heapFlags
    ensures r.views.srv == r.views.rtv.ToSrv()
    ensures r.views.dsv.Unknown? <==> !TakesTexture2DBranch(s.desc.dimension)
    ensures s.desc.dimension.Buffer? ==> r.views.rtv == RtvDimension.Buffer
    ensures s.desc.dimension.Texture1D? ==> r.views.rtv == RtvDimension.Texture1D
    ensures s.desc.dimension.Texture3D? ==> r.views.rtv == RtvDimension.Texture3D
    ensures !TakesTexture2DBranch(s.desc.dimension) ==> r.views.SameArrayFields(s.views)
    ensures TakesTexture2DBranch(s.desc.dimension) ==>
      && (r.views.rtv.IsMultisampled() <==> s.desc.sampleDesc.count > 1)
      && (r.views.rtv == RtvDimension.Texture2D || r.views.rtv == RtvDimension.Texture2DMS)
      && r.views.dsv == r.views.rtv.ToDsv()
      && r.views.rtvArray == (if s.desc.depthOrArraySize == 1 then r.views.rtv else r.views.rtv.ToArray())
      && r.views.dsvArray == r.views.rtvArray.ToDsv()
      && r.views.srvArray == r.views.rtvArray.ToSrv()
  {
    var v := s.views;
    match s.desc.dimension
    case Buffer =>
      s.(views := v.(rtv := RtvDimension.Buffer, dsv := DsvDimension.Unknown, srv := SrvDimension.Buffer))
    case Texture1D =>
      s.(views := v.(rtv := RtvDimension.Texture1D, dsv := DsvDimension.Unknown, srv := SrvDimension.Texture1D))
    case Texture3D =>
      s.(views := v.(rtv := RtvDimension.Texture3D, dsv := DsvDimension.Unknown, srv := SrvDimension.Texture3D))
    case _ =>
      var single := s.desc.depthOrArraySize == 1;
      if s.desc.sampleDesc.count > 1 then
        s.(views := ViewDimensions(
          RtvDimension.Texture2DMS,
          if single then RtvDimension.Texture2DMS else RtvDimension.Texture2DMSArray,
          DsvDimension.Texture2DMS,
          if single then DsvDimension.Texture2DMS else DsvDimension.Texture2DMSArray,
          SrvDimension.Texture2DMS,
          if single then SrvDimension.Texture2DMS else SrvDimension.Texture2DMSArray))
      else
        s.(views := ViewDimensions(
          RtvDimension.Texture2D,
          if single then RtvDimension.Texture2D else RtvDimension.Texture2DArray,
          DsvDimension.Texture2D,
          if single then DsvDimension.Texture2D else DsvDimension.Texture2DArray,
          SrvDimension.Texture2D,
          if single then SrvDimension.Texture2D else SrvDimension.Texture2DArray))
  }

  /** A state whose cached view dimensions are what the derivation gives for its description. */
  predicate Consistent(s: BuilderState)
  {
    BuildViewDimensions(s) == s
  }

  /** SetHeapType: only the heap type changes. */
  function SetHeapType(s: BuilderState, heapType: HeapType): (r: BuilderState)
    ensures r.heapProperties.heapType == heapType
    ensures r == s.(heapProperties := r.heapProperties)
    ensures r.heapProperties == s.heapProperties.(heapType := heapType)
  {
    s.(heapProperties := s.heapProperties.(heapType := heapType))
  }

  /** SetFormat: only the format changes; the view dimensions are not rederived. */
  function SetFormat(s: BuilderState, format: Format): (r: BuilderState)
    ensures r.desc.format == format
    ensures r == s.(desc := s.desc.(format := r.desc.format))
  {
    s.(desc := s.desc.(format := format))
  }

  /**
   * Buffer: Dimension and Width are set, and the view dimensions rederived. The initial
   * ZeroMemory clears only a pointer's worth of bytes (Dimension and padding), so every
   * other field keeps whatever the builder held before.
   */
  function Buffer(s: BuilderState, byteWidth: u64): (r: BuilderState)
    ensures r.desc.dimension == ResourceDimension.Buffer && r.desc.width == byteWidth
    ensures r.desc == s.desc.(dimension := r.desc.dimension, width := r.desc.width)
    ensures r.heapProperties == s.heapProperties && r.heapFlags == s.heapFlags
    ensures r.views.rtv == RtvDimension.Buffer && r.views.dsv == DsvDimension.Unknown
    ensures r.views.srv == SrvDimension.Buffer
    ensures r.views.SameArrayFields(s.views)
  {
    BuildViewDimensions(s.(desc := s.desc.(width := byteWidth, dimension := ResourceDimension.Buffer)))
  }

  /** Texture1D: a one-dimensional texture of `arraySize` slices on the default heap. */
  function Texture1D(s: BuilderState, width: u64, format: Format, arraySize: u16 := 1, mipLevels: u16 := 1)
    : (r: BuilderState)
    ensures r.desc == s.desc.(
      dimension := ResourceDimension.Texture1D, alignment := 0, width := width, height := 1,
      depthOrArraySize := arraySize, mipLevels := mipLevels, format := format,
      sampleDesc := SampleDesc(1, 0))
    ensures r.heapProperties == s.heapProperties.(heapType := HeapType.Default)
    ensures r.heapFlags == s.heapFlags
    ensures r.views.rtv == RtvDimension.Texture1D && r.views.dsv == DsvDimension.Unknown
    ensures r.views.srv == SrvDimension.Texture1D
    ensures r.views.SameArrayFields(s.views)
  {
    var t := SetHeapType(s, HeapType.Default);
    BuildViewDimensions(t.(desc := t.desc.(
      width := width, height := 1, depthOrArraySize := arraySize, mipLevels := mipLevels,
      dimension := ResourceDimension.Texture1D, alignment := 0, format := format,
      sampleDesc := SampleDesc(1, 0))))
  }

  /**
   * Texture2D: a two-dimensional single-sampled texture on the default heap. Its sample
   * count is 1, so its view dimensions are never multisampled; the array fields take the
   * array variant iff `arraySize` is not 1.
   */
  function Texture2D(s: BuilderState, width: u64, height: u32, format: Format, arraySize: u16 := 1,
                     mipLevels: u16 := 1): (r: BuilderState)
    ensures r.desc == s.desc.(
      dimension := ResourceDimension.Texture2D, alignment := 0, width := width, height := height,
      depthOrArraySize := arraySize, mipLevels := mipLevels, format := format,
      sampleDesc := SampleDesc(1, 0))
    ensures r.heapProperties == s.heapProperties.(heapType := HeapType.Default)
    ensures r.heapFlags == s.heapFlags
    ensures r.views.rtv == RtvDimension.Texture2D && r.views.dsv == DsvDimension.Texture2D
    ensures r.views.srv == SrvDimension.Texture2D
    ensures r.views.rtvArray == (if arraySize == 1 then RtvDimension.Texture2D else RtvDimension.Texture2DArray)
    ensures r.views.dsvArray == (if arraySize == 1 then DsvDimension.Texture2D else DsvDimension.Texture2DArray)
    ensures r.views.srvArray == (if arraySize == 1 then SrvDimension.Texture2D else SrvDimension.Texture2DArray)
  {
    var t := SetHeapType(s, HeapType.Default);
    BuildViewDimensions(t.(desc := t.desc.(
      width := width, height := height, depthOrArraySize := arraySize, mipLevels := mipLevels,
      dimension := ResourceDimension.Texture2D, alignment := 0, format := format,
      sampleDesc := SampleDesc(1, 0))))
  }

  /** Texture3D: a volume texture on the default heap; DepthOrArraySize holds the depth. */
  function Texture3D(s: BuilderState, width: u64, height: u32, depth: u16, format: Format,
                     mipLevels: u16 := 1): (r: BuilderState)
    ensures r.desc == s.desc.(
      dimension := ResourceDimension.Texture3D, alignment := 0, width := width, height := height,
      depthOrArraySize := depth, mipLevels := mipLevels, format := format,
      sampleDesc := SampleDesc(1, 0))
    ensures r.heapProperties == s.heapProperties.(heapType := HeapType.Default)
    ensures r.heapFlags == s.heapFlags
    ensures r.views.rtv == RtvDimension.Texture3D && r.views.dsv == DsvDimension.Unknown
    ensures r.views.srv == SrvDimension.Texture3D
    ensures r.views.SameArrayFields(s.views)
  {
    var t := SetHeapType(s, HeapType.Default);
    BuildViewDimensions(t.(desc := t.desc.(
      width := width, height := height, depthOrArraySize := depth, mipLevels := mipLevels,
      dimension := ResourceDimension.Texture3D, alignment := 0, format := format,
      sampleDesc := SampleDesc(1, 0))))
  }

  /**
   * FromExistingResource: a null resource changes nothing. Otherwise the description and
   * both heap out-parameters are copied; the view dimensions are rederived only when the
   * heap query succeeded, and are left as they were when it failed.
   */
  function FromExistingResource(s: BuilderState, resource: Option<ExistingResource>): (r: BuilderState)
    ensures resource.None? ==> r == s
    ensures resource.Some? ==>
      && r.desc == resource.value.desc
      && r.heapProperties == resource.value.heapQuery.properties
      && r.heapFlags == resource.value.heapQuery.flags
    ensures resource.Some? && resource.value.heapQuery.succeeded ==> Consistent(r)
    ensures resource.Some? && resource.value.heapQuery.succeeded ==>
      r.views == BuildViewDimensions(s.(desc := resource.value.desc)).views
    ensures resource.Some? && !resource.value.heapQuery.succeeded ==> r.views == s.views
  {
    match resource
    case None => s
    case Some(res) =>
      var copied := s.(desc := res.desc, heapProperties := res.heapQuery.properties,
                       heapFlags := res.heapQuery.flags);
      if res.heapQuery.succeeded then BuildViewDimensions(copied) else copied
  }

  /** One call of a state-changing builder method, with its arguments. */
  datatype Command =
    | FromExisting(resource: Option<ExistingResource>)
    | MakeBuffer(byteWidth: u64)
    | MakeTexture1D(width: u64, format: Format, arraySize: u16, mipLevels: u16)
    | MakeTexture2D(width: u64, height: u32, format: Format, arraySize: u16, mipLevels: u16)
    | MakeTexture3D(width: u64, height: u32, depth: u16, format: Format, mipLevels: u16)
    | ChangeFormat(format: Format)
    | ChangeHeapType(heapType: HeapType)
  {
    /** The calls that (re)derive the view dimensions. */
    predicate DefinesShape()
    {
      || MakeBuffer? || MakeTexture1D? || MakeTexture2D? || MakeTexture3D?
      || (FromExisting? && resource.Some? && resource.value.heapQuery.succeeded)
    }

    /** The one call that replaces the description but keeps the old view dimensions. */
    predicate LeavesViewsStale()
    {
      FromExisting? && resource.Some? && !resource.value.heapQuery.succeeded
    }
  }

  function Step(s: BuilderState, c: Command): (r: BuilderState)
    ensures c.DefinesShape() ==> Consistent(r)
    ensures Consistent(s) && !c.LeavesViewsStale() ==> Consistent(r)
    ensures !c.FromExisting? && s.desc.sampleDesc.count <= 1 && !s.views.HasMultisampled() ==>
      r.desc.sampleDesc.count <= 1 && !r.views.HasMultisampled()
  {
    match c
    case FromExisting(resource) => FromExistingResource(s, resource)
    case MakeBuffer(n) => Buffer(s, n)
    case MakeTexture1D(w, f, a, m) => Texture1D(s, w, f, a, m)
    case MakeTexture2D(w, h, f, a, m) => Texture2D(s, w, h, f, a, m)
    case MakeTexture3D(w, h, d, f, m) => Texture3D(s, w, h, d, f, m)
    case ChangeFormat(f) => SetFormat(s, f)
    case ChangeHeapType(t) => SetHeapType(s, t)
  }

  /** The state after a sequence of calls, in order. */
  function Run(s: BuilderState, cmds: seq<Command>): BuilderState
    decreases |cmds|
  {
    if cmds == [] then s else Run(Step(s, cmds[0]), cmds[1..])
  }

  // ---------------------------------------------------------------------------------
  // Properties of the derivation

  /** Deriving twice gives what deriving once gives. */
  lemma BuildViewDimensionsIdempotent(s: BuilderState)
    ensures Consistent(BuildViewDimensions(s))
  {
  }

  /** The derivation reads only Dimension, SampleDesc.Count and DepthOrArraySize. */
  lemma BuildViewDimensionsReadsShapeOnly(s: BuilderState, t: BuilderState)
    requires s.desc.dimension == t.desc.dimension
    requires s.desc.sampleDesc.count == t.desc.sampleDesc.count
    requires s.desc.depthOrArraySize == t.desc.depthOrArraySize
    requires s.views.SameArrayFields(t.views)
    ensures BuildViewDimensions(s).views == BuildViewDimensions(t).views
  {
  }

  /** A value-initialised builder is not consistent: its dimension takes the 2D branch, yet every view dimension is Unknown. */
  lemma ZeroStateNotConsistent()
    ensures !Consistent(ZeroState)
  {
  }

  // ---------------------------------------------------------------------------------
  // Properties of the constructors

  /** With the default arguments a 2D texture has one slice, so each array field equals its non-array field. */
  lemma DefaultTexture2DArrayFieldsMatch(s: BuilderState, width: u64, height: u32, format: Format)
    ensures var r := Texture2D(s, width, height, format);
      r.views.rtvArray == r.views.rtv && r.views.dsvArray == r.views.dsv && r.views.srvArray == r.views.srv
  {
  }

  /**
   * No constructor resets the builder: a buffer built on top of a 2D texture keeps its
   * height, slices, mips, format, sample description and heap type.
   */
  lemma BufferKeepsTextureFields(s: BuilderState, w: u64, h: u32, f: Format, a: u16, m: u16, n: u64)
    ensures var r := Buffer(Texture2D(s, w, h, f, a, m), n);
      && r.desc.height == h && r.desc.depthOrArraySize == a && r.desc.mipLevels == m
      && r.desc.format == f && r.desc.sampleDesc == SampleDesc(1, 0)
      && r.heapProperties.heapType == HeapType.Default
  {
  }

  /** A 1D texture built on top of a 2D array texture keeps the 2D array view dimensions. */
  lemma Texture1DKeepsArrayViews(s: BuilderState, w: u64, h: u32, f: Format, a: u16, m: u16, g: Format)
    requires a != 1
    ensures var r := Texture1D(Texture2D(s, w, h, f, a, m), w, g);
      && r.views.rtvArray == RtvDimension.Texture2DArray
      && r.views.dsvArray == DsvDimension.Texture2DArray
      && r.views.srvArray == SrvDimension.Texture2DArray
  {
  }

  /** A failed heap query can leave a consistent builder inconsistent: a 2D description with the buffer's view dimensions. */
  lemma FailedHeapQueryLeavesStaleViews(s: BuilderState, d: ResourceDesc, q: HeapQuery)
    requires d.dimension.Texture2D? && !q.succeeded
    ensures var before := Buffer(s, 256);
      var after := FromExistingResource(before, Some(ExistingResource(d, q)));
      Consistent(before) && !Consistent(after) && after.views.rtv == RtvDimension.Buffer
  {
  }

  // ---------------------------------------------------------------------------------
  // Properties of any sequence of calls

  /** Every call except a FromExistingResource whose heap query fails keeps the view dimensions consistent. */
  lemma {:induction false} RunKeepsViewsConsistent(s: BuilderState, cmds: seq<Command>)
    requires Consistent(s)
    requires forall i | 0 <= i < |cmds| :: !cmds[i].LeavesViewsStale()
    ensures Consistent(Run(s, cmds))
    decreases |cmds|
  {
    if cmds != [] {
      RunKeepsViewsConsistent(Step(s, cmds[0]), cmds[1..]);
    }
  }

  /** Starting from any builder, a shape-defining call followed by calls that never fail a heap query leaves a consistent builder. */
  lemma ShapedBuilderStaysConsistent(s: BuilderState, first: Command, rest: seq<Command>)
    requires first.DefinesShape()
    requires forall i | 0 <= i < |rest| :: !rest[i].LeavesViewsStale()
    ensures Consistent(Run(s, [first] + rest))
  {
    assert ([first] + rest)[1..] == rest;
    RunKeepsViewsConsistent(Step(s, first), rest);
  }

  /**
   * Multisampled view dimensions come only from FromExistingResource: the constructors
   * set a sample count of 1 and the setters leave it alone.
   */
  lemma {:induction false} MultisampledOnlyFromExisting(s: BuilderState, cmds: seq<Command>)
    requires s.desc.sampleDesc.count <= 1 && !s.views.HasMultisampled()
    requires forall i | 0 <= i < |cmds| :: !cmds[i].FromExisting?
    ensures Run(s, cmds).desc.sampleDesc.count <= 1 && !Run(s, cmds).views.HasMultisampled()
    decreases |cmds|
  {
    if cmds != [] {
      MultisampledOnlyFromExisting(Step(s, cmds[0]), cmds[1..]);
    }
  }

  /** In particular, a value-initialised builder never reaches a multisampled view dimension without FromExistingResource. */
  lemma ZeroStateNeverMultisampled(cmds: seq<Command>)
    requires forall i | 0 <= i < |cmds| :: !cmds[i].FromExisting?
    ensures !Run(ZeroState, cmds).views.HasMultisampled()
  {
    MultisampledOnlyFromExisting(ZeroState, cmds);
  }
}
