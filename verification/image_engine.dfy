/** The decision tables of the image/UV editor draw engine: how the space's
    display flags, the tiled-ness of the image and whether its alpha affects
    its colour select the shader's draw flags and channel shuffle; how a draw
    context picks its space accessor; and where a UDIM tile is placed.

    The space flag bits (`SI_*`, `SNODE_*`) and space types are declared in
    DNA headers that are not part of this model, so they are symbolic here:
    a space's flag word is the set of its flags that are on, and a bitwise
    AND of two flag words is set intersection. The draw-flag word is likewise
    the set of its bits that are on, so OR-ing a bit in adds it and masking
    it out removes it; `BitIndex` records where each bit sits. */
module ImageEngine {
  import opened Wrappers

  /** A bit of the draw-flag word (`IMAGE_DRAW_FLAG_*`). `OtherBit(k)` is bit
      6 + k, which the engine never names but a caller may have set. */
  datatype DrawFlag =
    | ShowAlpha | ApplyAlpha | Shuffling | Depth | DoRepeat | UseWorldPos
    | OtherBit(k: nat)

  /** The bit position of each flag. */
  function BitIndex(f: DrawFlag): nat {
    match f
    case ShowAlpha => 0
    case ApplyAlpha => 1
    case Shuffling => 2
    case Depth => 3
    case DoRepeat => 4
    case UseWorldPos => 5
    case OtherBit(k) => 6 + k
  }

  function Pow2(n: nat): nat {
    if n == 0 then 1 else 2 * Pow2(n - 1)
  }

  /** The value of each flag's bit, `1 << BitIndex(f)`. */
  function BitValue(f: DrawFlag): nat {
    Pow2(BitIndex(f))
  }

  /** The bits `get_shader_parameters` rewrites rather than only sets. */
  const REWRITTEN: set<DrawFlag> := {DoRepeat, UseWorldPos}
  /** The bits the display chain may add. */
  const DISPLAY_FLAGS: set<DrawFlag> := {ShowAlpha, ApplyAlpha, Shuffling, Depth}
  /** Every draw-flag bit the engine declares. */
  const ALL_DRAW_FLAGS: set<DrawFlag> := DISPLAY_FLAGS + REWRITTEN

  /** The declared draw flags are the bits 1, 2, 4, 8, 16 and 32, and
      distinct flags sit at distinct bits. */
  lemma DrawFlagBits()
    ensures BitValue(ShowAlpha) == 1 && BitValue(ApplyAlpha) == 2 && BitValue(Shuffling) == 4
    ensures BitValue(Depth) == 8 && BitValue(DoRepeat) == 16 && BitValue(UseWorldPos) == 32
    ensures forall a, b :: BitIndex(a) == BitIndex(b) ==> a == b
  {
    assert Pow2(5) == 32;
  }

  /** Flags of an image editor space (`SpaceImage.flag`). */
  datatype ImageSpaceFlag =
    | SiUseAlpha | SiShowAlpha | SiShowZbuf | SiShowR | SiShowG | SiShowB
    | SiDrawTile
    | SiOther(bit: nat)

  /** Flags of a node editor space (`SpaceNode.flag`). */
  datatype NodeSpaceFlag =
    | SnUseAlpha | SnShowAlpha | SnShowR | SnShowG | SnShowB
    | SnOther(bit: nat)

  /** The shader parameters; shuffle weights are only ever 0 or 1. */
  datatype ShaderParameters = ShaderParameters(
    flags: set<DrawFlag>, shuffle: seq<int>, farNear: seq<real>, usePremulAlpha: bool)

  /** A freshly constructed `ShaderParameters`: no flags, identity shuffle,
      far 100 and near 0, no premultiplied alpha. */
  const DefaultShaderParameters: ShaderParameters :=
    ShaderParameters({}, [1, 1, 1, 1], [100.0, 0.0], false)

  /** `SET_FLAG_FROM_TEST`: set `bit` when `test` holds, clear it otherwise. */
  function SetFlagFromTest(flags: set<DrawFlag>, test: bool, bit: DrawFlag): (r: set<DrawFlag>)
    ensures bit in r <==> test
    ensures r - {bit} == flags - {bit}
  {
    if test then flags + {bit} else flags - {bit}
  }

  /** A shuffle vector that selects exactly one channel. */
  predicate OneHot(v: seq<int>) {
    v in {[1, 0, 0, 0], [0, 1, 0, 0], [0, 0, 1, 0], [0, 0, 0, 1]}
  }

  /** The branch of the display chain that fires. */
  datatype DisplayMode = ShowRGBA | ShowAlphaOnly | ShowDepth | ShowRed | ShowGreen | ShowBlue | ShowRGB

  /** The branches that overwrite the shuffle vector. */
  predicate Shuffles(m: DisplayMode) {
    m in {ShowAlphaOnly, ShowDepth, ShowRed, ShowGreen, ShowBlue}
  }

  /** The channel a shuffling branch shows, as an index into (R, G, B, A):
      alpha shows channel 3, and depth, kept in the first channel of the
      depth buffer, shows channel 0 like red. */
  function ShuffledChannel(m: DisplayMode): nat {
    match m
    case ShowRed => 0
    case ShowGreen => 1
    case ShowBlue => 2
    case ShowAlphaOnly => 3
    case ShowDepth => 0
    case _ => 0
  }

  /** The shuffle weights that select channel `c` alone. */
  function UnitAt(c: nat): (v: seq<int>)
    ensures |v| == 4
  {
    seq(4, j => if j == c then 1 else 0)
  }

  /** The four unit vectors, written out. */
  lemma UnitVectors()
    ensures UnitAt(0) == [1, 0, 0, 0] && UnitAt(1) == [0, 1, 0, 0]
    ensures UnitAt(2) == [0, 0, 1, 0] && UnitAt(3) == [0, 0, 0, 1]
  {
  }

  /** The branches whose alpha handling follows `IMB_alpha_affects_rgb`. */
  predicate FollowsAlphaAffectsRgb(m: DisplayMode) {
    m in {ShowRed, ShowGreen, ShowBlue, ShowRGB}
  }

  /** The image editor's chain, tried in order: use alpha, show alpha, show
      depth, show red, show green, show blue, otherwise plain colour. */
  function ImageDisplayMode(f: set<ImageSpaceFlag>): DisplayMode {
    if SiUseAlpha in f then ShowRGBA
    else if SiShowAlpha in f then ShowAlphaOnly
    else if SiShowZbuf in f then ShowDepth
    else if SiShowR in f then ShowRed
    else if SiShowG in f then ShowGreen
    else if SiShowB in f then ShowBlue
    else ShowRGB
  }

  /** The node editor's chain: the same order without the depth case. */
  function NodeDisplayMode(f: set<NodeSpaceFlag>): DisplayMode {
    if SnUseAlpha in f then ShowRGBA
    else if SnShowAlpha in f then ShowAlphaOnly
    else if SnShowR in f then ShowRed
    else if SnShowG in f then ShowGreen
    else if SnShowB in f then ShowBlue
    else ShowRGB
  }

  /** The image chain as data: each flag with the branch it selects, in the
      order they are tried. */
  const ImagePriority: seq<(ImageSpaceFlag, DisplayMode)> := [
    (SiUseAlpha, ShowRGBA), (SiShowAlpha, ShowAlphaOnly), (SiShowZbuf, ShowDepth),
    (SiShowR, ShowRed), (SiShowG, ShowGreen), (SiShowB, ShowBlue)
  ]

  /** The branch of the first listed flag that is on, else plain colour. */
  function FirstSet(order: seq<(ImageSpaceFlag, DisplayMode)>, f: set<ImageSpaceFlag>): (m: DisplayMode)
    ensures m == ShowRGB || exists k :: 0 <= k < |order| && order[k].0 in f && order[k].1 == m
  {
    if |order| == 0 then ShowRGB
    else if order[0].0 in f then order[0].1
    else FirstSet(order[1..], f)
  }

  /** The image chain selects the branch of the first flag on in priority
      order. */
  lemma ImageDisplayModeIsFirstSet(f: set<ImageSpaceFlag>)
    ensures ImageDisplayMode(f) == FirstSet(ImagePriority, f)
  {
    var P := ImagePriority;
    assert FirstSet(P[6..], f) == ShowRGB;
    assert FirstSet(P[5..], f) == if SiShowB in f then ShowBlue else ShowRGB;
    assert FirstSet(P[4..], f) == if SiShowG in f then ShowGreen else FirstSet(P[5..], f);
    assert FirstSet(P[3..], f) == if SiShowR in f then ShowRed else FirstSet(P[4..], f);
    assert FirstSet(P[2..], f) == if SiShowZbuf in f then ShowDepth else FirstSet(P[3..], f);
    assert FirstSet(P[1..], f) == if SiShowAlpha in f then ShowAlphaOnly else FirstSet(P[2..], f);
  }

  /** Exactly one branch of the image chain fires: a branch fires when its
      own flag is on and every earlier flag is off, and plain colour fires
      when every flag is off. */
  lemma ImageDisplayModeExactlyOne(f: set<ImageSpaceFlag>)
    ensures forall k :: 0 <= k < |ImagePriority| ==>
              (ImageDisplayMode(f) == ImagePriority[k].1 <==>
                 ImagePriority[k].0 in f && forall j :: 0 <= j < k ==> ImagePriority[j].0 !in f)
    ensures ImageDisplayMode(f) == ShowRGB <==> forall j :: 0 <= j < |ImagePriority| ==> ImagePriority[j].0 !in f
  {
    var P := ImagePriority;
    assert P[0] == (SiUseAlpha, ShowRGBA) && P[1] == (SiShowAlpha, ShowAlphaOnly);
    assert P[2] == (SiShowZbuf, ShowDepth) && P[3] == (SiShowR, ShowRed);
    assert P[4] == (SiShowG, ShowGreen) && P[5] == (SiShowB, ShowBlue);
    forall k | 0 <= k < |P|
      ensures ImageDisplayMode(f) == P[k].1 <==> P[k].0 in f && forall j :: 0 <= j < k ==> P[j].0 !in f
    {
      assert (forall j :: 0 <= j < k ==> P[j].0 !in f) <==>
             (0 < k ==> SiUseAlpha !in f) && (1 < k ==> SiShowAlpha !in f) && (2 < k ==> SiShowZbuf !in f)
             && (3 < k ==> SiShowR !in f) && (4 < k ==> SiShowG !in f);
    }
  }

  /** Apply the chosen branch to the parameters. */
  function ApplyDisplay(p: ShaderParameters, m: DisplayMode, alphaAffectsRgb: bool): (r: ShaderParameters)
    ensures r.farNear == p.farNear && r.usePremulAlpha == p.usePremulAlpha
    // Bits are only ever added, and only display bits.
    ensures p.flags <= r.flags && r.flags - p.flags <= DISPLAY_FLAGS
    ensures ShowAlpha in r.flags <==> ShowAlpha in p.flags || m == ShowRGBA
    ensures ApplyAlpha in r.flags <==>
              ApplyAlpha in p.flags || m == ShowRGBA || (FollowsAlphaAffectsRgb(m) && alphaAffectsRgb)
    ensures Depth in r.flags <==> Depth in p.flags || m == ShowDepth
    ensures Shuffling in r.flags <==> Shuffling in p.flags || Shuffles(m)
    // A shuffling branch selects its own channel; the others keep the shuffle.
    ensures Shuffles(m) ==> OneHot(r.shuffle) && r.shuffle == UnitAt(ShuffledChannel(m))
    ensures !Shuffles(m) ==> r.shuffle == p.shuffle
  {
    UnitVectors();
    var alpha: set<DrawFlag> := if alphaAffectsRgb then {ApplyAlpha} else {};
    match m
    case ShowRGBA => p.(flags := p.flags + {ShowAlpha, ApplyAlpha})
    case ShowAlphaOnly =>
      var s := [0, 0, 0, 1];
      p.(flags := p.flags + {Shuffling}, shuffle := s)
    case ShowDepth =>
      var s := [1, 0, 0, 0];
      p.(flags := p.flags + {Depth, Shuffling}, shuffle := s)
    case ShowRed =>
      var s := [1, 0, 0, 0];
      p.(flags := p.flags + {Shuffling} + alpha, shuffle := s)
    case ShowGreen =>
      var s := [0, 1, 0, 0];
      p.(flags := p.flags + {Shuffling} + alpha, shuffle := s)
    case ShowBlue =>
      var s := [0, 0, 1, 0];
      p.(flags := p.flags + {Shuffling} + alpha, shuffle := s)
    case ShowRGB => p.(flags := p.flags + alpha)
  }

  /** `SpaceImageAccessor::get_shader_parameters`. The display chain looks at
      the space flags masked by the image buffer's display channels (an
      opaque input here); the repeat decision looks at the raw flags. */
  function ImageShaderParameters(
    p: ShaderParameters, simaFlag: set<ImageSpaceFlag>, channelMask: set<ImageSpaceFlag>,
    alphaAffectsRgb: bool, isTiled: bool): (r: ShaderParameters)
    ensures DoRepeat in r.flags <==> !isTiled && SiDrawTile in simaFlag
    ensures UseWorldPos in r.flags <==> isTiled
    // Apart from the two rewritten bits, bits are only added, and only declared ones.
    ensures p.flags - REWRITTEN <= r.flags
    ensures r.flags - p.flags <= ALL_DRAW_FLAGS
    ensures var m := ImageDisplayMode(simaFlag * channelMask);
            && (ShowAlpha in r.flags <==> ShowAlpha in p.flags || m == ShowRGBA)
            && (ApplyAlpha in r.flags <==>
                  ApplyAlpha in p.flags || m == ShowRGBA || (FollowsAlphaAffectsRgb(m) && alphaAffectsRgb))
            && (Depth in r.flags <==> Depth in p.flags || m == ShowDepth)
            && (Shuffling in r.flags <==> Shuffling in p.flags || Shuffles(m))
    ensures var m := ImageDisplayMode(simaFlag * channelMask);
            && (Shuffles(m) ==> r.shuffle == UnitAt(ShuffledChannel(m)))
            && (!Shuffles(m) ==> r.shuffle == p.shuffle)
    ensures r.farNear == p.farNear && r.usePremulAlpha == p.usePremulAlpha
  {
    var masked := simaFlag * channelMask;
    var doRepeat := !isTiled && SiDrawTile in simaFlag;
    var f1 := SetFlagFromTest(p.flags, doRepeat, DoRepeat);
    var f2 := SetFlagFromTest(f1, isTiled, UseWorldPos);
    ApplyDisplay(p.(flags := f2), ImageDisplayMode(masked), alphaAffectsRgb)
  }

  /** `SpaceNodeAccessor::get_shader_parameters`; `isTiled` is accepted and
      unused, as in the source. */
  function NodeShaderParameters(
    p: ShaderParameters, snodeFlag: set<NodeSpaceFlag>, alphaAffectsRgb: bool, isTiled: bool): (r: ShaderParameters)
    ensures p.flags <= r.flags
    ensures r.flags * {Depth, DoRepeat, UseWorldPos} == p.flags * {Depth, DoRepeat, UseWorldPos}
    ensures r.flags - p.flags <= DISPLAY_FLAGS
    ensures ShowAlpha in r.flags <==> ShowAlpha in p.flags || SnUseAlpha in snodeFlag
    ensures var m := NodeDisplayMode(snodeFlag);
            && (ApplyAlpha in r.flags <==>
                  ApplyAlpha in p.flags || m == ShowRGBA || (FollowsAlphaAffectsRgb(m) && alphaAffectsRgb))
            && (Shuffling in r.flags <==> Shuffling in p.flags || Shuffles(m))
    ensures var m := NodeDisplayMode(snodeFlag);
            && (Shuffles(m) ==> r.shuffle == UnitAt(ShuffledChannel(m)))
            && (!Shuffles(m) ==> r.shuffle == p.shuffle)
    ensures r.farNear == p.farNear && r.usePremulAlpha == p.usePremulAlpha
  {
    ApplyDisplay(p, NodeDisplayMode(snodeFlag), alphaAffectsRgb)
  }

  /** The node editor's flag, read as the image editor's flag of the same
      meaning. */
  function AsImageFlag(f: NodeSpaceFlag): ImageSpaceFlag {
    match f
    case SnUseAlpha => SiUseAlpha
    case SnShowAlpha => SiShowAlpha
    case SnShowR => SiShowR
    case SnShowG => SiShowG
    case SnShowB => SiShowB
    case SnOther(b) => SiOther(b)
  }

  function AsImageFlags(fs: set<NodeSpaceFlag>): set<ImageSpaceFlag> {
    set f | f in fs :: AsImageFlag(f)
  }

  /** The node editor behaves as the image editor would with the same flags,
      no depth flag, no tile repeat, an untiled image and every display
      channel available; and it gives the same answer whatever `isTiled` it
      is given. */
  lemma NodeIsImageWithoutDepth(p: ShaderParameters, f: set<NodeSpaceFlag>, alphaAffectsRgb: bool, isTiled: bool)
    requires p.flags * REWRITTEN == {}
    ensures NodeShaderParameters(p, f, alphaAffectsRgb, isTiled)
         == ImageShaderParameters(p, AsImageFlags(f), AsImageFlags(f), alphaAffectsRgb, false)
    ensures NodeShaderParameters(p, f, alphaAffectsRgb, isTiled)
         == NodeShaderParameters(p, f, alphaAffectsRgb, !isTiled)
  {
    var g := AsImageFlags(f);
    assert g * g == g;
    assert SiShowZbuf !in g && SiDrawTile !in g;
    assert NodeDisplayMode(f) == ImageDisplayMode(g) by {
      assert SnUseAlpha in f <==> SiUseAlpha in g;
      assert SnShowAlpha in f <==> SiShowAlpha in g;
      assert SnShowR in f <==> SiShowR in g;
      assert SnShowG in f <==> SiShowG in g;
      assert SnShowB in f <==> SiShowB in g;
    }
    var f1 := SetFlagFromTest(p.flags, false, DoRepeat);
    var f2 := SetFlagFromTest(f1, false, UseWorldPos);
    assert f2 == p.flags;
  }

  // ---------------------------------------------------------------------
  // Accessor dispatch

  /** The space a draw context shows. */
  datatype SpaceData =
    | ImageSpace(simaFlag: set<ImageSpaceFlag>)
    | NodeSpace(snodeFlag: set<NodeSpaceFlag>)
    | OtherSpace(spacetype: int)

  datatype SpaceAccessor =
    | SpaceImageAccessor(sima: set<ImageSpaceFlag>)
    | SpaceNodeAccessor(snode: set<NodeSpaceFlag>)

  /** `space_accessor_from_context`: an image space gets the image accessor,
      a node space the node accessor, and any other space (which a debug
      build asserts cannot happen) nothing. */
  function SpaceAccessorFromContext(space: SpaceData): Option<SpaceAccessor> {
    match space
    case ImageSpace(f) => Some(SpaceImageAccessor(f))
    case NodeSpace(f) => Some(SpaceNodeAccessor(f))
    case OtherSpace(_) => None
  }

  /** The display branch an accessor's parameters follow. */
  function AccessorDisplayMode(acc: SpaceAccessor, channelMask: set<ImageSpaceFlag>): DisplayMode {
    match acc
    case SpaceImageAccessor(f) => ImageDisplayMode(f * channelMask)
    case SpaceNodeAccessor(f) => NodeDisplayMode(f)
  }

  /** The virtual `get_shader_parameters` call. */
  function GetShaderParameters(
    acc: SpaceAccessor, p: ShaderParameters, channelMask: set<ImageSpaceFlag>,
    alphaAffectsRgb: bool, isTiled: bool): (r: ShaderParameters)
    ensures acc.SpaceNodeAccessor? ==> (Depth in r.flags <==> Depth in p.flags)
    ensures acc.SpaceImageAccessor? ==> (UseWorldPos in r.flags <==> isTiled)
    ensures Shuffles(AccessorDisplayMode(acc, channelMask)) ==>
              r.shuffle == UnitAt(ShuffledChannel(AccessorDisplayMode(acc, channelMask)))
    ensures !Shuffles(AccessorDisplayMode(acc, channelMask)) ==> r.shuffle == p.shuffle
  {
    match acc
    case SpaceImageAccessor(f) => ImageShaderParameters(p, f, channelMask, alphaAffectsRgb, isTiled)
    case SpaceNodeAccessor(f) => NodeShaderParameters(p, f, alphaAffectsRgb, isTiled)
  }

  /** The draw engine's path from a context to shader parameters: the
      context's space picks the accessor, and the accessor's parameters are
      computed from that space's own flags. An image space gives the image
      editor's parameters over its flags; a node space never touches the
      depth, repeat and world-position bits and ignores `is_tiled`; any
      other space gives no accessor. */
  lemma AccessorShaderParameters(
    space: SpaceData, p: ShaderParameters, channelMask: set<ImageSpaceFlag>,
    alphaAffectsRgb: bool, isTiled: bool)
    ensures SpaceAccessorFromContext(space).None? <==> space.OtherSpace?
    ensures space.ImageSpace? ==>
              GetShaderParameters(SpaceAccessorFromContext(space).value, p, channelMask, alphaAffectsRgb, isTiled)
              == ImageShaderParameters(p, space.simaFlag, channelMask, alphaAffectsRgb, isTiled)
    ensures space.NodeSpace? ==>
              var r := GetShaderParameters(SpaceAccessorFromContext(space).value, p, channelMask, alphaAffectsRgb, isTiled);
              && r.flags * {Depth, DoRepeat, UseWorldPos} == p.flags * {Depth, DoRepeat, UseWorldPos}
              && r == GetShaderParameters(SpaceAccessorFromContext(space).value, p, channelMask, alphaAffectsRgb, !isTiled)
              && AccessorDisplayMode(SpaceAccessorFromContext(space).value, channelMask) == NodeDisplayMode(space.snodeFlag)
  {
  }

  /** The parameters the engine draws with: a freshly constructed
      `ShaderParameters` whose premultiplied-alpha flag the caller has set,
      passed through the accessor. The flags that come out are exactly the
      declared bits whose condition holds, and the identity shuffle
      survives exactly when no channel branch fires. */
  lemma DefaultsThroughAccessor(
    acc: SpaceAccessor, premul: bool, channelMask: set<ImageSpaceFlag>, alphaAffectsRgb: bool, isTiled: bool)
    ensures var r := GetShaderParameters(acc, DefaultShaderParameters.(usePremulAlpha := premul),
                                         channelMask, alphaAffectsRgb, isTiled);
            var m := AccessorDisplayMode(acc, channelMask);
            && r.flags <= ALL_DRAW_FLAGS
            && (ShowAlpha in r.flags <==> m == ShowRGBA)
            && (ApplyAlpha in r.flags <==> m == ShowRGBA || (FollowsAlphaAffectsRgb(m) && alphaAffectsRgb))
            && (Shuffling in r.flags <==> Shuffles(m))
            && (Depth in r.flags <==> m == ShowDepth)
            && (DoRepeat in r.flags <==> acc.SpaceImageAccessor? && !isTiled && SiDrawTile in acc.sima)
            && (UseWorldPos in r.flags <==> acc.SpaceImageAccessor? && isTiled)
    ensures var r := GetShaderParameters(acc, DefaultShaderParameters.(usePremulAlpha := premul),
                                         channelMask, alphaAffectsRgb, isTiled);
            var m := AccessorDisplayMode(acc, channelMask);
            && (r.shuffle == [1, 1, 1, 1] <==> !Shuffles(m))
            && r.farNear == [100.0, 0.0] && r.usePremulAlpha == premul
  {
  }

  // ---------------------------------------------------------------------
  // UDIM tiles

  /** C's `/` on `int` for a positive divisor: the quotient truncated
      toward zero. */
  function CDiv(a: int, b: int): (q: int)
    requires b > 0
    ensures a >= 0 ==> q >= 0 && b * q <= a < b * q + b
    ensures a < 0 ==> q <= 0 && b * q - b < a <= b * q
  {
    if a >= 0 then a / b else -((-a) / b)
  }

  /** C's `%` on `int` for a positive divisor: the remainder that goes with
      `CDiv`, carrying the sign of the dividend. */
  function CMod(a: int, b: int): (m: int)
    requires b > 0
    ensures a == b * CDiv(a, b) + m
    ensures a >= 0 ==> 0 <= m < b
    ensures a < 0 ==> -b < m <= 0
  {
    a - b * CDiv(a, b)
  }

  /** The grid position of a UDIM tile, as `image_cache_image_add` computes it. */
  function UdimTile(tileNumber: int): (xy: (int, int))
    ensures tileNumber == 1001 + 10 * xy.1 + xy.0
    ensures tileNumber >= 1001 ==> 0 <= xy.0 < 10 && xy.1 >= 0
  {
    (CMod(tileNumber - 1001, 10), CDiv(tileNumber - 1001, 10))
  }

  /** Every grid position with a column in [0, 10) and a non-negative row is
      the position of exactly one tile number at or above 1001. */
  lemma UdimTileRoundTrip(x: int, y: int)
    requires 0 <= x < 10 && y >= 0
    ensures UdimTile(1001 + 10 * y + x) == (x, y)
  {
    var xy := UdimTile(1001 + 10 * y + x);
    assert 10 * y + x == 10 * xy.1 + xy.0;
  }

  /** Below 1001 the truncating operators mirror the grid: the column is
      minus the distance to 1001 modulo 10, so it lies in (-10, 0] and is 0
      exactly when 10 divides that distance, and the row is minus the
      distance divided by 10. Tile number 1000 lands at (-1, 0) and 991 at
      (0, -1). */
  lemma UdimTileBelowRange(tileNumber: int)
    requires tileNumber < 1001
    ensures UdimTile(tileNumber) == (-((1001 - tileNumber) % 10), -((1001 - tileNumber) / 10))
    ensures -10 < UdimTile(tileNumber).0 <= 0 && UdimTile(tileNumber).1 <= 0
    ensures UdimTile(tileNumber).0 == 0 <==> (1001 - tileNumber) % 10 == 0
    ensures UdimTile(1000) == (-1, 0) && UdimTile(991) == (0, -1)
  {
  }
}
