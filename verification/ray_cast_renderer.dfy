/** The bookkeeping of the ray-cast renderer
    (livre/lib/render/RayCastRenderer.cpp) that does not touch OpenGL: the
    vertex list of the bricks and the ranges drawn from it, the shader data
    type code, the sampling-rate state, the render-texture resize guard and
    the front-to-back brick order.

    Coordinates are only copied, never computed, so they are an abstract
    type `C`. OpenGL calls become recorded values: the vertex list handed to
    the vertex buffer, one `Draw` per `glDrawArrays`, and the size and
    generation of the render texture. */
module RayCastRenderer {
  import opened Results
  import opened CTypes

  /** The conversion of a `size_t` to `GLint`, as `glDrawArrays` receives its
      arguments: the value modulo 2^32, read as two's complement. */
  function ToGLint(x: SizeT): (r: Int32)
    ensures x < 0x8000_0000 ==> r == x
    ensures (x - r) % UInt32Limit == 0
  {
    var low := x % UInt32Limit;
    if low < 0x8000_0000 then low else low - UInt32Limit
  }

  /** Shader codes of the sample type. */
  const ShaderUInt: UInt32 := 0
  const ShaderInt: UInt32 := 1
  const ShaderFloat: UInt32 := 2

  const MaxSamplesPerRay: UInt32 := 32
  const MinSamplesPerRay: UInt32 := 512

  /** Vertices of one brick: two triangles on each of its six faces. */
  const NVerticesRenderBrick: nat := 36

  // ---------------------------------------------------------------------
  // Brick geometry
  // ---------------------------------------------------------------------

  datatype Vec3<C> = Vec3(x: C, y: C, z: C)

  /** An axis-aligned world box. */
  datatype Box<C> = Box(min: Vec3<C>, max: Vec3<C>)

  /** The corner of `b` that takes the maximum on the axes whose flag is
      set and the minimum on the others. */
  function Corner<C>(b: Box<C>, highX: bool, highY: bool, highZ: bool): Vec3<C> {
    Vec3(if highX then b.max.x else b.min.x,
         if highY then b.max.y else b.min.y,
         if highZ then b.max.z else b.min.z)
  }

  /** Every coordinate of `v` is `b`'s minimum or maximum on that axis. */
  ghost predicate OnCorner<C>(v: Vec3<C>, b: Box<C>) {
    && (v.x == b.min.x || v.x == b.max.x)
    && (v.y == b.min.y || v.y == b.max.y)
    && (v.z == b.min.z || v.z == b.max.z)
  }

  datatype Face = Back | Front | Left | Right | Bottom | Top

  /** Vertices `6f .. 6f+5` belong to the `f`-th face, in this order. */
  function FaceOf(i: nat): Face
    requires i < NVerticesRenderBrick
  {
    [Back, Front, Left, Right, Bottom, Top][i / 6]
  }

  /** `v` lies in the plane of face `f` of `b`. */
  ghost predicate OnFace<C>(v: Vec3<C>, b: Box<C>, f: Face) {
    match f
    case Back => v.z == b.min.z
    case Front => v.z == b.max.z
    case Left => v.x == b.min.x
    case Right => v.x == b.max.x
    case Bottom => v.y == b.min.y
    case Top => v.y == b.max.y
  }

  /** The two triangles `createBrick` emits for one face, in emission
      order. */
  function FaceVertices<C>(b: Box<C>, f: Face): seq<Vec3<C>> {
    var lo := b.min;
    var hi := b.max;
    match f
    case Back =>
      [ Vec3(hi.x, lo.y, lo.z), Vec3(lo.x, lo.y, lo.z), Vec3(lo.x, hi.y, lo.z),
        Vec3(lo.x, hi.y, lo.z), Vec3(hi.x, hi.y, lo.z), Vec3(hi.x, lo.y, lo.z) ]
    case Front =>
      [ Vec3(hi.x, hi.y, hi.z), Vec3(lo.x, hi.y, hi.z), Vec3(lo.x, lo.y, hi.z),
        Vec3(lo.x, lo.y, hi.z), Vec3(hi.x, lo.y, hi.z), Vec3(hi.x, hi.y, hi.z) ]
    case Left =>
      [ Vec3(lo.x, hi.y, lo.z), Vec3(lo.x, lo.y, lo.z), Vec3(lo.x, lo.y, hi.z),
        Vec3(lo.x, lo.y, hi.z), Vec3(lo.x, hi.y, hi.z), Vec3(lo.x, hi.y, lo.z) ]
    case Right =>
      [ Vec3(hi.x, hi.y, hi.z), Vec3(hi.x, lo.y, hi.z), Vec3(hi.x, lo.y, lo.z),
        Vec3(hi.x, lo.y, lo.z), Vec3(hi.x, hi.y, lo.z), Vec3(hi.x, hi.y, hi.z) ]
    case Bottom =>
      [ Vec3(hi.x, lo.y, hi.z), Vec3(lo.x, lo.y, hi.z), Vec3(lo.x, lo.y, lo.z),
        Vec3(lo.x, lo.y, lo.z), Vec3(hi.x, lo.y, lo.z), Vec3(hi.x, lo.y, hi.z) ]
    case Top =>
      [ Vec3(hi.x, hi.y, lo.z), Vec3(lo.x, hi.y, lo.z), Vec3(lo.x, hi.y, hi.z),
        Vec3(lo.x, hi.y, hi.z), Vec3(hi.x, hi.y, hi.z), Vec3(hi.x, hi.y, lo.z) ]
  }

  /** The 36 positions `createBrick` emits for a brick, face by face. */
  function BrickVertices<C>(b: Box<C>): seq<Vec3<C>> {
    FaceVertices(b, Back) + FaceVertices(b, Front) + FaceVertices(b, Left)
    + FaceVertices(b, Right) + FaceVertices(b, Bottom) + FaceVertices(b, Top)
  }

  /** The six vertices of a face lie in that face's plane, and each of their
      coordinates is the box's minimum or maximum on its axis. */
  lemma FaceLayout<C>(b: Box<C>, f: Face)
    ensures |FaceVertices(b, f)| == 6
    ensures forall j :: 0 <= j < 6 ==>
              OnCorner(FaceVertices(b, f)[j], b) && OnFace(FaceVertices(b, f)[j], b, f)
  {
  }

  /** Vertex `i` of a brick is vertex `i % 6` of face `i / 6`. */
  lemma BrickVertexAt<C>(b: Box<C>, i: nat)
    requires i < NVerticesRenderBrick
    ensures |BrickVertices(b)| == NVerticesRenderBrick
    ensures BrickVertices(b)[i] == FaceVertices(b, FaceOf(i))[i % 6]
  {
    var faces := [Back, Front, Left, Right, Bottom, Top];
    assert FaceOf(i) == faces[i / 6];
    var v := BrickVertices(b);
    assert v[..30] == FaceVertices(b, Back) + FaceVertices(b, Front) + FaceVertices(b, Left)
                      + FaceVertices(b, Right) + FaceVertices(b, Bottom);
    assert v[..24] == v[..30][..24];
    assert v[..18] == v[..24][..18];
    assert v[..12] == v[..18][..12];
    assert v[..6] == v[..12][..6];
    if i < 6 {
      assert v[i] == v[..6][i];
    } else if i < 12 {
      assert v[i] == v[..12][i];
    } else if i < 18 {
      assert v[i] == v[..18][i];
    } else if i < 24 {
      assert v[i] == v[..24][i];
    } else if i < 30 {
      assert v[i] == v[..30][i];
    }
  }

  /** Every emitted coordinate is the box's minimum or maximum on its axis,
      and the six groups of six vertices lie on the back, front, left,
      right, bottom and top faces, in that order. */
  lemma BrickLayout<C>(b: Box<C>)
    ensures |BrickVertices(b)| == NVerticesRenderBrick
    ensures forall i :: 0 <= i < NVerticesRenderBrick ==>
              && OnCorner(BrickVertices(b)[i], b)
              && OnFace(BrickVertices(b)[i], b, FaceOf(i))
  {
    forall i | 0 <= i < NVerticesRenderBrick
      ensures OnCorner(BrickVertices(b)[i], b) && OnFace(BrickVertices(b)[i], b, FaceOf(i))
    {
      BrickVertexAt(b, i);
      FaceLayout(b, FaceOf(i));
    }
  }

  /** All eight corners of the box are among the emitted vertices. */
  lemma BrickCoversCorners<C>(b: Box<C>)
    ensures forall highX: bool, highY: bool, highZ: bool ::
              Corner(b, highX, highY, highZ) in BrickVertices(b)
  {
    var back := FaceVertices(b, Back);
    var front := FaceVertices(b, Front);
    assert forall highX: bool, highY: bool :: Corner(b, highX, highY, false) in back;
    assert forall highX: bool, highY: bool :: Corner(b, highX, highY, true) in front;
  }

  /** `createBrick`: append the brick's 36 vertices to `positions`, leaving
      the positions already there unchanged. */
  function CreateBrick<C>(b: Box<C>, positions: seq<Vec3<C>>): (r: seq<Vec3<C>>)
    ensures |r| == |positions| + NVerticesRenderBrick
    ensures r[..|positions|] == positions
    ensures r[|positions|..] == BrickVertices(b)
  {
    positions + BrickVertices(b)
  }

  /** What the renderer needs to know of a brick: its world box, the
      refinement level of its node and whether its texture is valid. */
  datatype Brick<C> = Brick(box: Box<C>, refLevel: UInt32, textureValid: bool)

  /** `positions` holds the bricks' vertices one brick after the other:
      brick `k` occupies positions `36k .. 36k+35`. */
  ghost predicate VertexLayout<C>(positions: seq<Vec3<C>>, bricks: seq<Brick<C>>) {
    && |positions| == NVerticesRenderBrick * |bricks|
    && forall k, j :: 0 <= k < |bricks| && 0 <= j < NVerticesRenderBrick ==>
         positions[NVerticesRenderBrick * k + j] == BrickVertices(bricks[k].box)[j]
  }

  /** The position list of `createAndFillVertexBuffer`: `createBrick` for
      each brick in turn, starting from an empty list. */
  method FillVertexBuffer<C>(bricks: seq<Brick<C>>) returns (positions: seq<Vec3<C>>)
    ensures VertexLayout(positions, bricks)
  {
    positions := [];
    for n := 0 to |bricks|
      invariant VertexLayout(positions, bricks[..n])
    {
      var before := positions;
      positions := CreateBrick(bricks[n].box, positions);
      forall k, j | 0 <= k <= n && 0 <= j < NVerticesRenderBrick
        ensures positions[NVerticesRenderBrick * k + j] == BrickVertices(bricks[k].box)[j]
      {
        if k < n {
          assert positions[NVerticesRenderBrick * k + j] == positions[..|before|][NVerticesRenderBrick * k + j];
        } else {
          assert positions[NVerticesRenderBrick * k + j] == positions[|before|..][j];
        }
      }
      assert forall k :: 0 <= k <= n ==> bricks[..n + 1][k] == bricks[k];
    }
    assert bricks[..|bricks|] == bricks;
  }

  // ---------------------------------------------------------------------
  // Drawing
  // ---------------------------------------------------------------------

  /** Which faces the rasteriser discards; `KeepCulling` leaves the current
      setting alone. */
  datatype Culling = CullBack | CullFront | KeepCulling

  /** One `glDrawArrays( GL_TRIANGLES, first, count )` with the culling it
      was issued under. */
  datatype Draw = Draw(culling: Culling, first: Int32, count: Int32)

  /** `renderBrickVBO`: nothing when neither side is wanted; otherwise the
      36 vertices of brick `index`, culling the side that is not wanted. */
  function RenderBrickVBO(index: SizeT, front: bool, back: bool): (r: Option<Draw>)
    ensures r.None? <==> !front && !back
    ensures r.Some? ==> r.value.count == NVerticesRenderBrick
    ensures r.Some? && NVerticesRenderBrick * (index + 1) <= 0x8000_0000 ==>
              r.value.first == NVerticesRenderBrick * index
    ensures r.Some? ==>
              r.value.culling == (if front && !back then CullBack
                                  else if !front && back then CullFront
                                  else KeepCulling)
  {
    if !front && !back then None
    else
      var culling := if front && !back then CullBack else if !front && back then CullFront else KeepCulling;
      Some(Draw(culling, ToGLint(ToSizeT(index * NVerticesRenderBrick)), NVerticesRenderBrick))
  }

  /** `renderBrick`: a brick whose texture is not valid is skipped; any
      other is drawn with its back faces only. */
  function RenderBrick<C>(brick: Brick<C>, index: SizeT): (r: Option<Draw>)
    ensures r.Some? <==> brick.textureValid
    ensures r.Some? ==> r.value.culling == CullFront && r.value.count == NVerticesRenderBrick
  {
    if !brick.textureValid then None else RenderBrickVBO(index, false, true)
  }

  /** Indices of the first `n` bricks whose texture is valid, in increasing
      order: the bricks that get drawn. */
  function DrawnBricks<C>(bricks: seq<Brick<C>>, n: nat): (r: seq<nat>)
    requires n <= |bricks|
    ensures forall i :: 0 <= i < |r| ==> r[i] < n && bricks[r[i]].textureValid
    ensures forall i, j :: 0 <= i < j < |r| ==> r[i] < r[j]
    ensures forall k :: 0 <= k < n && bricks[k].textureValid ==> k in r
  {
    if n == 0 then []
    else
      var before := DrawnBricks(bricks, n - 1);
      if bricks[n - 1].textureValid then before + [n - 1] else before
  }

  /** The render loop of `onFrameRender`: each brick in turn, with its
      running index; one draw per brick whose texture is valid. */
  method RenderBricks<C>(bricks: seq<Brick<C>>) returns (draws: seq<Draw>)
    requires |bricks| <= SizeLimit
    ensures var drawn := DrawnBricks(bricks, |bricks|);
            && |draws| == |drawn|
            && forall i :: 0 <= i < |draws| ==> Some(draws[i]) == RenderBrick(bricks[drawn[i]], drawn[i])
  {
    draws := [];
    ghost var drawn: seq<nat> := [];
    for index := 0 to |bricks|
      invariant drawn == DrawnBricks(bricks, index)
      invariant |draws| == |drawn|
      invariant forall i :: 0 <= i < |draws| ==> Some(draws[i]) == RenderBrick(bricks[drawn[i]], drawn[i])
    {
      var draw := RenderBrick(bricks[index], index);
      if draw.Some? {
        draws := draws + [draw.value];
        drawn := drawn + [index];
      }
    }
  }

  /** `onFrameRender`: fill the vertex buffer, then render the bricks. */
  method OnFrameRender<C>(bricks: seq<Brick<C>>) returns (positions: seq<Vec3<C>>, draws: seq<Draw>)
    requires |bricks| <= SizeLimit
    ensures VertexLayout(positions, bricks)
    ensures var drawn := DrawnBricks(bricks, |bricks|);
            && |draws| == |drawn|
            && forall i :: 0 <= i < |draws| ==> Some(draws[i]) == RenderBrick(bricks[drawn[i]], drawn[i])
  {
    positions := FillVertexBuffer(bricks);
    draws := RenderBricks(bricks);
  }

  /** The range a brick's draw covers is exactly where `createBrick` put
      that brick's vertices, as long as the vertex count fits in a `GLint`. */
  lemma DrawCoversBrick<C>(positions: seq<Vec3<C>>, bricks: seq<Brick<C>>, index: nat)
    requires VertexLayout(positions, bricks)
    requires index < |bricks|
    requires NVerticesRenderBrick * |bricks| <= 0x8000_0000
    ensures RenderBrick(bricks[index], index).Some? <==> bricks[index].textureValid
    ensures var d := RenderBrick(bricks[index], index);
            d.Some? ==>
              && 0 <= d.value.first
              && d.value.first + d.value.count <= |positions|
              && forall j :: 0 <= j < d.value.count ==>
                   positions[d.value.first + j] == BrickVertices(bricks[index].box)[j]
  {
    var d := RenderBrick(bricks[index], index);
    if d.Some? {
      assert NVerticesRenderBrick * (index + 1) <= NVerticesRenderBrick * |bricks|;
      assert d.value.first == NVerticesRenderBrick * index;
    }
  }

  // ---------------------------------------------------------------------
  // Shader data type
  // ---------------------------------------------------------------------

  /** The sample type of the volume; `Other` is any code outside the
      enumeration. */
  datatype DataType =
    | Undefined
    | UInt8 | UInt16 | UInt32Type
    | Int8 | Int16 | Int32Type
    | Float
    | Other(code: int)

  predicate IsUnsignedType(t: DataType) {
    t == UInt8 || t == UInt16 || t == UInt32Type
  }

  predicate IsSignedType(t: DataType) {
    t == Int8 || t == Int16 || t == Int32Type
  }

  const UnsupportedShaderType: string := "Unsupported type in the shader."

  /** `getShaderDataType`: the code the shader uses for the sample type;
      undefined and unknown types are an error. */
  function ShaderDataType(t: DataType): (r: Result<UInt32, string>)
    ensures r.Success? <==> IsUnsignedType(t) || IsSignedType(t) || t == Float
    ensures r == Success(ShaderUInt) <==> IsUnsignedType(t)
    ensures r == Success(ShaderInt) <==> IsSignedType(t)
    ensures r == Success(ShaderFloat) <==> t == Float
    ensures r.Failure? ==> r.error == UnsupportedShaderType
  {
    match t
    case UInt8 | UInt16 | UInt32Type => Success(ShaderUInt)
    case Float => Success(ShaderFloat)
    case Int8 | Int16 | Int32Type => Success(ShaderInt)
    case _ => Failure(UnsupportedShaderType)
  }

  // ---------------------------------------------------------------------
  // Sampling rate
  // ---------------------------------------------------------------------

  /** The largest refinement level among the bricks, 0 when there are none. */
  function MaxRefLevel<C>(bricks: seq<Brick<C>>): (r: UInt32)
    ensures forall k :: 0 <= k < |bricks| ==> bricks[k].refLevel <= r
    ensures r == 0 || exists k :: 0 <= k < |bricks| && bricks[k].refLevel == r
  {
    if |bricks| == 0 then 0
    else
      var rest := MaxRefLevel(bricks[..|bricks| - 1]);
      var last := bricks[|bricks| - 1].refLevel;
      assert forall k :: 0 <= k < |bricks| - 1 ==> bricks[..|bricks| - 1][k] == bricks[k];
      if last > rest then last else rest
  }

  /** The `maxLOD` loop of `onFrameStart`: start from 0 and raise it to any
      larger level met. */
  method FindMaxLod<C>(bricks: seq<Brick<C>>) returns (maxLod: UInt32)
    ensures maxLod == MaxRefLevel(bricks)
  {
    maxLod := 0;
    for n := 0 to |bricks|
      invariant maxLod == MaxRefLevel(bricks[..n])
    {
      assert bricks[..n + 1][..n] == bricks[..n];
      var level := bricks[n].refLevel;
      if level > maxLod {
        maxLod := level;
      }
    }
    assert bricks[..|bricks|] == bricks;
  }

  /** Any upper bound of the levels that is itself a level (or 0) is the
      maximum: `MaxRefLevel` is the only value with its two properties. */
  lemma MaxRefLevelUnique<C>(bricks: seq<Brick<C>>, m: UInt32)
    requires forall k :: 0 <= k < |bricks| ==> bricks[k].refLevel <= m
    requires m == 0 || exists k :: 0 <= k < |bricks| && bricks[k].refLevel == m
    ensures m == MaxRefLevel(bricks)
  {
  }

  // ---------------------------------------------------------------------
  // Render texture
  // ---------------------------------------------------------------------

  /** The render texture's bookkeeping: whether a GL texture exists, its
      size, and how many times it has been (re)created. */
  datatype RenderTexture = RenderTexture(created: bool, width: SizeT, height: SizeT, generation: nat)

  /** A new render texture: no GL texture, size 0 x 0. */
  const InitialTexture: RenderTexture := RenderTexture(false, 0, 0, 0)

  /** `RenderTexture::resize`: nothing happens when the size is unchanged;
      otherwise the size is stored and a new texture of that size replaces
      the old one. */
  function Resize(t: RenderTexture, width: SizeT, height: SizeT): (r: RenderTexture)
    ensures r.width == width && r.height == height
    ensures width == t.width && height == t.height ==> r == t
    ensures width != t.width || height != t.height ==> r.created && r.generation == t.generation + 1
  {
    if width == t.width && height == t.height then t
    else RenderTexture(true, width, height, t.generation + 1)
  }

  /** Resizing twice to the same size is resizing once. */
  lemma ResizeIdempotent(t: RenderTexture, width: SizeT, height: SizeT)
    ensures Resize(Resize(t, width, height), width, height) == Resize(t, width, height)
  {
  }

  /** The texture is recreated exactly when the size changes, and exists
      afterwards exactly when it existed before or the size changed. */
  lemma ResizeRecreatesOnChange(t: RenderTexture, width: SizeT, height: SizeT)
    ensures Resize(t, width, height).generation != t.generation
            <==> width != t.width || height != t.height
    ensures Resize(t, width, height).created
            <==> t.created || width != t.width || height != t.height
  {
  }

  /** A first resize to 0 x 0 leaves the renderer without a texture. */
  lemma EmptyFirstResizeAllocatesNothing()
    ensures !Resize(InitialTexture, 0, 0).created
  {
  }

  /** An integer vector of four, as `glGetIntegerv( GL_VIEWPORT )` fills it:
      x, y, width, height. `resizeRenderTexture` takes a `Viewport`, whose
      element type is not part of this model; it is taken to be `int`, the
      type of the vector passed to it. */
  datatype Viewport = Viewport(v0: Int32, v1: Int32, v2: Int32, v3: Int32)

  /** `resizeRenderTexture`: the size passed is `viewport[2] - viewport[0]`
      by `viewport[3] - viewport[1]`, each converted to `size_t`. */
  function ResizeRenderTexture(t: RenderTexture, viewport: Viewport): (r: RenderTexture)
    ensures viewport.v0 <= viewport.v2 ==> r.width == viewport.v2 - viewport.v0
    ensures viewport.v2 < viewport.v0 ==> r.width == SizeLimit + viewport.v2 - viewport.v0
    ensures viewport.v1 <= viewport.v3 ==> r.height == viewport.v3 - viewport.v1
    ensures viewport.v3 < viewport.v1 ==> r.height == SizeLimit + viewport.v3 - viewport.v1
    ensures r.generation == t.generation <==> r.width == t.width && r.height == t.height
  {
    Resize(t, ToSizeT(viewport.v2 - viewport.v0), ToSizeT(viewport.v3 - viewport.v1))
  }

  // ---------------------------------------------------------------------
  // Renderer state
  // ---------------------------------------------------------------------

  /** The renderer's sampling settings and render texture. A requested
      `nSamplesPerRay` of 0 asks for the rate to be derived from the data. */
  datatype Renderer = Renderer(
    nSamplesPerRay: UInt32,
    nSamplesPerPixel: UInt32,
    computedSamplesPerRay: UInt32,
    texture: RenderTexture)

  /** The renderer's invariant: a requested rate is the rate used. */
  ghost predicate SamplingConsistent(r: Renderer) {
    r.nSamplesPerRay != 0 ==> r.computedSamplesPerRay == r.nSamplesPerRay
  }

  /** The constructor: the computed rate starts as the requested one. */
  function NewRenderer(samplesPerRay: UInt32, samplesPerPixel: UInt32): (r: Renderer)
    ensures SamplingConsistent(r)
    ensures r.nSamplesPerRay == samplesPerRay && r.nSamplesPerPixel == samplesPerPixel
    ensures r.computedSamplesPerRay == samplesPerRay
    ensures r.texture == InitialTexture
  {
    Renderer(samplesPerRay, samplesPerPixel, samplesPerRay, InitialTexture)
  }

  /** `update`: take the new requested rates; the computed rate is reset to
      the requested one, even when that is 0. */
  function Update(r: Renderer, samplesPerRay: UInt32, samplesPerPixel: UInt32): (u: Renderer)
    ensures SamplingConsistent(u)
    ensures u.nSamplesPerRay == samplesPerRay && u.computedSamplesPerRay == samplesPerRay
    ensures u.nSamplesPerPixel == samplesPerPixel
    ensures u.texture == r.texture
  {
    r.(nSamplesPerRay := samplesPerRay, computedSamplesPerRay := samplesPerRay,
       nSamplesPerPixel := samplesPerPixel)
  }

  /** The state after `onFrameStart`, and the shader data type it looked up
      (an error aborts the frame start before the render texture is
      resized). */
  datatype FrameStartOutcome = FrameStartOutcome(state: Renderer, shaderType: Result<UInt32, string>)

  function Max(a: UInt32, b: UInt32): UInt32 {
    if a < b then b else a
  }

  /** `onFrameStart`'s bookkeeping. When no rate is requested the rate is
      the Nyquist sample count of the finest level among the bricks, at
      least `MinSamplesPerRay`; `samplesAtLevel` stands for the
      floating-point count of voxels along the largest axis at a level.
      Then the data type is looked up and the render texture resized to the
      viewport. */
  function OnFrameStart<C>(r: Renderer, bricks: seq<Brick<C>>, dataType: DataType,
                           viewport: Viewport, samplesAtLevel: UInt32 -> UInt32): (o: FrameStartOutcome)
    ensures o.state.nSamplesPerRay == r.nSamplesPerRay
    ensures o.state.nSamplesPerPixel == r.nSamplesPerPixel
    ensures r.nSamplesPerRay != 0 ==> o.state.computedSamplesPerRay == r.computedSamplesPerRay
    ensures r.nSamplesPerRay == 0 ==>
              && o.state.computedSamplesPerRay >= MinSamplesPerRay
              && o.state.computedSamplesPerRay >= samplesAtLevel(MaxRefLevel(bricks))
              && (o.state.computedSamplesPerRay == MinSamplesPerRay
                  || o.state.computedSamplesPerRay == samplesAtLevel(MaxRefLevel(bricks)))
    ensures o.shaderType == ShaderDataType(dataType)
    ensures o.shaderType.Success? ==> o.state.texture == ResizeRenderTexture(r.texture, viewport)
    ensures o.shaderType.Failure? ==> o.state.texture == r.texture
  {
    var computed :=
      if r.nSamplesPerRay == 0 then Max(samplesAtLevel(MaxRefLevel(bricks)), MinSamplesPerRay)
      else r.computedSamplesPerRay;
    var sampled := r.(computedSamplesPerRay := computed);
    var shaderType := ShaderDataType(dataType);
    if shaderType.Failure? then FrameStartOutcome(sampled, shaderType)
    else FrameStartOutcome(sampled.(texture := ResizeRenderTexture(r.texture, viewport)), shaderType)
  }

  /** A frame start keeps the invariant, and afterwards the rate used is
      never 0. */
  lemma FrameStartKeepsSampling<C>(r: Renderer, bricks: seq<Brick<C>>, dataType: DataType,
                                   viewport: Viewport, samplesAtLevel: UInt32 -> UInt32)
    requires SamplingConsistent(r)
    ensures var o := OnFrameStart(r, bricks, dataType, viewport, samplesAtLevel);
            SamplingConsistent(o.state) && o.state.computedSamplesPerRay != 0
  {
  }

  // ---------------------------------------------------------------------
  // Brick order
  // ---------------------------------------------------------------------

  /** `s` is in ascending order of `key`. */
  ghost predicate SortedBy<T>(s: seq<T>, key: T -> int) {
    forall i, j :: 0 <= i < j < |s| ==> key(s[i]) <= key(s[j])
  }

  /** Insert `x` before the first element whose key is not smaller. */
  function Insert<T>(x: T, s: seq<T>, key: T -> int): (r: seq<T>)
    requires SortedBy(s, key)
    ensures |r| == |s| + 1
    ensures r[0] == x || (|s| > 0 && r[0] == s[0])
    ensures SortedBy(r, key)
    ensures multiset(r) == multiset(s) + multiset{x}
  {
    if |s| == 0 then [x]
    else if key(x) <= key(s[0]) then [x] + s
    else
      var rest := Insert(x, s[1..], key);
      assert forall k :: 0 <= k < |rest| ==> key(s[0]) <= key(rest[0]) <= key(rest[k]);
      var r := [s[0]] + rest;
      assert forall i :: 0 < i < |r| ==> r[i] == rest[i - 1];
      assert s == [s[0]] + s[1..];
      r
  }

  /** `order`: the bricks sorted by ascending distance `key`, as a new
      sequence (the input is a value and stays as it was). */
  function Order<T>(bricks: seq<T>, key: T -> int): (r: seq<T>)
    ensures SortedBy(r, key)
    ensures multiset(r) == multiset(bricks)
  {
    if |bricks| == 0 then []
    else
      assert bricks == [bricks[0]] + bricks[1..];
      Insert(bricks[0], Order(bricks[1..], key), key)
  }

  /** The keys of `s`, in order: what a sort by `key` fixes. */
  function Keys<T>(s: seq<T>, key: T -> int): (r: seq<int>)
    ensures |r| == |s|
    ensures forall i :: 0 <= i < |s| ==> r[i] == key(s[i])
  {
    seq(|s|, i requires 0 <= i < |s| => key(s[i]))
  }

  /** Any two sorted arrangements of the same bricks agree on the key at
      every position; only bricks at equal distance can trade places. So
      whatever tie order `std::sort` picks, its result has the keys of
      `Order`'s. */
  lemma {:induction false} SortedPermutationKeys<T>(a: seq<T>, b: seq<T>, key: T -> int)
    requires SortedBy(a, key) && SortedBy(b, key)
    requires multiset(a) == multiset(b)
    ensures Keys(a, key) == Keys(b, key)
    decreases |a|
  {
    assert |a| == |multiset(a)| == |multiset(b)| == |b|;
    if |a| > 0 {
      var j := SameLeastKey(a, b, key);
      var rest := Without(b, j, key);
      assert a == [a[0]] + a[1..];
      assert multiset(rest) == multiset(a[1..]);
      SortedPermutationKeys(a[1..], rest, key);
      KeysAfterHead(a, b, rest, key);
    }
  }

  /** Equal keys at the head and equal keys after it are equal keys. */
  lemma KeysAfterHead<T>(a: seq<T>, b: seq<T>, rest: seq<T>, key: T -> int)
    requires |a| == |b| > 0 && |rest| + 1 == |b| && key(a[0]) == key(b[0])
    requires Keys(a[1..], key) == Keys(rest, key)
    requires forall p :: 0 <= p < |rest| ==> key(rest[p]) == key(b[p + 1])
    ensures Keys(a, key) == Keys(b, key)
  {
    forall p | 0 < p < |a|
      ensures key(a[p]) == key(b[p])
    {
      assert Keys(a[1..], key)[p - 1] == Keys(rest, key)[p - 1];
    }
  }

  /** The first elements of two sorted arrangements of the same bricks are
      at the same distance; `j` finds the first one of `a` in `b`. */
  lemma SameLeastKey<T>(a: seq<T>, b: seq<T>, key: T -> int) returns (j: nat)
    requires SortedBy(a, key) && SortedBy(b, key)
    requires multiset(a) == multiset(b) && |a| > 0
    ensures j < |b| && b[j] == a[0]
    ensures key(a[0]) == key(b[0])
  {
    assert a[0] in multiset(b);
    j :| 0 <= j < |b| && b[j] == a[0];
    assert b[0] in multiset(a);
    var i :| 0 <= i < |a| && a[i] == b[0];
    assert key(a[0]) <= key(a[i]);
    assert key(b[0]) <= key(b[j]);
  }

  /** `b` without its element at `j`, which is at `b[0]`'s distance: still
      sorted, one fewer element, and each later position holds the key of
      the position after it in `b`. */
  function Without<T>(b: seq<T>, j: nat, key: T -> int): (r: seq<T>)
    requires SortedBy(b, key) && j < |b| && key(b[j]) == key(b[0])
    ensures multiset(r) == multiset(b) - multiset{b[j]}
    ensures SortedBy(r, key)
    ensures |r| + 1 == |b|
    ensures forall p :: 0 <= p < |r| ==> key(r[p]) == key(b[p + 1])
  {
    var r := b[..j] + b[j + 1..];
    assert b == b[..j] + [b[j]] + b[j + 1..];
    forall p, q | 0 <= p < q < |r|
      ensures key(r[p]) <= key(r[q])
    {
      assert r[p] == b[if p < j then p else p + 1];
      assert r[q] == b[if q < j then q else q + 1];
    }
    forall p | 0 <= p < |r|
      ensures key(r[p]) == key(b[p + 1])
    {
      if p < j {
        assert r[p] == b[p];
        assert key(b[0]) <= key(b[p]) <= key(b[p + 1]) <= key(b[j]);
      } else {
        assert r[p] == b[p + 1];
      }
    }
    r
  }

  /** Bricks already in order keep their keys in place: a sort moves at
      most bricks at equal distance. */
  lemma OrderSortedUnchanged<T>(bricks: seq<T>, key: T -> int)
    requires SortedBy(bricks, key)
    ensures Keys(Order(bricks, key), key) == Keys(bricks, key)
  {
    SortedPermutationKeys(Order(bricks, key), bricks, key);
  }

  /** Ordering twice gives the keys of ordering once. */
  lemma OrderIdempotent<T>(bricks: seq<T>, key: T -> int)
    ensures Keys(Order(Order(bricks, key), key), key) == Keys(Order(bricks, key), key)
  {
    OrderSortedUnchanged(Order(bricks, key), key);
  }

  /** When no two bricks are at the same distance, the order is fully
      determined: every sorted permutation is `Order`'s result. */
  lemma OrderDistinctDetermined<T>(bricks: seq<T>, sorted: seq<T>, key: T -> int)
    requires forall i, j :: 0 <= i < j < |bricks| ==> key(bricks[i]) != key(bricks[j])
    requires SortedBy(sorted, key) && multiset(sorted) == multiset(bricks)
    ensures sorted == Order(bricks, key)
  {
    var r := Order(bricks, key);
    SortedPermutationKeys(r, sorted, key);
    forall p | 0 <= p < |r|
      ensures r[p] == sorted[p]
    {
      assert Keys(r, key)[p] == Keys(sorted, key)[p];
      assert r[p] in multiset(r) && sorted[p] in multiset(sorted);
      SameKeySameBrick(bricks, r[p], sorted[p], key);
    }
  }

  /** Among bricks at pairwise different distances, the distance names the
      brick. */
  lemma SameKeySameBrick<T>(bricks: seq<T>, x: T, y: T, key: T -> int)
    requires forall i, j :: 0 <= i < j < |bricks| ==> key(bricks[i]) != key(bricks[j])
    requires x in multiset(bricks) && y in multiset(bricks) && key(x) == key(y)
    ensures x == y
  {
    var i :| 0 <= i < |bricks| && bricks[i] == x;
    var j :| 0 <= j < |bricks| && bricks[j] == y;
    assert i == j;
  }
}
