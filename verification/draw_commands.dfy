/**
 * The commands a command queue holds, and the per-command bookkeeping the
 * batcher relies on: vertex-float and index counts, and the fixed block of
 * preserved uniforms every draw receives ahead of its own uniforms.
 *
 * Images, shaders, blend modes and fill rules are opaque to the batcher; it
 * only stores and compares them. The shader program's uniform filtering,
 * the merge test of two draws and the `float32` bit conversion are passed in
 * as functions (`Env`), since their code is not part of this model.
 */
module DrawCommands {
  import opened Wrappers
  import opened VertexLimits

  const ShaderSrcImageCount: nat := 4

  /** The number of uniform words the queue itself supplies to every draw. */
  const PreservedUniformDwordCount: nat := 46

  /** An integer rectangle: `Min` inclusive, `Max` exclusive. */
  datatype Rect = Rect(minX: int, minY: int, maxX: int, maxY: int)
  {
    function Dx(): int { maxX - minX }
    function Dy(): int { maxY - minY }
  }

  /** A texture size; always positive in this model. */
  type Size = n: int | n > 0 witness 1

  /** An image as the batcher sees it: an identity and its internal size. */
  datatype Image = Image(id: nat, width: Size, height: Size)

  /** The coordinate unit a shader works in. */
  datatype Unit = Pixels | Texels

  datatype Shader = Shader(id: nat, unit: Unit)

  type Blend = nat
  type FillRule = nat

  /** The source images of a draw, packed from the front. */
  type Srcs = s: seq<Option<Image>> | |s| == ShaderSrcImageCount witness [None, None, None, None]

  type SrcRegions = s: seq<Rect> | |s| == ShaderSrcImageCount
    witness [Rect(0, 0, 0, 0), Rect(0, 0, 0, 0), Rect(0, 0, 0, 0), Rect(0, 0, 0, 0)]

  /** One destination sub-region of a draw and the number of indices drawn
      into it. */
  datatype DstRegion = DstRegion(region: Rect, indexCount: nat)

  /** A draw-triangles command. `vertices` is the command's share of the
      queue's vertex floats. */
  datatype DrawCommand = DrawCommand(
    dst: Image,
    srcs: Srcs,
    vertices: seq<U32>,
    blend: Blend,
    dstRegions: seq<DstRegion>,
    shader: Shader,
    uniforms: seq<U32>,
    fillRule: FillRule)

  /** Any other command (pixel writes, read-backs, disposals, ...), whose
      execution the batcher does not look into. `needsSync` says whether the
      caller must wait for it to run, as a pixel read-back must. */
  datatype OtherCommand = OtherCommand(id: nat, needsSync: bool)

  datatype Command = Draw(draw: DrawCommand) | Other(other: OtherCommand)

  /** The arguments of one draw-triangles request. */
  datatype DrawArgs = DrawArgs(
    dst: Image,
    srcs: Srcs,
    vertices: seq<U32>,
    indices: seq<U32>,
    blend: Blend,
    dstRegion: Rect,
    srcRegions: SrcRegions,
    shader: Shader,
    uniforms: seq<U32>,
    fillRule: FillRule)

  /** Collaborators whose code is not part of this model:
      `bits` is `math.Float32bits(float32(x))`, `filter` is the shader
      program's removal of unused uniform values, and `canMerge` is the
      merge test of a queued draw command against a new request with its
      final uniforms. */
  datatype Env = Env(
    bits: real -> U32,
    filter: (Shader, seq<U32>) -> seq<U32>,
    canMerge: (DrawCommand, DrawArgs, seq<U32>) -> bool)

  /** The number of indices a draw command draws: the sum over its
      destination regions. */
  function SumIndexCounts(rs: seq<DstRegion>): nat
  {
    if |rs| == 0 then 0 else rs[0].indexCount + SumIndexCounts(rs[1..])
  }

  lemma {:induction false} SumIndexCountsAppend(a: seq<DstRegion>, b: seq<DstRegion>)
    ensures SumIndexCounts(a + b) == SumIndexCounts(a) + SumIndexCounts(b)
  {
    if |a| > 0 {
      assert (a + b)[0] == a[0];
      assert (a + b)[1..] == a[1..] + b;
      SumIndexCountsAppend(a[1..], b);
    } else {
      assert a + b == b;
    }
  }

  /** The vertex floats a command contributes to the queue. */
  function CommandFloats(c: Command): nat
  {
    match c
    case Draw(d) => |d.vertices|
    case Other(_) => 0
  }

  /** The indices a command contributes to the queue. */
  function CommandIndices(c: Command): nat
  {
    match c
    case Draw(d) => SumIndexCounts(d.dstRegions)
    case Other(_) => 0
  }

  function CommandVertices(c: Command): seq<U32>
  {
    match c
    case Draw(d) => d.vertices
    case Other(_) => []
  }

  /** The total vertex floats of a command list. */
  function DrawFloats(cs: seq<Command>): nat
  {
    if |cs| == 0 then 0 else CommandFloats(cs[0]) + DrawFloats(cs[1..])
  }

  /** The total indices of a command list. */
  function DrawIndices(cs: seq<Command>): nat
  {
    if |cs| == 0 then 0 else CommandIndices(cs[0]) + DrawIndices(cs[1..])
  }

  /** The vertex floats of a command list, in command order. */
  function FlattenVertices(cs: seq<Command>): (r: seq<U32>)
    ensures |r| == DrawFloats(cs)
  {
    if |cs| == 0 then [] else CommandVertices(cs[0]) + FlattenVertices(cs[1..])
  }

  lemma {:induction false} CountsAppend(a: seq<Command>, b: seq<Command>)
    ensures DrawFloats(a + b) == DrawFloats(a) + DrawFloats(b)
    ensures DrawIndices(a + b) == DrawIndices(a) + DrawIndices(b)
    ensures FlattenVertices(a + b) == FlattenVertices(a) + FlattenVertices(b)
  {
    if |a| > 0 {
      assert (a + b)[0] == a[0];
      assert (a + b)[1..] == a[1..] + b;
      CountsAppend(a[1..], b);
    } else {
      assert a + b == b;
    }
  }

  /** A command list split at `n`. */
  lemma CountsSplit(cs: seq<Command>, n: nat)
    requires n <= |cs|
    ensures DrawFloats(cs) == DrawFloats(cs[..n]) + DrawFloats(cs[n..])
    ensures DrawIndices(cs) == DrawIndices(cs[..n]) + DrawIndices(cs[n..])
    ensures FlattenVertices(cs) == FlattenVertices(cs[..n]) + FlattenVertices(cs[n..])
  {
    assert cs == cs[..n] + cs[n..];
    CountsAppend(cs[..n], cs[n..]);
  }

  /** A coordinate as the shader sees it: in texels when the shader works
      in texels, else in pixels. */
  function Normalize(x: int, size: Size, unit: Unit): real
  {
    if unit == Texels then x as real / size as real else x as real
  }

  /** The source-region origin (`origin == true`) or size words of source
      `i`: texel-normalised only when that source is present. */
  function SrcRegionWords(env: Env, shader: Shader, srcs: Srcs, srcRegions: SrcRegions, i: nat, origin: bool): (r: seq<U32>)
    requires i < ShaderSrcImageCount
    ensures |r| == 2
  {
    var rect := srcRegions[i];
    var x := if origin then rect.minX else rect.Dx();
    var y := if origin then rect.minY else rect.Dy();
    match srcs[i]
    case Some(img) =>
      [env.bits(Normalize(x, img.width, shader.unit)), env.bits(Normalize(y, img.height, shader.unit))]
    case None =>
      [env.bits(x as real), env.bits(y as real)]
  }

  /** The size words of source `i`; zero when there is no such source. */
  function SrcSizeWords(env: Env, srcs: Srcs, i: nat): (r: seq<U32>)
    requires i < ShaderSrcImageCount
    ensures |r| == 2
    ensures srcs[i].None? ==> r == [0, 0]
  {
    match srcs[i]
    case Some(img) => [env.bits(img.width as real), env.bits(img.height as real)]
    case None => [0, 0]
  }

  /** The destination size followed by the four source sizes. */
  function SizeWords(env: Env, dst: Image, srcs: Srcs): (r: seq<U32>)
    ensures |r| == 10
    ensures forall i :: 0 <= i < ShaderSrcImageCount && srcs[i].None? ==> r[2 + 2 * i] == 0 && r[3 + 2 * i] == 0
  {
    var s0, s1, s2, s3 := SrcSizeWords(env, srcs, 0), SrcSizeWords(env, srcs, 1), SrcSizeWords(env, srcs, 2), SrcSizeWords(env, srcs, 3);
    [env.bits(dst.width as real), env.bits(dst.height as real), s0[0], s0[1], s1[0], s1[1], s2[0], s2[1], s3[0], s3[1]]
  }

  /** The destination region (origin and size), then the four source
      region origins, then the four source region sizes. */
  function RegionWords(env: Env, shader: Shader, dst: Image, srcs: Srcs, dstRegion: Rect, srcRegions: SrcRegions): (r: seq<U32>)
    ensures |r| == 20
  {
    var dw, dh := dst.width, dst.height;
    [env.bits(Normalize(dstRegion.minX, dw, shader.unit)), env.bits(Normalize(dstRegion.minY, dh, shader.unit)),
     env.bits(Normalize(dstRegion.Dx(), dw, shader.unit)), env.bits(Normalize(dstRegion.Dy(), dh, shader.unit))]
    + SrcRegionWords(env, shader, srcs, srcRegions, 0, true) + SrcRegionWords(env, shader, srcs, srcRegions, 1, true)
    + SrcRegionWords(env, shader, srcs, srcRegions, 2, true) + SrcRegionWords(env, shader, srcs, srcRegions, 3, true)
    + SrcRegionWords(env, shader, srcs, srcRegions, 0, false) + SrcRegionWords(env, shader, srcs, srcRegions, 1, false)
    + SrcRegionWords(env, shader, srcs, srcRegions, 2, false) + SrcRegionWords(env, shader, srcs, srcRegions, 3, false)
  }

  /** The orthographic projection from destination pixels to clip space, a
      4x4 matrix stored column by column: x scaled by 2/width, y by
      2/height, then both shifted by -1. */
  function ProjectionWords(env: Env, dst: Image): (r: seq<U32>)
    ensures |r| == 16
    ensures forall k :: 0 <= k < 16 && k % 5 != 0 && k / 4 != 3 ==> r[k] == 0
    ensures r[14] == 0 && r[10] == r[15] == env.bits(1.0) && r[12] == r[13] == env.bits(-1.0)
  {
    [env.bits(2.0 / dst.width as real), 0, 0, 0,
     0, env.bits(2.0 / dst.height as real), 0, 0,
     0, 0, env.bits(1.0), 0,
     env.bits(-1.0), env.bits(-1.0), 0, env.bits(1.0)]
  }

  /** The preserved uniform block every draw receives ahead of its own
      uniforms: sizes, regions, then the projection matrix. */
  function PreservedUniforms(env: Env, shader: Shader, dst: Image, srcs: Srcs, dstRegion: Rect, srcRegions: SrcRegions): (r: seq<U32>)
    ensures |r| == PreservedUniformDwordCount
    ensures forall i :: 0 <= i < ShaderSrcImageCount && srcs[i].None? ==> r[2 + 2 * i] == 0 && r[3 + 2 * i] == 0
    ensures r[30..] == ProjectionWords(env, dst)
  {
    SizeWords(env, dst, srcs) + RegionWords(env, shader, dst, srcs, dstRegion, srcRegions) + ProjectionWords(env, dst)
  }
}
