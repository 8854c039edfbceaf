/**
 * The command queue: the draw commands of one frame, with the vertex floats
 * and vertex indices they draw, batched so that consecutive compatible
 * draws become one command.
 *
 * Enqueueing a draw appends its vertices to the queue's vertex array and
 * its indices, shifted by the number of vertices already in the current
 * vertex buffer, to the index array. A draw whose vertices would overflow
 * the current vertex buffer starts a new one, and so a new run (see
 * `VertexRuns`). A draw that the previous draw command can absorb is merged
 * into it instead of becoming a command of its own.
 */
module CommandQueue {
  import opened Wrappers
  import opened VertexLimits
  import opened Uint32sBuffer
  import opened DrawCommands
  import opened VertexRuns
  import opened SeqLemmas

  /** An error reported by the graphics driver. */
  datatype DriverError = DriverError(code: nat)

  /** A callback to run after the frame's commands are executed; only its
      identity is modelled. */
  type Finalizer = nat

  datatype Queue = Queue(
    commands: seq<Command>,
    vertices: seq<U32>,
    indices: seq<U32>,
    tmpNumVertexFloats: nat,
    uniformsBuffer: Buffer,
    finalizers: seq<Finalizer>,
    err: Option<DriverError>)

  /** A queue as `&commandQueue{}` creates it. */
  function NewQueue(): Queue
  {
    Queue([], [], [], 0, BufferState(0, 0, 0), [], None)
  }

  /** The queue's representation invariant on target `a`: the vertex and
      index arrays hold exactly what the commands draw, every draw command
      fits in one vertex buffer and has a destination region, and
      `tmpNumVertexFloats` counts the vertex floats of the last run, the
      ones the current vertex buffer already holds. */
  predicate Valid(q: Queue, a: Arch)
  {
    && q.vertices == FlattenVertices(q.commands)
    && |q.indices| == DrawIndices(q.commands)
    && EachFits(q.commands, MaxVertexFloatCount(a))
    && (forall i :: 0 <= i < |q.commands| && q.commands[i].Draw? ==> |q.commands[i].draw.dstRegions| > 0)
    && q.tmpNumVertexFloats == DrawFloats(LastRun(q.commands, MaxVertexFloatCount(a)))
  }

  lemma NewQueueValid(a: Arch)
    ensures Valid(NewQueue(), a)
  {
  }

  /** `addFinalizer`: queues `f` to run at the end of the frame. */
  function AddFinalizer(q: Queue, f: Finalizer): (r: Queue)
    ensures r.finalizers == q.finalizers + [f]
    ensures r.(finalizers := q.finalizers) == q
  {
    q.(finalizers := q.finalizers + [f])
  }

  /** `uint32` addition, wrapping around. */
  function Add32(x: U32, y: U32): U32
  {
    ToU32(x as int + y as int)
  }

  /** The loop of `appendIndices`, from position `i` on. */
  function RebaseFrom(s: seq<U32>, i: nat, offset: U32): (r: seq<U32>)
    requires i <= |s|
    ensures |r| == |s| && r[..i] == s[..i]
    ensures forall j :: i <= j < |s| ==> r[j] == Add32(s[j], offset)
    decreases |s| - i
  {
    if i == |s| then s else RebaseFrom(s[i := Add32(s[i], offset)], i + 1, offset)
  }

  /** `appendIndices`: appends `added`, each shifted by `offset` (mod 2^32). */
  function AppendIndices(indices: seq<U32>, added: seq<U32>, offset: U32): (r: seq<U32>)
    ensures |r| == |indices| + |added| && r[..|indices|] == indices
    ensures forall j :: 0 <= j < |added| ==> r[|indices| + j] == Add32(added[j], offset)
  {
    RebaseFrom(indices + added, |indices|, offset)
  }

  /** `lastVertices`: the last `n` vertex floats. */
  function LastVertices(vs: seq<U32>, n: nat): (r: seq<U32>)
    requires n <= |vs|
    ensures |r| == n && vs == vs[..|vs| - n] + r
  {
    vs[|vs| - n..]
  }

  /** The only way enqueueing fails: a draw with more vertex floats than one
      vertex buffer holds (a panic in the source). */
  datatype EnqueueError = TooManyVertexFloats(limit: nat, count: nat)

  /** The uniforms a draw command stores: the preserved block followed by the
      caller's uniforms, with unused values removed by the shader. */
  function FinalUniforms(env: Env, args: DrawArgs): seq<U32>
  {
    env.filter(args.shader, PreservedUniforms(env, args.shader, args.dst, args.srcs, args.dstRegion, args.srcRegions) + args.uniforms)
  }

  /** Adds `n` indices drawn into `region` to a draw command's regions: the
      last region's count grows when it is the same region, else a new
      region is appended. */
  function ExtendRegions(rs: seq<DstRegion>, region: Rect, n: nat): (r: seq<DstRegion>)
    requires |rs| > 0
    ensures |rs| <= |r| <= |rs| + 1
    ensures SumIndexCounts(r) == SumIndexCounts(rs) + n
    ensures r[|r| - 1].region == region && r[|r| - 1].indexCount >= n
    ensures r[..|rs| - 1] == rs[..|rs| - 1]
    ensures |r| == |rs| <==> rs[|rs| - 1].region == region
    ensures |r| == |rs| + 1 ==> r == rs + [DstRegion(region, n)]
  {
    var k := |rs| - 1;
    var prefix := rs[..k];
    assert rs == prefix + [rs[k]];
    SumIndexCountsAppend(prefix, [rs[k]]);
    if rs[k].region == region then
      var r := prefix + [rs[k].(indexCount := rs[k].indexCount + n)];
      SumIndexCountsAppend(prefix, [rs[k].(indexCount := rs[k].indexCount + n)]);
      r
    else
      SumIndexCountsAppend(rs, [DstRegion(region, n)]);
      rs + [DstRegion(region, n)]
  }

  /** The vertices of the last command are the last vertex floats of the
      queue. */
  lemma LastCommandVertices(q: Queue, a: Arch)
    requires Valid(q, a) && |q.commands| > 0
    ensures var cs := q.commands; var k := |cs| - 1;
      q.vertices == FlattenVertices(cs[..k]) + CommandVertices(cs[k])
  {
    var cs := q.commands;
    var k := |cs| - 1;
    CountsSplit(cs, k);
    assert cs[k..] == [cs[k]];
    assert [cs[k]][1..] == [];
  }

  /** Whether the draw needs a new vertex buffer. */
  predicate Splits(q: Queue, a: Arch, args: DrawArgs)
  {
    MustUseDifferentVertexBuffer(a, q.tmpNumVertexFloats + |args.vertices|)
  }

  /** Whether the draw, with its final uniforms, is merged into the last
      queued command. */
  predicate Merges(q: Queue, a: Arch, env: Env, args: DrawArgs, uniforms: seq<U32>)
  {
    && !Splits(q, a, args)
    && |q.commands| > 0
    && q.commands[|q.commands| - 1].Draw?
    && env.canMerge(q.commands[|q.commands| - 1].draw, args, uniforms)
  }

  /** The command a draw becomes when it is not merged. */
  function NewDrawCommand(args: DrawArgs, uniforms: seq<U32>): DrawCommand
  {
    DrawCommand(args.dst, args.srcs, args.vertices, args.blend, [DstRegion(args.dstRegion, |args.indices|)],
                args.shader, uniforms, args.fillRule)
  }

  /** The number of vertex floats in the draw's vertex buffer that come
      before its own: none when it starts a new buffer. */
  function BufferStart(q: Queue, a: Arch, args: DrawArgs): nat
  {
    if Splits(q, a, args) then 0 else q.tmpNumVertexFloats
  }

  /** The first half of enqueueing a draw: its vertex floats and rebased
      indices are appended, the current buffer's float count and the
      uniform buffer are updated. */
  function AppendDrawData(q: Queue, a: Arch, args: DrawArgs): (r: Queue)
    ensures r.commands == q.commands && r.finalizers == q.finalizers && r.err == q.err
    ensures r.vertices == q.vertices + args.vertices
    ensures r.tmpNumVertexFloats == BufferStart(q, a, args) + |args.vertices|
    ensures |r.indices| == |q.indices| + |args.indices| && r.indices[..|q.indices|] == q.indices
    ensures forall j :: 0 <= j < |args.indices| ==>
      r.indices[|q.indices| + j] == Add32(args.indices[j], ToU32(BufferStart(q, a, args) / VertexFloatCount))
  {
    var base := BufferStart(q, a, args);
    q.(vertices := q.vertices + args.vertices,
       indices := AppendIndices(q.indices, args.indices, ToU32(base / VertexFloatCount)),
       tmpNumVertexFloats := base + |args.vertices|,
       uniformsBuffer := Alloc(q.uniformsBuffer, |args.uniforms| + PreservedUniformDwordCount).buffer)
  }

  /** The second half: the draw is merged into the last command, whose
      vertices become the last floats of the vertex array, or becomes a
      new command. */
  function QueueCommands(q: Queue, a: Arch, env: Env, args: DrawArgs, uniforms: seq<U32>): seq<Command>
    requires Valid(q, a)
  {
    var n := |args.vertices|;
    var vertices := q.vertices + args.vertices;
    if Merges(q, a, env, args, uniforms) then
      var k := |q.commands| - 1;
      var last := q.commands[k].draw;
      LastCommandVertices(q, a);
      var merged := last.(vertices := LastVertices(vertices, n + |last.vertices|),
                          dstRegions := ExtendRegions(last.dstRegions, args.dstRegion, |args.indices|));
      q.commands[..k] + [Draw(merged)]
    else
      var c := NewDrawCommand(args, uniforms).(vertices := LastVertices(vertices, n));
      q.commands + [Draw(c)]
  }

  /** `EnqueueDrawTrianglesCommand`, past the vertex-count check, for a draw
      whose final uniforms are `uniforms`. */
  function EnqueueDrawWith(q: Queue, a: Arch, env: Env, args: DrawArgs, uniforms: seq<U32>): (r: Queue)
    requires Valid(q, a) && |args.vertices| <= MaxVertexFloatCount(a)
    ensures r.vertices == q.vertices + args.vertices
    ensures |r.indices| == |q.indices| + |args.indices| && r.indices[..|q.indices|] == q.indices
    ensures r.finalizers == q.finalizers && r.err == q.err
    ensures r.tmpNumVertexFloats == BufferStart(q, a, args) + |args.vertices|
    ensures forall j :: 0 <= j < |args.indices| ==>
      r.indices[|q.indices| + j] == Add32(args.indices[j], ToU32(BufferStart(q, a, args) / VertexFloatCount))
  {
    AppendDrawData(q, a, args).(commands := QueueCommands(q, a, env, args, uniforms))
  }

  /** `EnqueueDrawTrianglesCommand`: rejects a draw with more vertex floats
      than a vertex buffer holds, else queues it with the preserved
      uniforms prepended and unused uniforms removed. */
  function EnqueueDraw(q: Queue, a: Arch, env: Env, args: DrawArgs): (r: Result<Queue, EnqueueError>)
    requires Valid(q, a)
    ensures r.Failure? <==> |args.vertices| > MaxVertexFloatCount(a)
    ensures r.Failure? ==> r.error == TooManyVertexFloats(MaxVertexFloatCount(a), |args.vertices|)
    ensures r.Success? ==>
      && r.value.vertices == q.vertices + args.vertices
      && |r.value.indices| == |q.indices| + |args.indices|
      && r.value.indices[..|q.indices|] == q.indices
      && r.value.finalizers == q.finalizers
      && r.value.err == q.err
  {
    var n := |args.vertices|;
    if n > MaxVertexFloatCount(a) then
      Failure(TooManyVertexFloats(MaxVertexFloatCount(a), n))
    else
      Success(EnqueueDrawWith(q, a, env, args, FinalUniforms(env, args)))
  }

  /** What enqueueing a draw does to the command list: a merged draw
      extends the last command's vertices and destination regions, any
      other draw becomes a new command at the end. */
  lemma EnqueueDrawCommands(q: Queue, a: Arch, env: Env, args: DrawArgs, uniforms: seq<U32>)
    requires Valid(q, a) && |args.vertices| <= MaxVertexFloatCount(a)
    ensures var r := EnqueueDrawWith(q, a, env, args, uniforms);
      && (Merges(q, a, env, args, uniforms) ==>
            var k := |q.commands| - 1;
            var last := q.commands[k].draw;
            r.commands == q.commands[..k] + [Draw(last.(
              vertices := last.vertices + args.vertices,
              dstRegions := ExtendRegions(last.dstRegions, args.dstRegion, |args.indices|)))])
      && (!Merges(q, a, env, args, uniforms) ==> r.commands == q.commands + [Draw(NewDrawCommand(args, uniforms))])
  {
    var n := |args.vertices|;
    var vertices := q.vertices + args.vertices;
    if Merges(q, a, env, args, uniforms) {
      var k := |q.commands| - 1;
      var last := q.commands[k].draw;
      LastCommandVertices(q, a);
      var before := FlattenVertices(q.commands[..k]);
      assert vertices == before + (last.vertices + args.vertices);
      assert LastVertices(vertices, n + |last.vertices|) == last.vertices + args.vertices;
    } else {
      assert LastVertices(vertices, n) == args.vertices;
    }
  }

  lemma SingletonCounts(c: Command)
    ensures DrawFloats([c]) == CommandFloats(c)
    ensures DrawIndices([c]) == CommandIndices(c)
    ensures FlattenVertices([c]) == CommandVertices(c)
  {
    assert [c][1..] == [];
  }

  /** The count of vertex floats the current vertex buffer holds once `c`
      is appended to `cs`. */
  function RunFloatsAfter(cs: seq<Command>, tmp: nat, c: Command, max: nat): nat
  {
    if |cs| > 0 && c.Draw? && tmp + CommandFloats(c) > max then CommandFloats(c) else tmp + CommandFloats(c)
  }

  lemma LastRunFloatsSnoc(cs: seq<Command>, c: Command, max: nat)
    ensures DrawFloats(LastRun(cs + [c], max)) == RunFloatsAfter(cs, DrawFloats(LastRun(cs, max)), c, max)
  {
    var prior := LastRun(cs, max);
    LastRunSnoc(cs, c, max);
    if |cs| > 0 && c.Draw? && DrawFloats(prior) + CommandFloats(c) > max {
      assert LastRun(cs + [c], max) == [c];
      SingletonCounts(c);
    } else {
      assert LastRun(cs + [c], max) == prior + [c];
      DrawFloatsSnoc(prior, c);
    }
  }

  /** Appending a command that fits, with its vertices and indices, keeps a
      queue valid. */
  lemma ValidSnoc(q: Queue, a: Arch, c: Command, r: Queue)
    requires Valid(q, a)
    requires r.commands == q.commands + [c]
    requires r.vertices == q.vertices + CommandVertices(c)
    requires |r.indices| == |q.indices| + CommandIndices(c)
    requires CommandFloats(c) <= MaxVertexFloatCount(a)
    requires c.Draw? ==> |c.draw.dstRegions| > 0
    requires r.tmpNumVertexFloats == RunFloatsAfter(q.commands, q.tmpNumVertexFloats, c, MaxVertexFloatCount(a))
    ensures Valid(r, a)
  {
    var cs := q.commands;
    var max := MaxVertexFloatCount(a);
    assert r.vertices == FlattenVertices(r.commands) && |r.indices| == DrawIndices(r.commands) by {
      CountsAppend(cs, [c]);
      SingletonCounts(c);
    }
    assert r.tmpNumVertexFloats == DrawFloats(LastRun(r.commands, max)) by {
      LastRunFloatsSnoc(cs, c, max);
    }
    forall i | 0 <= i < |r.commands|
      ensures CommandFloats(r.commands[i]) <= max
      ensures r.commands[i].Draw? ==> |r.commands[i].draw.dstRegions| > 0
    {
      if i < |cs| {
        assert r.commands[i] == cs[i];
      }
    }
  }

  lemma GrowLastCounts(cs: seq<Command>, c: Command, extra: seq<U32>)
    requires |cs| > 0
    requires CommandVertices(c) == CommandVertices(cs[|cs| - 1]) + extra
    ensures FlattenVertices(cs[..|cs| - 1] + [c]) == FlattenVertices(cs) + extra
    ensures DrawIndices(cs[..|cs| - 1] + [c]) == DrawIndices(cs) + CommandIndices(c) - CommandIndices(cs[|cs| - 1])
  {
    var k := |cs| - 1;
    var prefix := cs[..k];
    SplitLast(cs);
    CountsAppend(prefix, [cs[k]]);
    CountsAppend(prefix, [c]);
    SingletonCounts(cs[k]);
    SingletonCounts(c);
    var before := FlattenVertices(prefix);
    assert FlattenVertices(cs) == before + CommandVertices(cs[k]);
    assert FlattenVertices(prefix + [c]) == before + (CommandVertices(cs[k]) + extra);
    ConcatAssoc(before, CommandVertices(cs[k]), extra);
  }

  /** Replacing the last command by one with `extra` more vertex floats
      and indices, appended to the vertex and index arrays, keeps a queue
      valid as long as the current vertex buffer can take them. */
  lemma ValidGrowLast(q: Queue, a: Arch, c: Command, extra: seq<U32>, r: Queue)
    requires Valid(q, a) && |q.commands| > 0
    requires r.commands == q.commands[..|q.commands| - 1] + [c]
    requires CommandVertices(c) == CommandVertices(q.commands[|q.commands| - 1]) + extra
    requires r.vertices == q.vertices + extra
    requires CommandIndices(c) >= CommandIndices(q.commands[|q.commands| - 1])
    requires |r.indices| == |q.indices| + CommandIndices(c) - CommandIndices(q.commands[|q.commands| - 1])
    requires q.tmpNumVertexFloats + |extra| <= MaxVertexFloatCount(a)
    requires c.Draw? == q.commands[|q.commands| - 1].Draw?
    requires c.Draw? ==> |c.draw.dstRegions| > 0
    requires r.tmpNumVertexFloats == q.tmpNumVertexFloats + |extra|
    ensures Valid(r, a)
  {
    var cs := q.commands;
    var k := |cs| - 1;
    var max := MaxVertexFloatCount(a);
    var prefix := cs[..k];
    GrowLastCounts(cs, c, extra);
    assert CommandFloats(cs[k]) <= q.tmpNumVertexFloats by {
      SplitLast(cs);
      LastRunFloatsSnoc(prefix, cs[k], max);
    }
    assert r.tmpNumVertexFloats == DrawFloats(LastRun(r.commands, max)) by {
      SplitLast(cs);
      LastRunFloatsSnoc(prefix, cs[k], max);
      LastRunFloatsSnoc(prefix, c, max);
    }
    forall i | 0 <= i < |r.commands|
      ensures CommandFloats(r.commands[i]) <= max
      ensures r.commands[i].Draw? ==> |r.commands[i].draw.dstRegions| > 0
    {
      if i < k {
        assert r.commands[i] == cs[i];
      }
    }
  }

  lemma MergedDrawPreservesValid(q: Queue, a: Arch, env: Env, args: DrawArgs, uniforms: seq<U32>)
    requires Valid(q, a) && |args.vertices| <= MaxVertexFloatCount(a)
    requires Merges(q, a, env, args, uniforms)
    ensures Valid(EnqueueDrawWith(q, a, env, args, uniforms), a)
  {
    var r := EnqueueDrawWith(q, a, env, args, uniforms);
    var k := |q.commands| - 1;
    assert r.commands == q.commands[..k] + [r.commands[k]]
        && CommandVertices(r.commands[k]) == CommandVertices(q.commands[k]) + args.vertices
        && CommandIndices(r.commands[k]) == CommandIndices(q.commands[k]) + |args.indices|
        && r.commands[k].Draw? && |r.commands[k].draw.dstRegions| > 0 by {
      EnqueueDrawCommands(q, a, env, args, uniforms);
    }
    ValidGrowLast(q, a, r.commands[k], args.vertices, r);
  }

  lemma AppendedDrawPreservesValid(q: Queue, a: Arch, env: Env, args: DrawArgs, uniforms: seq<U32>)
    requires Valid(q, a) && |args.vertices| <= MaxVertexFloatCount(a)
    requires !Merges(q, a, env, args, uniforms)
    ensures Valid(EnqueueDrawWith(q, a, env, args, uniforms), a)
  {
    var r := EnqueueDrawWith(q, a, env, args, uniforms);
    var c := Draw(NewDrawCommand(args, uniforms));
    assert r.commands == q.commands + [c] by {
      EnqueueDrawCommands(q, a, env, args, uniforms);
    }
    assert CommandIndices(c) == |args.indices| by {
      var region := DstRegion(args.dstRegion, |args.indices|);
      assert NewDrawCommand(args, uniforms).dstRegions == [region];
      assert [region][1..] == [];
      assert SumIndexCounts([region]) == |args.indices|;
    }
    ValidSnoc(q, a, c, r);
  }

  /** Enqueueing a draw keeps the queue valid, whatever its uniforms. */
  lemma EnqueueDrawWithPreservesValid(q: Queue, a: Arch, env: Env, args: DrawArgs, uniforms: seq<U32>)
    requires Valid(q, a) && |args.vertices| <= MaxVertexFloatCount(a)
    ensures Valid(EnqueueDrawWith(q, a, env, args, uniforms), a)
  {
    if Merges(q, a, env, args, uniforms) {
      MergedDrawPreservesValid(q, a, env, args, uniforms);
    } else {
      AppendedDrawPreservesValid(q, a, env, args, uniforms);
    }
  }

  /** Every draw the queue accepts leaves it valid. */
  lemma EnqueueDrawPreservesValid(q: Queue, a: Arch, env: Env, args: DrawArgs)
    requires Valid(q, a)
    ensures EnqueueDraw(q, a, env, args).Success? ==> Valid(EnqueueDraw(q, a, env, args).value, a)
  {
    if |args.vertices| <= MaxVertexFloatCount(a) {
      EnqueueDrawWithPreservesValid(q, a, env, args, FinalUniforms(env, args));
    }
  }

  /** The indices of an enqueued draw are shifted by the position at which
      its vertices start in the vertex buffer of its run (counted in
      vertices), so that they address its own vertices once a flush hands
      that run's vertices to the driver. */
  lemma {:induction false} EnqueueDrawIndexOffset(q: Queue, a: Arch, env: Env, args: DrawArgs, uniforms: seq<U32>)
    requires Valid(q, a) && |args.vertices| <= MaxVertexFloatCount(a)
    ensures var r := EnqueueDrawWith(q, a, env, args, uniforms);
      var run := FlattenVertices(LastRun(r.commands, MaxVertexFloatCount(a)));
      && |run| >= |args.vertices|
      && run[|run| - |args.vertices|..] == args.vertices
      && forall j :: 0 <= j < |args.indices| ==>
           r.indices[|q.indices| + j] == Add32(args.indices[j], ToU32((|run| - |args.vertices|) / VertexFloatCount))
  {
    var r := EnqueueDrawWith(q, a, env, args, uniforms);
    var run := FlattenVertices(LastRun(r.commands, MaxVertexFloatCount(a)));
    assert |run| == BufferStart(q, a, args) + |args.vertices| && run[|run| - |args.vertices|..] == args.vertices by {
      EnqueueDrawWithPreservesValid(q, a, env, args, uniforms);
      CurrentBufferEndsWith(r, a, q.vertices, args.vertices);
    }
  }

  /** The current vertex buffer of a valid queue ends with the vertex
      floats appended last, provided it holds at least that many. */
  lemma CurrentBufferEndsWith(r: Queue, a: Arch, prior: seq<U32>, added: seq<U32>)
    requires Valid(r, a) && r.vertices == prior + added && |added| <= r.tmpNumVertexFloats
    ensures var run := FlattenVertices(LastRun(r.commands, MaxVertexFloatCount(a)));
      |run| == r.tmpNumVertexFloats && run[|run| - |added|..] == added
  {
    var run := FlattenVertices(LastRun(r.commands, MaxVertexFloatCount(a)));
    CurrentBufferVertices(r, a);
    SameSuffix(r.vertices[..|r.vertices| - |run|], run, prior, added);
  }

  /** In a valid queue the current vertex buffer's floats are the last
      `tmpNumVertexFloats` vertex floats. */
  lemma CurrentBufferVertices(q: Queue, a: Arch)
    requires Valid(q, a)
    ensures var run := FlattenVertices(LastRun(q.commands, MaxVertexFloatCount(a)));
      |run| == q.tmpNumVertexFloats && |run| <= |q.vertices| && q.vertices == q.vertices[..|q.vertices| - |run|] + run
  {
    var last := LastRun(q.commands, MaxVertexFloatCount(a));
    LastRunIsSuffix(q.commands, MaxVertexFloatCount(a));
    var m := |q.commands| - |last|;
    CountsSplit(q.commands, m);
  }

  /** Enqueueing any other command keeps the queue valid. */
  lemma EnqueuePreservesValid(q: Queue, a: Arch, c: OtherCommand)
    requires Valid(q, a)
    ensures Valid(Enqueue(q, c), a)
  {
    ValidSnoc(q, a, Other(c), Enqueue(q, c));
  }

  /** `Enqueue`: any other command is appended as it is. */
  function Enqueue(q: Queue, c: OtherCommand): (r: Queue)
    ensures r.commands == q.commands + [Other(c)]
    ensures r.(commands := q.commands) == q
  {
    q.(commands := q.commands + [Other(c)])
  }
}
