/**
 * Flushing a command queue: the calls made to the graphics driver, in
 * order, and the state the queue is left in.
 *
 * A flush begins a frame on the driver, then walks the commands run by run
 * (see `VertexRuns`): for each run that draws any index it hands the run's
 * vertex floats and indices to the driver, then executes the run's
 * commands, each draw with the offset of its first index within the run.
 * The first driver error stops the walk. The frame is ended on the driver
 * whenever it was begun, and the queue is emptied.
 *
 * `Plan` is the reference: the calls a flush should make, built from the
 * runs and the vertices each command owns. The code takes vertices from the
 * queue's vertex array instead (`FlushQueueWith`). As written it advances
 * its position in that array only for runs that draw an index
 * (`FlushQueueAsWritten`), so a run without indices leaves the next run
 * reading its vertices (`AsWrittenSkipsVertices`). `FlushQueue` advances
 * after every run and agrees with the plan on every valid queue
 * (`FlushFollowsPlan`). The facts that do not depend on the vertices
 * (`FlushSteps`, `FlushEndsOnce`, `FlushWithoutErrors`) hold for both.
 */
module QueueFlush {
  import opened Wrappers
  import opened VertexLimits
  import opened Uint32sBuffer
  import opened DrawCommands
  import opened VertexRuns
  import opened CommandQueue
  import opened SeqLemmas

  /** A call into the graphics driver. `Exec` stands for whatever the
      command's own execution asks of the driver. */
  datatype Call =
    | Begin
    | SetVertices(vertices: seq<U32>, indices: seq<U32>)
    | Exec(command: Command, indexOffset: nat)
    | End(present: bool)

  /** The driver's answer to the `n`-th call of a flush (counting from 0):
      an error or none. */
  type Driver = (nat, Call) -> Option<DriverError>

  /** The calls made so far and the error that stopped them, if any. */
  datatype Trace = Trace(calls: seq<Call>, err: Option<DriverError>)

  const Untouched := Trace([], None)

  /** Makes one call. */
  function Invoke(t: Trace, c: Call, drv: Driver): Trace
  {
    Trace(t.calls + [c], drv(|t.calls|, c))
  }

  /** Makes the calls in order, stopping at the first error. */
  function Perform(calls: seq<Call>, t: Trace, drv: Driver): Trace
    decreases |calls|
  {
    if |calls| == 0 || t.err.Some? then t
    else Perform(calls[1..], Invoke(t, calls[0], drv), drv)
  }

  /** `Perform` makes a prefix of the calls, every one of them but the last
      answered without error; it makes all of them when no error is
      reported, and the error it reports is the last call's answer. */
  lemma {:induction false} PerformSpec(calls: seq<Call>, t: Trace, drv: Driver)
    ensures var r := Perform(calls, t, drv);
      && |t.calls| <= |r.calls| <= |t.calls| + |calls|
      && r.calls == t.calls + calls[..|r.calls| - |t.calls|]
      && (t.err.Some? ==> r == t)
      && (t.err.None? ==> forall i :: |t.calls| <= i < |r.calls| - 1 ==> drv(i, r.calls[i]).None?)
      && (t.err.None? && r.err.Some? ==> |r.calls| > |t.calls| && r.err == drv(|r.calls| - 1, r.calls[|r.calls| - 1]))
      && (t.err.None? && r.err.None? ==> |r.calls| == |t.calls| + |calls|)
    decreases |calls|
  {
    if |calls| > 0 && t.err.None? {
      var t1 := Invoke(t, calls[0], drv);
      PerformSpec(calls[1..], t1, drv);
      var r := Perform(calls, t, drv);
      assert r == Perform(calls[1..], t1, drv);
      assert calls == [calls[0]] + calls[1..];
      if t1.err.None? {
        assert r.calls == t.calls + calls[..|r.calls| - |t.calls|] by {
          ConcatAssoc(t.calls, [calls[0]], calls[1..][..|r.calls| - |t1.calls|]);
          assert [calls[0]] + calls[1..][..|r.calls| - |t1.calls|] == calls[..|r.calls| - |t.calls|];
        }
        forall i | |t.calls| <= i < |r.calls| - 1
          ensures drv(i, r.calls[i]).None?
        {
          if i == |t.calls| {
            assert r.calls[i] == calls[0];
          }
        }
      } else {
        assert calls[..1] == [calls[0]];
      }
    }
  }

  /** Performing two call lists in turn is performing their concatenation. */
  lemma {:induction false} PerformAppend(a: seq<Call>, b: seq<Call>, t: Trace, drv: Driver)
    ensures Perform(a + b, t, drv) == Perform(b, Perform(a, t, drv), drv)
    decreases |a|
  {
    if |a| == 0 {
      assert a + b == b;
    } else if t.err.None? {
      assert (a + b)[0] == a[0];
      assert (a + b)[1..] == a[1..] + b;
      PerformAppend(a[1..], b, Invoke(t, a[0], drv), drv);
    }
  }

  /** The size of a run as the scan at the top of each run of a flush
      counts it: commands, vertex floats and indices. */
  datatype RunShape = RunShape(count: nat, floats: nat, indices: nat)

  /** The scan loop over the remaining commands, at position `i` with `nv`
      floats and `ne` indices counted so far. */
  function ScanRun(cs: seq<Command>, a: Arch, i: nat, nv: nat, ne: nat): (r: RunShape)
    requires i <= |cs|
    decreases |cs| - i
  {
    if i == |cs| then RunShape(i, nv, ne)
    else match cs[i]
      case Draw(d) =>
        if i > 0 && MustUseDifferentVertexBuffer(a, nv + |d.vertices|) then RunShape(i, nv, ne)
        else ScanRun(cs, a, i + 1, nv + |d.vertices|, ne + SumIndexCounts(d.dstRegions))
      case Other(_) => ScanRun(cs, a, i + 1, nv, ne)
  }

  /** The scan ends where the run ends, having counted the run's floats and
      indices. */
  lemma {:induction false} ScanRunSpec(cs: seq<Command>, a: Arch, i: nat, nv: nat, ne: nat)
    requires i <= |cs|
    ensures var r := ScanRun(cs, a, i, nv, ne);
      && r.count == RunEnd(cs, MaxVertexFloatCount(a), i, nv)
      && r.floats == nv + DrawFloats(cs[i..r.count])
      && r.indices == ne + DrawIndices(cs[i..r.count])
    decreases |cs| - i
  {
    var r := ScanRun(cs, a, i, nv, ne);
    if i == |cs| || (cs[i].Draw? && i > 0 && MustUseDifferentVertexBuffer(a, nv + CommandFloats(cs[i]))) {
      assert cs[i..r.count] == [];
    } else {
      var f, e := CommandFloats(cs[i]), CommandIndices(cs[i]);
      assert r == ScanRun(cs, a, i + 1, nv + f, ne + e);
      assert RunEnd(cs, MaxVertexFloatCount(a), i, nv) == RunEnd(cs, MaxVertexFloatCount(a), i + 1, nv + f);
      ScanRunSpec(cs, a, i + 1, nv + f, ne + e);
      var run := cs[i..r.count];
      assert run[0] == cs[i] && run[1..] == cs[i + 1..r.count];
      assert DrawFloats(run) == f + DrawFloats(cs[i + 1..r.count]);
      assert DrawIndices(run) == e + DrawIndices(cs[i + 1..r.count]);
    }
  }

  lemma ScanRunIsRun(cs: seq<Command>, a: Arch)
    ensures var r := ScanRun(cs, a, 0, 0, 0);
      var n := RunLength(cs, MaxVertexFloatCount(a));
      r == RunShape(n, DrawFloats(cs[..n]), DrawIndices(cs[..n]))
  {
    ScanRunSpec(cs, a, 0, 0, 0);
    assert cs[0..RunLength(cs, MaxVertexFloatCount(a))] == cs[..RunLength(cs, MaxVertexFloatCount(a))];
  }

  /** Executing the commands of one run, from index offset `offset`; the
      offset grows by each draw's index count. */
  function ExecRun(run: seq<Command>, offset: nat, t: Trace, drv: Driver): Trace
    decreases |run|
  {
    if |run| == 0 || t.err.Some? then t
    else
      var t1 := Invoke(t, Exec(run[0], offset), drv);
      var next := match run[0] case Draw(d) => offset + SumIndexCounts(d.dstRegions) case Other(_) => offset;
      ExecRun(run[1..], next, t1, drv)
  }

  /** Where the position in the vertex array moves after a run. */
  datatype VertexAdvance =
    | AdvanceWithIndices  // only after a run that draws an index, as written
    | AdvanceAlways       // after every run

  /** The loop over runs, taking each run's vertices from `vs` and its
      indices from `es`. */
  function FlushRuns(cs: seq<Command>, vs: seq<U32>, es: seq<U32>, a: Arch, t: Trace, drv: Driver, adv: VertexAdvance): Trace
    requires DrawFloats(cs) <= |vs| && DrawIndices(cs) <= |es|
    decreases |cs|
  {
    if |cs| == 0 || t.err.Some? then t
    else
      var shape := ScanRun(cs, a, 0, 0, 0);
      ScanRunIsRun(cs, a);
      CountsSplit(cs, shape.count);
      var nc, nv, ne := shape.count, shape.floats, shape.indices;
      var t1 := if ne > 0 then Invoke(t, SetVertices(vs[..nv], es[..ne]), drv) else t;
      var t2 := if t1.err.Some? then t1 else ExecRun(cs[..nc], 0, t1, drv);
      if ne > 0 || adv == AdvanceAlways then
        FlushRuns(cs[nc..], vs[nv..], es[ne..], a, t2, drv, adv)
      else
        FlushRuns(cs[nc..], vs, es, a, t2, drv, adv)
  }

  /** The calls that execute the commands of a run. */
  function ExecCalls(run: seq<Command>, offset: nat): (r: seq<Call>)
    ensures |r| == |run|
    decreases |run|
  {
    if |run| == 0 then []
    else [Exec(run[0], offset)] + ExecCalls(run[1..], offset + CommandIndices(run[0]))
  }

  /** The calls a flush should make for the first run of `cs`, whose
      indices start `es`: the run's own vertices with its indices (unless
      it draws none), then its commands. */
  function FirstRunCalls(cs: seq<Command>, es: seq<U32>, a: Arch): seq<Call>
    requires 0 < |cs| && DrawIndices(cs) <= |es|
  {
    var n := RunLength(cs, MaxVertexFloatCount(a));
    var ne := DrawIndices(cs[..n]);
    CountsSplit(cs, n);
    (if ne > 0 then [SetVertices(FlattenVertices(cs[..n]), es[..ne])] else []) + ExecCalls(cs[..n], 0)
  }

  /** The calls a flush should make for `cs`, whose indices are `es`, when
      the driver reports no error: the calls for each run in turn. */
  function Plan(cs: seq<Command>, es: seq<U32>, a: Arch): seq<Call>
    requires DrawIndices(cs) <= |es|
    decreases |cs|
  {
    if |cs| == 0 then []
    else
      var n := RunLength(cs, MaxVertexFloatCount(a));
      var ne := DrawIndices(cs[..n]);
      CountsSplit(cs, n);
      FirstRunCalls(cs, es, a) + Plan(cs[n..], es[ne..], a)
  }

  /** The calls the loop over runs makes when the driver reports no error,
      taking vertices from `vs` and indices from `es` and moving along them
      as `adv` says. */
  function LoopCalls(cs: seq<Command>, vs: seq<U32>, es: seq<U32>, a: Arch, adv: VertexAdvance): seq<Call>
    requires DrawFloats(cs) <= |vs| && DrawIndices(cs) <= |es|
    decreases |cs|
  {
    if |cs| == 0 then []
    else
      var n := RunLength(cs, MaxVertexFloatCount(a));
      CountsSplit(cs, n);
      var nv, ne := DrawFloats(cs[..n]), DrawIndices(cs[..n]);
      var setv := if ne > 0 then [SetVertices(vs[..nv], es[..ne])] else [];
      var rest := if ne > 0 || adv == AdvanceAlways then LoopCalls(cs[n..], vs[nv..], es[ne..], a, adv)
                  else LoopCalls(cs[n..], vs, es, a, adv);
      setv + ExecCalls(cs[..n], 0) + rest
  }

  lemma {:induction false} ExecRunIsPerform(run: seq<Command>, offset: nat, t: Trace, drv: Driver)
    ensures ExecRun(run, offset, t, drv) == Perform(ExecCalls(run, offset), t, drv)
    decreases |run|
  {
    if |run| > 0 && t.err.None? {
      var calls := ExecCalls(run, offset);
      assert calls[0] == Exec(run[0], offset);
      assert calls[1..] == ExecCalls(run[1..], offset + CommandIndices(run[0]));
      ExecRunIsPerform(run[1..], offset + CommandIndices(run[0]), Invoke(t, Exec(run[0], offset), drv), drv);
    }
  }

  /** The loop over runs makes its calls in order, stopping at the first
      error, whichever way it moves along the vertex array. */
  lemma {:induction false} FlushRunsIsPerform(cs: seq<Command>, vs: seq<U32>, es: seq<U32>, a: Arch, t: Trace, drv: Driver, adv: VertexAdvance)
    requires DrawFloats(cs) <= |vs| && DrawIndices(cs) <= |es|
    ensures FlushRuns(cs, vs, es, a, t, drv, adv) == Perform(LoopCalls(cs, vs, es, a, adv), t, drv)
    decreases |cs|
  {
    if |cs| > 0 && t.err.None? {
      var n := RunLength(cs, MaxVertexFloatCount(a));
      var run := cs[..n];
      ScanRunIsRun(cs, a);
      CountsSplit(cs, n);
      var nv, ne := DrawFloats(run), DrawIndices(run);
      var setv := if ne > 0 then [SetVertices(vs[..nv], es[..ne])] else [];
      var more := ne > 0 || adv == AdvanceAlways;
      var vs2 := if more then vs[nv..] else vs;
      var es2 := if more then es[ne..] else es;
      var rest := LoopCalls(cs[n..], vs2, es2, a, adv);
      assert LoopCalls(cs, vs, es, a, adv) == setv + ExecCalls(run, 0) + rest;
      var t1 := if ne > 0 then Invoke(t, SetVertices(vs[..nv], es[..ne]), drv) else t;
      assert Perform(setv, t, drv) == t1 by {
        if ne > 0 {
          assert setv[1..] == [];
        }
      }
      var t2 := if t1.err.Some? then t1 else ExecRun(run, 0, t1, drv);
      assert Perform(ExecCalls(run, 0), t1, drv) == t2 by {
        ExecRunIsPerform(run, 0, t1, drv);
      }
      PerformAppend(setv + ExecCalls(run, 0), rest, t, drv);
      PerformAppend(setv, ExecCalls(run, 0), t, drv);
      FlushRunsIsPerform(cs[n..], vs2, es2, a, t2, drv, adv);
    }
  }

  /** Taking vertices from the commands' own vertex floats and moving
      along them after every run, the loop's calls are the plan's. */
  lemma {:induction false} LoopCallsFollowPlan(cs: seq<Command>, es: seq<U32>, a: Arch)
    requires DrawIndices(cs) <= |es|
    ensures LoopCalls(cs, FlattenVertices(cs), es, a, AdvanceAlways) == Plan(cs, es, a)
    decreases |cs|
  {
    if |cs| > 0 {
      var vs := FlattenVertices(cs);
      var n := RunLength(cs, MaxVertexFloatCount(a));
      var run := cs[..n];
      CountsSplit(cs, n);
      var nv, ne := DrawFloats(run), DrawIndices(run);
      assert vs[..nv] == FlattenVertices(run) && vs[nv..] == FlattenVertices(cs[n..]);
      LoopCallsFollowPlan(cs[n..], es[ne..], a);
      assert Plan(cs, es, a) == FirstRunCalls(cs, es, a) + Plan(cs[n..], es[ne..], a);
    }
  }

  /** On commands whose vertices are exactly `vs`, the loop over runs of
      the corrected flush makes the planned calls, stopping at the first
      error. */
  lemma FlushRunsFollowsPlan(cs: seq<Command>, vs: seq<U32>, es: seq<U32>, a: Arch, t: Trace, drv: Driver)
    requires vs == FlattenVertices(cs) && DrawIndices(cs) <= |es|
    ensures FlushRuns(cs, vs, es, a, t, drv, AdvanceAlways) == Perform(Plan(cs, es, a), t, drv)
  {
    FlushRunsIsPerform(cs, vs, es, a, t, drv, AdvanceAlways);
    LoopCallsFollowPlan(cs, es, a);
  }

  /** The queue and trace after a flush, and the finalizers it ran. */
  datatype FlushResult = FlushResult(queue: Queue, trace: Trace, finalized: seq<Finalizer>)

  /** Whether a flush has anything to do: commands, or a frame to end. */
  predicate Idle(q: Queue, endFrame: bool)
  {
    |q.commands| == 0 && !endFrame
  }

  /** The queue emptied after a flush; at the end of a frame the uniform
      buffer is reset and the finalizers are dropped too. */
  function Cleared(q: Queue, endFrame: bool): Queue
  {
    var emptied := q.(commands := [], vertices := [], indices := [], tmpNumVertexFloats := 0);
    if endFrame then emptied.(uniformsBuffer := Reset(q.uniformsBuffer), finalizers := []) else emptied
  }

  /** `commandQueue.flush`, with the given handling of the vertex position.
      The queue's own error slot is not touched here. */
  function FlushQueueWith(q: Queue, a: Arch, endFrame: bool, drv: Driver, adv: VertexAdvance): FlushResult
    requires Valid(q, a)
  {
    if Idle(q, endFrame) then FlushResult(q, Untouched, [])
    else
      var t0 := Invoke(Untouched, Begin, drv);
      if t0.err.Some? then FlushResult(q, t0, [])
      else
        var t1 := FlushRuns(q.commands, q.vertices, q.indices, a, t0, drv, adv);
        var endErr := drv(|t1.calls|, End(endFrame));
        var t2 := Trace(t1.calls + [End(endFrame)], if t1.err.Some? then t1.err else endErr);
        FlushResult(Cleared(q, endFrame), t2, if endFrame then q.finalizers else [])
  }

  /** `commandQueue.flush` as written: the vertex position moves only after
      runs that draw an index. */
  function FlushQueueAsWritten(q: Queue, a: Arch, endFrame: bool, drv: Driver): FlushResult
    requires Valid(q, a)
  {
    FlushQueueWith(q, a, endFrame, drv, AdvanceWithIndices)
  }

  /** `commandQueue.flush` with the vertex position moved after every run. */
  function FlushQueue(q: Queue, a: Arch, endFrame: bool, drv: Driver): FlushResult
    requires Valid(q, a)
  {
    FlushQueueWith(q, a, endFrame, drv, AdvanceAlways)
  }

  /** A driver that answers every call without error. */
  const NoErrors: Driver := (n: nat, c: Call) => None

  /** With a driver that never fails, `Perform` makes every call. */
  lemma {:induction false} PerformAll(calls: seq<Call>, t: Trace)
    requires t.err.None?
    ensures Perform(calls, t, NoErrors) == Trace(t.calls + calls, None)
    decreases |calls|
  {
    if |calls| > 0 {
      PerformAll(calls[1..], Invoke(t, calls[0], NoErrors));
      assert t.calls + [calls[0]] + calls[1..] == t.calls + calls;
    }
  }

  /** The command a call executes, if any. */
  function ExecutedBy(c: Call): seq<Command>
  {
    if c.Exec? then [c.command] else []
  }

  /** The indices a call hands to the driver, if any. */
  function IndicesOf(c: Call): seq<U32>
  {
    if c.SetVertices? then c.indices else []
  }

  /** The commands executed by a list of calls, in order. */
  function Executed(calls: seq<Call>): seq<Command>
  {
    if |calls| == 0 then [] else ExecutedBy(calls[0]) + Executed(calls[1..])
  }

  /** The indices handed to the driver by a list of calls, in order. */
  function IndicesHandedOver(calls: seq<Call>): seq<U32>
  {
    if |calls| == 0 then [] else IndicesOf(calls[0]) + IndicesHandedOver(calls[1..])
  }

  lemma {:induction false} ExecutedAppend(a: seq<Call>, b: seq<Call>)
    ensures Executed(a + b) == Executed(a) + Executed(b)
    decreases |a|
  {
    if |a| == 0 {
      assert a + b == b;
    } else {
      assert (a + b)[0] == a[0];
      assert (a + b)[1..] == a[1..] + b;
      ExecutedAppend(a[1..], b);
      ConcatAssoc(ExecutedBy(a[0]), Executed(a[1..]), Executed(b));
    }
  }

  lemma {:induction false} IndicesHandedOverAppend(a: seq<Call>, b: seq<Call>)
    ensures IndicesHandedOver(a + b) == IndicesHandedOver(a) + IndicesHandedOver(b)
    decreases |a|
  {
    if |a| == 0 {
      assert a + b == b;
    } else {
      assert (a + b)[0] == a[0];
      assert (a + b)[1..] == a[1..] + b;
      IndicesHandedOverAppend(a[1..], b);
      ConcatAssoc(IndicesOf(a[0]), IndicesHandedOver(a[1..]), IndicesHandedOver(b));
    }
  }

  lemma HandedOverAppend(a: seq<Call>, b: seq<Call>)
    ensures Executed(a + b) == Executed(a) + Executed(b)
    ensures IndicesHandedOver(a + b) == IndicesHandedOver(a) + IndicesHandedOver(b)
  {
    ExecutedAppend(a, b);
    IndicesHandedOverAppend(a, b);
  }

  /** Each command of a run is executed with the offset of its first index:
      the indices of the commands before it in the run. */
  lemma {:induction false} ExecCallsOffsets(run: seq<Command>, offset: nat)
    ensures forall k :: 0 <= k < |run| ==>
      ExecCalls(run, offset)[k] == Exec(run[k], offset + DrawIndices(run[..k]))
    ensures Executed(ExecCalls(run, offset)) == run
    ensures IndicesHandedOver(ExecCalls(run, offset)) == []
    decreases |run|
  {
    if |run| > 0 {
      var calls := ExecCalls(run, offset);
      var rest := ExecCalls(run[1..], offset + CommandIndices(run[0]));
      ExecCallsOffsets(run[1..], offset + CommandIndices(run[0]));
      forall k | 0 < k < |run|
        ensures calls[k] == Exec(run[k], offset + DrawIndices(run[..k]))
      {
        assert calls[k] == rest[k - 1];
        assert run[..k][1..] == run[1..][..k - 1];
      }
      assert calls[1..] == rest;
    }
  }

  /** Whichever way it moves along the vertex array, the loop executes
      every command exactly once, in queue order, and hands over every
      index exactly once, in order. */
  lemma {:induction false} LoopCallsHandOver(cs: seq<Command>, vs: seq<U32>, es: seq<U32>, a: Arch, adv: VertexAdvance)
    requires DrawFloats(cs) <= |vs| && DrawIndices(cs) <= |es|
    ensures Executed(LoopCalls(cs, vs, es, a, adv)) == cs
    ensures IndicesHandedOver(LoopCalls(cs, vs, es, a, adv)) == es[..DrawIndices(cs)]
    decreases |cs|
  {
    if |cs| > 0 {
      var n := RunLength(cs, MaxVertexFloatCount(a));
      var run := cs[..n];
      CountsSplit(cs, n);
      var nv, ne := DrawFloats(run), DrawIndices(run);
      var setv := if ne > 0 then [SetVertices(vs[..nv], es[..ne])] else [];
      var more := ne > 0 || adv == AdvanceAlways;
      var vs2 := if more then vs[nv..] else vs;
      var es2 := es[ne..];
      var rest := LoopCalls(cs[n..], vs2, es2, a, adv);
      var exec := ExecCalls(run, 0);
      assert LoopCalls(cs, vs, es, a, adv) == setv + exec + rest by {
        if !more {
          assert es[ne..] == es;
        }
      }
      assert Executed(rest) == cs[n..] && IndicesHandedOver(rest) == es2[..DrawIndices(cs[n..])] by {
        LoopCallsHandOver(cs[n..], vs2, es2, a, adv);
      }
      assert Executed(exec) == run && IndicesHandedOver(exec) == [] by {
        ExecCallsOffsets(run, 0);
      }
      SetVerticesHandsOver(setv, vs[..nv], es[..ne]);
      StepHandsOver(setv, exec, rest, run, cs[n..], es[..ne], es2[..DrawIndices(cs[n..])]);
      TakeDrop(cs, n);
      PrefixSplit(es, ne, DrawIndices(cs));
    }
  }

  /** The optional vertex call of a run executes nothing and hands over
      the run's indices, if it has any. */
  lemma {:induction false} SetVerticesHandsOver(setv: seq<Call>, v: seq<U32>, e: seq<U32>)
    requires setv == if |e| > 0 then [SetVertices(v, e)] else []
    ensures Executed(setv) == [] && IndicesHandedOver(setv) == e
  {
    if |e| > 0 {
      assert setv[1..] == [];
    }
  }

  /** One step of the loop: the vertex call, the run's executions and the
      rest, each contributing its own commands and indices. */
  lemma {:induction false} StepHandsOver(setv: seq<Call>, exec: seq<Call>, rest: seq<Call>, run: seq<Command>, tail: seq<Command>, e1: seq<U32>, e2: seq<U32>)
    requires Executed(setv) == [] && IndicesHandedOver(setv) == e1
    requires Executed(exec) == run && IndicesHandedOver(exec) == []
    requires Executed(rest) == tail && IndicesHandedOver(rest) == e2
    ensures Executed(setv + exec + rest) == run + tail
    ensures IndicesHandedOver(setv + exec + rest) == e1 + e2
  {
    assert Executed(setv + exec + rest) == run + tail by {
      ExecutedAppend(setv, exec);
      assert Executed(setv + exec) == run;
      ExecutedAppend(setv + exec, rest);
    }
    assert IndicesHandedOver(setv + exec + rest) == e1 + e2 by {
      IndicesHandedOverAppend(setv, exec);
      assert IndicesHandedOver(setv + exec) == e1;
      IndicesHandedOverAppend(setv + exec, rest);
    }
  }

  /** The loop only sets vertices and executes commands; every vertex
      buffer it sets fits the limit and comes with at least one index. */
  lemma {:induction false} LoopCallsKinds(cs: seq<Command>, vs: seq<U32>, es: seq<U32>, a: Arch, adv: VertexAdvance)
    requires DrawFloats(cs) <= |vs| && DrawIndices(cs) <= |es| && EachFits(cs, MaxVertexFloatCount(a))
    ensures forall c :: c in LoopCalls(cs, vs, es, a, adv) ==> c.SetVertices? || c.Exec?
    ensures forall c :: c in LoopCalls(cs, vs, es, a, adv) && c.SetVertices? ==>
      |c.vertices| <= MaxVertexFloatCount(a) && |c.indices| > 0
    decreases |cs|
  {
    if |cs| > 0 {
      var max := MaxVertexFloatCount(a);
      var n := RunLength(cs, max);
      var run := cs[..n];
      RunLengthSpec(cs, max);
      CountsSplit(cs, n);
      var nv, ne := DrawFloats(run), DrawIndices(run);
      var setv := if ne > 0 then [SetVertices(vs[..nv], es[..ne])] else [];
      var more := ne > 0 || adv == AdvanceAlways;
      var vs2 := if more then vs[nv..] else vs;
      var es2 := if more then es[ne..] else es;
      var rest := LoopCalls(cs[n..], vs2, es2, a, adv);
      var exec := ExecCalls(run, 0);
      assert LoopCalls(cs, vs, es, a, adv) == setv + exec + rest;
      assert EachFits(cs[n..], max) by {
        forall i | 0 <= i < |cs[n..]| ensures CommandFloats(cs[n..][i]) <= max {
          assert cs[n..][i] == cs[n + i];
        }
      }
      LoopCallsKinds(cs[n..], vs2, es2, a, adv);
      ExecCallsAreExec(run, 0);
      KindsAppend(setv, exec, rest, max);
    }
  }

  /** A run's execution calls are all `Exec` calls. */
  lemma ExecCallsAreExec(run: seq<Command>, offset: nat)
    ensures forall c :: c in ExecCalls(run, offset) ==> c.Exec?
  {
    var exec := ExecCalls(run, offset);
    ExecCallsOffsets(run, offset);
    forall c | c in exec ensures c.Exec? {
      var k :| 0 <= k < |exec| && exec[k] == c;
    }
  }

  /** The step of `LoopCallsKinds`: an optional vertex call that fits,
      execution calls, and calls already known to be of those kinds. */
  lemma KindsAppend(setv: seq<Call>, exec: seq<Call>, rest: seq<Call>, max: nat)
    requires forall c :: c in setv ==> c.SetVertices? && |c.vertices| <= max && |c.indices| > 0
    requires forall c :: c in exec ==> c.Exec?
    requires forall c :: c in rest ==> c.SetVertices? || c.Exec?
    requires forall c :: c in rest && c.SetVertices? ==> |c.vertices| <= max && |c.indices| > 0
    ensures forall c :: c in setv + exec + rest ==> c.SetVertices? || c.Exec?
    ensures forall c :: c in setv + exec + rest && c.SetVertices? ==> |c.vertices| <= max && |c.indices| > 0
  {
    forall c | c in setv + exec + rest
      ensures c.SetVertices? || c.Exec?
      ensures c.SetVertices? ==> |c.vertices| <= max && |c.indices| > 0
    {
      assert c in setv || c in exec || c in rest;
    }
  }

  /** A plan executes every command exactly once, in queue order. */
  lemma PlanExecutesAll(cs: seq<Command>, es: seq<U32>, a: Arch)
    requires DrawIndices(cs) <= |es|
    ensures Executed(Plan(cs, es, a)) == cs
  {
    LoopCallsFollowPlan(cs, es, a);
    LoopCallsHandOver(cs, FlattenVertices(cs), es, a, AdvanceAlways);
  }

  /** A plan hands over the queue's indices in order, each exactly once. */
  lemma PlanHandsOverIndices(cs: seq<Command>, es: seq<U32>, a: Arch)
    requires DrawIndices(cs) <= |es|
    ensures IndicesHandedOver(Plan(cs, es, a)) == es[..DrawIndices(cs)]
  {
    LoopCallsFollowPlan(cs, es, a);
    LoopCallsHandOver(cs, FlattenVertices(cs), es, a, AdvanceAlways);
  }

  /** A plan only sets vertices and executes commands; every vertex buffer
      it sets fits the limit and carries at least one index. */
  lemma PlanCalls(cs: seq<Command>, es: seq<U32>, a: Arch)
    requires DrawIndices(cs) <= |es| && EachFits(cs, MaxVertexFloatCount(a))
    ensures forall c :: c in Plan(cs, es, a) ==> c.SetVertices? || c.Exec?
    ensures forall c :: c in Plan(cs, es, a) && c.SetVertices? ==>
      |c.vertices| <= MaxVertexFloatCount(a) && |c.indices| > 0
  {
    LoopCallsFollowPlan(cs, es, a);
    LoopCallsKinds(cs, FlattenVertices(cs), es, a, AdvanceAlways);
  }

  /** Flushing a valid queue, whichever way the vertex position moves:
      nothing when there is nothing to do; only the failed `Begin` when the
      driver refuses it; otherwise the loop's calls up to the first error,
      then `End`, reporting the first error (that of `End` only when nothing
      failed before). Afterwards the queue is empty and valid; at the end of
      a frame its uniform buffer is emptied and its finalizers are run once
      and dropped. */
  lemma FlushSteps(q: Queue, a: Arch, endFrame: bool, drv: Driver, adv: VertexAdvance)
    requires Valid(q, a)
    ensures var r := FlushQueueWith(q, a, endFrame, drv, adv);
      var body := Perform([Begin] + LoopCalls(q.commands, q.vertices, q.indices, a, adv), Untouched, drv);
      && (Idle(q, endFrame) ==> r == FlushResult(q, Untouched, []))
      && (!Idle(q, endFrame) && drv(0, Begin).Some? ==> r == FlushResult(q, Trace([Begin], drv(0, Begin)), []))
      && (!Idle(q, endFrame) && drv(0, Begin).None? ==>
           && r.trace.calls == body.calls + [End(endFrame)]
           && r.trace.err == (if body.err.Some? then body.err else drv(|body.calls|, End(endFrame)))
           && r.queue.commands == [] && Valid(r.queue, a) && r.queue.err == q.err
           && (endFrame ==> r.queue.finalizers == [] && r.queue.uniformsBuffer.len == 0 && r.finalized == q.finalizers)
           && (!endFrame ==> r.queue.finalizers == q.finalizers && r.queue.uniformsBuffer == q.uniformsBuffer && r.finalized == []))
  {
    if !Idle(q, endFrame) {
      var t0 := Invoke(Untouched, Begin, drv);
      var calls := LoopCalls(q.commands, q.vertices, q.indices, a, adv);
      PerformAppend([Begin], calls, Untouched, drv);
      assert [Begin][1..] == [];
      assert Perform([Begin], Untouched, drv) == t0;
      FlushRunsIsPerform(q.commands, q.vertices, q.indices, a, t0, drv, adv);
    }
  }

  /** The corrected flush makes exactly the planned calls: `FlushSteps`
      with the loop's calls being the plan's. */
  lemma FlushFollowsPlan(q: Queue, a: Arch, endFrame: bool, drv: Driver)
    requires Valid(q, a)
    ensures var r := FlushQueue(q, a, endFrame, drv);
      var body := Perform([Begin] + Plan(q.commands, q.indices, a), Untouched, drv);
      && (Idle(q, endFrame) ==> r == FlushResult(q, Untouched, []))
      && (!Idle(q, endFrame) && drv(0, Begin).Some? ==> r == FlushResult(q, Trace([Begin], drv(0, Begin)), []))
      && (!Idle(q, endFrame) && drv(0, Begin).None? ==>
           && r.trace.calls == body.calls + [End(endFrame)]
           && r.trace.err == (if body.err.Some? then body.err else drv(|body.calls|, End(endFrame)))
           && r.queue.commands == [] && Valid(r.queue, a) && r.queue.err == q.err
           && (endFrame ==> r.queue.finalizers == [] && r.queue.uniformsBuffer.len == 0 && r.finalized == q.finalizers)
           && (!endFrame ==> r.queue.finalizers == q.finalizers && r.queue.uniformsBuffer == q.uniformsBuffer && r.finalized == []))
  {
    FlushSteps(q, a, endFrame, drv, AdvanceAlways);
    LoopCallsFollowPlan(q.commands, q.indices, a);
  }

  /** With a driver that never fails, a flush with work to do makes exactly
      `Begin`, the loop's calls and `End`, and reports no error; the loop
      executes every queued command and hands over every index, and for
      the corrected flush its calls are the plan. */
  lemma FlushWithoutErrors(q: Queue, a: Arch, endFrame: bool, adv: VertexAdvance)
    requires Valid(q, a) && !Idle(q, endFrame)
    ensures var calls := LoopCalls(q.commands, q.vertices, q.indices, a, adv);
      && FlushQueueWith(q, a, endFrame, NoErrors, adv).trace == Trace([Begin] + calls + [End(endFrame)], None)
      && Executed(calls) == q.commands
      && IndicesHandedOver(calls) == q.indices
      && (adv == AdvanceAlways ==> calls == Plan(q.commands, q.indices, a))
  {
    var calls := LoopCalls(q.commands, q.vertices, q.indices, a, adv);
    assert FlushQueueWith(q, a, endFrame, NoErrors, adv).trace == Trace([Begin] + calls + [End(endFrame)], None) by {
      FlushSteps(q, a, endFrame, NoErrors, adv);
      PerformAll([Begin] + calls, Untouched);
      assert Untouched.calls + ([Begin] + calls) == [Begin] + calls;
    }
    assert Executed(calls) == q.commands && IndicesHandedOver(calls) == q.indices by {
      LoopCallsHandOver(q.commands, q.vertices, q.indices, a, adv);
      assert q.indices[..DrawIndices(q.commands)] == q.indices;
    }
    if adv == AdvanceAlways {
      LoopCallsFollowPlan(q.commands, q.indices, a);
    }
  }

  /** The commands executed by the first `k` calls are a prefix of those
      executed by all of them. */
  lemma ExecutedPrefix(calls: seq<Call>, k: nat)
    requires k <= |calls|
    ensures Executed(calls[..k]) <= Executed(calls)
  {
    assert calls == calls[..k] + calls[k..];
    ExecutedAppend(calls[..k], calls[k..]);
  }

  /** Performing `Begin` and then a list of vertex and execution calls,
      when `Begin` succeeds: `Begin` first, then only such calls, executing
      a prefix of what the whole list executes. */
  lemma PerformAfterBegin(plan: seq<Call>, drv: Driver)
    requires drv(0, Begin).None?
    requires forall c :: c in plan ==> c.SetVertices? || c.Exec?
    ensures var calls := Perform([Begin] + plan, Untouched, drv).calls;
      && |calls| >= 1 && calls[0] == Begin
      && (forall i :: 0 < i < |calls| ==> calls[i].SetVertices? || calls[i].Exec?)
      && Executed(calls) <= Executed(plan)
  {
    var full := [Begin] + plan;
    var body := Perform(full, Untouched, drv);
    var k := |body.calls|;
    assert 1 <= k <= |full| && body.calls == full[..k] by {
      PerformSpec(full, Untouched, drv);
      assert full[0] == Begin;
    }
    forall i | 0 < i < k
      ensures body.calls[i].SetVertices? || body.calls[i].Exec?
    {
      assert body.calls[i] == plan[i - 1];
    }
    ExecutedPrefix(full, k);
    ExecutedAppend([Begin], plan);
    assert Executed([Begin]) == [];
  }

  /** Ending with `End` executes nothing more. */
  lemma ExecutedThenEnd(calls: seq<Call>, present: bool)
    ensures Executed(calls + [End(present)]) == Executed(calls)
  {
    ExecutedAppend(calls, [End(present)]);
    assert Executed([End(present)]) == [];
  }

  /** A flush that began the frame ends it exactly once, as its last call;
      in between it only sets vertices and executes commands, and the
      commands it executes are the queue's, in order, up to the first
      error. This holds however the vertex position moves. */
  lemma FlushEndsOnce(q: Queue, a: Arch, endFrame: bool, drv: Driver, adv: VertexAdvance)
    requires Valid(q, a) && !Idle(q, endFrame) && drv(0, Begin).None?
    ensures var calls := FlushQueueWith(q, a, endFrame, drv, adv).trace.calls;
      && |calls| >= 2 && calls[0] == Begin && calls[|calls| - 1] == End(endFrame)
      && (forall i :: 0 < i < |calls| - 1 ==> calls[i].SetVertices? || calls[i].Exec?)
      && Executed(calls) <= q.commands
  {
    var loop := LoopCalls(q.commands, q.vertices, q.indices, a, adv);
    var body := Perform([Begin] + loop, Untouched, drv);
    assert FlushQueueWith(q, a, endFrame, drv, adv).trace.calls == body.calls + [End(endFrame)] by {
      FlushSteps(q, a, endFrame, drv, adv);
    }
    assert Executed(loop) == q.commands && forall c :: c in loop ==> c.SetVertices? || c.Exec? by {
      LoopCallsHandOver(q.commands, q.vertices, q.indices, a, adv);
      LoopCallsKinds(q.commands, q.vertices, q.indices, a, adv);
    }
    PerformAfterBegin(loop, drv);
    ExecutedThenEnd(body.calls, endFrame);
  }

  /** Two draws whose first fills a vertex buffer without drawing an
      index: the smallest queue on which the vertex position matters. */
  function SkipExample(d1: DrawCommand, d2: DrawCommand, es: seq<U32>): Queue
  {
    Queue([Draw(d1), Draw(d2)], d1.vertices + d2.vertices, es, |d2.vertices|, BufferState(0, 0, 0), [], None)
  }

  predicate SkipShape(a: Arch, d1: DrawCommand, d2: DrawCommand, es: seq<U32>)
  {
    && |d1.vertices| == MaxVertexFloatCount(a) && |d1.dstRegions| > 0 && SumIndexCounts(d1.dstRegions) == 0
    && 0 < |d2.vertices| <= MaxVertexFloatCount(a) && |d2.dstRegions| > 0 && SumIndexCounts(d2.dstRegions) == |es| > 0
  }

  /** Such a queue is valid, and it splits into one run per draw. */
  lemma SkipExampleValid(a: Arch, d1: DrawCommand, d2: DrawCommand, es: seq<U32>)
    requires SkipShape(a, d1, d2, es)
    ensures Valid(SkipExample(d1, d2, es), a)
    ensures RunLength(SkipExample(d1, d2, es).commands, MaxVertexFloatCount(a)) == 1
    ensures DrawFloats([Draw(d1), Draw(d2)]) == |d1.vertices + d2.vertices|
    ensures DrawIndices([Draw(d1), Draw(d2)]) == |es|
  {
    var max := MaxVertexFloatCount(a);
    var cs := [Draw(d1), Draw(d2)];
    assert cs[1..] == [Draw(d2)] && cs[1..][1..] == [];
    assert RunEnd(cs, max, 1, |d1.vertices|) == 1;
    assert RunEnd(cs, max, 0, 0) == RunEnd(cs, max, 1, |d1.vertices|);
    assert RunEnd([Draw(d2)], max, 1, |d2.vertices|) == 1;
    assert LastRun(cs, max) == LastRun(cs[1..], max);
    assert DrawIndices([Draw(d2)]) == |es|;
  }

  /** The loop over runs on a single draw that draws all of `es`: its
      vertices from the front of `vs`, then the draw. */
  lemma FlushRunsSingleDraw(d: DrawCommand, vs: seq<U32>, es: seq<U32>, a: Arch, t: Trace, adv: VertexAdvance)
    requires |d.vertices| <= |vs| && 0 < SumIndexCounts(d.dstRegions) == |es| && t.err.None?
    ensures FlushRuns([Draw(d)], vs, es, a, t, NoErrors, adv)
      == Trace(t.calls + [SetVertices(vs[..|d.vertices|], es), Exec(Draw(d), 0)], None)
  {
    var cs := [Draw(d)];
    ScanRunIsRun(cs, a);
    assert cs[..1] == cs && cs[1..] == [];
    assert RunLength(cs, MaxVertexFloatCount(a)) == 1;
    assert DrawFloats(cs) == |d.vertices| && DrawIndices(cs) == |es|;
    assert es[..|es|] == es;
    var t1 := Trace(t.calls + [SetVertices(vs[..|d.vertices|], es)], None);
    assert ExecRun(cs, 0, t1, NoErrors) == Trace(t1.calls + [Exec(Draw(d), 0)], None);
  }

  /** The loop over runs on the example queue, up to the second run: `Begin`
      and the first draw, with the vertex array advanced past the first
      draw's floats only when `adv` says so. */
  lemma SkipExampleFirstRun(a: Arch, d1: DrawCommand, d2: DrawCommand, es: seq<U32>, adv: VertexAdvance)
    requires SkipShape(a, d1, d2, es)
    ensures DrawFloats([Draw(d1), Draw(d2)]) == |d1.vertices + d2.vertices|
    ensures DrawIndices([Draw(d1), Draw(d2)]) == |es|
    ensures var vs := d1.vertices + d2.vertices;
      FlushRuns([Draw(d1), Draw(d2)], vs, es, a, Invoke(Untouched, Begin, NoErrors), NoErrors, adv)
        == FlushRuns([Draw(d2)], if adv == AdvanceAlways then d2.vertices else vs, es, a,
                     Trace([Begin, Exec(Draw(d1), 0)], None), NoErrors, adv)
  {
    SkipExampleValid(a, d1, d2, es);
    var cs, vs := [Draw(d1), Draw(d2)], d1.vertices + d2.vertices;
    ScanRunIsRun(cs, a);
    assert cs[1..] == [Draw(d2)] && cs[..1] == [Draw(d1)];
    assert DrawFloats([Draw(d1)]) == |d1.vertices| && DrawIndices([Draw(d1)]) == 0;
    assert vs[|d1.vertices|..] == d2.vertices;
    assert ExecRun([Draw(d1)], 0, Invoke(Untouched, Begin, NoErrors), NoErrors) == Trace([Begin, Exec(Draw(d1), 0)], None);
  }

  /** Flushing such a queue with a driver that never fails, with the
      vertex position handled as `adv` says: `Begin`, the first draw (no
      vertices are set for a run without indices), then the second run's
      vertices taken from position `p2` of the vertex array, the second
      draw, and `End`. */
  lemma SkipExampleFlush(a: Arch, d1: DrawCommand, d2: DrawCommand, es: seq<U32>, adv: VertexAdvance)
    requires SkipShape(a, d1, d2, es)
    ensures Valid(SkipExample(d1, d2, es), a)
    ensures var vs := d1.vertices + d2.vertices;
      var p2 := if adv == AdvanceAlways then |d1.vertices| else 0;
      FlushQueueWith(SkipExample(d1, d2, es), a, false, NoErrors, adv).trace
        == Trace([Begin, Exec(Draw(d1), 0), SetVertices(vs[p2..p2 + |d2.vertices|], es), Exec(Draw(d2), 0), End(false)], None)
  {
    SkipExampleValid(a, d1, d2, es);
    var vs := d1.vertices + d2.vertices;
    var p2 := if adv == AdvanceAlways then |d1.vertices| else 0;
    var vs2 := if adv == AdvanceAlways then d2.vertices else vs;
    SkipExampleFirstRun(a, d1, d2, es, adv);
    FlushRunsSingleDraw(d2, vs2, es, a, Trace([Begin, Exec(Draw(d1), 0)], None), adv);
    assert vs2[..|d2.vertices|] == vs[p2..p2 + |d2.vertices|];
  }

  /** The vertex position as written: on such a queue the second run should
      be handed the second draw's own vertices, but the code hands over the
      first draw's leading floats instead. */
  lemma AsWrittenSkipsVertices(a: Arch, d1: DrawCommand, d2: DrawCommand, es: seq<U32>)
    requires SkipShape(a, d1, d2, es)
    requires d1.vertices[..|d2.vertices|] != d2.vertices
    ensures Valid(SkipExample(d1, d2, es), a)
    ensures SetVertices(d1.vertices[..|d2.vertices|], es) in FlushQueueAsWritten(SkipExample(d1, d2, es), a, false, NoErrors).trace.calls
    ensures SetVertices(d2.vertices, es) !in FlushQueueAsWritten(SkipExample(d1, d2, es), a, false, NoErrors).trace.calls
    ensures SetVertices(d2.vertices, es) in FlushQueue(SkipExample(d1, d2, es), a, false, NoErrors).trace.calls
  {
    var vs := d1.vertices + d2.vertices;
    var n2 := |d2.vertices|;
    SkipExampleFlush(a, d1, d2, es, AdvanceWithIndices);
    SkipExampleFlush(a, d1, d2, es, AdvanceAlways);
    assert vs[0..n2] == d1.vertices[..n2];
    assert vs[|d1.vertices|..|d1.vertices| + n2] == d2.vertices;
  }
}
