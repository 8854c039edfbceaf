/**
 * Runs: the maximal stretches of queued commands that share one vertex
 * buffer. A flush cuts the command list greedily from the front, starting
 * a new run at the first draw command that would push the run's vertex
 * floats over the limit; enqueueing applies the same rule one draw at a
 * time. Both sides use the definitions here.
 */
module VertexRuns {
  import opened DrawCommands

  /** The scan that finds where the run starting at `cs[0]` ends, resumed at
      position `i` with `nv` vertex floats already taken. The first command
      always belongs to the run. */
  function RunEnd(cs: seq<Command>, max: nat, i: nat, nv: nat): (r: nat)
    requires i <= |cs|
    ensures i <= r <= |cs|
    decreases |cs| - i
  {
    if i == |cs| then i
    else if cs[i].Draw? && i > 0 && nv + CommandFloats(cs[i]) > max then i
    else RunEnd(cs, max, i + 1, nv + CommandFloats(cs[i]))
  }

  /** The number of commands of the run at the front of `cs`. */
  function RunLength(cs: seq<Command>, max: nat): (r: nat)
    ensures r <= |cs|
    ensures |cs| > 0 ==> r > 0
  {
    RunEnd(cs, max, 0, 0)
  }

  /** Every command fits in a vertex buffer on its own. */
  predicate EachFits(cs: seq<Command>, max: nat)
  {
    forall i :: 0 <= i < |cs| ==> CommandFloats(cs[i]) <= max
  }

  lemma DrawFloatsSnoc(cs: seq<Command>, c: Command)
    ensures DrawFloats(cs + [c]) == DrawFloats(cs) + CommandFloats(c)
  {
    CountsAppend(cs, [c]);
    assert [c][1..] == [];
  }

  lemma {:induction false} RunEndSpec(cs: seq<Command>, max: nat, i: nat, nv: nat)
    requires i <= |cs| && nv == DrawFloats(cs[..i])
    requires EachFits(cs, max) && nv <= max
    ensures DrawFloats(cs[..RunEnd(cs, max, i, nv)]) <= max
    ensures RunEnd(cs, max, i, nv) < |cs| ==>
      && cs[RunEnd(cs, max, i, nv)].Draw?
      && DrawFloats(cs[..RunEnd(cs, max, i, nv)]) + CommandFloats(cs[RunEnd(cs, max, i, nv)]) > max
    decreases |cs| - i
  {
    if i < |cs| && !(cs[i].Draw? && i > 0 && nv + CommandFloats(cs[i]) > max) {
      assert cs[..i + 1] == cs[..i] + [cs[i]];
      DrawFloatsSnoc(cs[..i], cs[i]);
      RunEndSpec(cs, max, i + 1, nv + CommandFloats(cs[i]));
    }
  }

  /** The run at the front fits in one vertex buffer, and it is as long as
      it can be: the command after it is a draw that would not fit. */
  lemma RunLengthSpec(cs: seq<Command>, max: nat)
    requires EachFits(cs, max)
    ensures DrawFloats(cs[..RunLength(cs, max)]) <= max
    ensures RunLength(cs, max) < |cs| ==>
      && cs[RunLength(cs, max)].Draw?
      && DrawFloats(cs[..RunLength(cs, max)]) + CommandFloats(cs[RunLength(cs, max)]) > max
  {
    RunEndSpec(cs, max, 0, 0);
  }

  /** The runs of a command list, front to back. */
  function Runs(cs: seq<Command>, max: nat): (r: seq<seq<Command>>)
    ensures forall k :: 0 <= k < |r| ==> |r[k]| > 0
    decreases |cs|
  {
    if |cs| == 0 then []
    else
      var n := RunLength(cs, max);
      [cs[..n]] + Runs(cs[n..], max)
  }

  function Concat(rs: seq<seq<Command>>): seq<Command>
  {
    if |rs| == 0 then [] else rs[0] + Concat(rs[1..])
  }

  /** The runs partition the command list, each run fitting in one vertex
      buffer. */
  lemma {:induction false} RunsPartition(cs: seq<Command>, max: nat)
    requires EachFits(cs, max)
    ensures Concat(Runs(cs, max)) == cs
    ensures forall k :: 0 <= k < |Runs(cs, max)| ==> DrawFloats(Runs(cs, max)[k]) <= max
    decreases |cs|
  {
    if |cs| > 0 {
      var n := RunLength(cs, max);
      RunLengthSpec(cs, max);
      assert EachFits(cs[n..], max) by {
        forall i | 0 <= i < |cs[n..]| ensures CommandFloats(cs[n..][i]) <= max {
          assert cs[n..][i] == cs[n + i];
        }
      }
      RunsPartition(cs[n..], max);
      assert cs == cs[..n] + cs[n..];
      var rs := Runs(cs, max);
      assert rs[1..] == Runs(cs[n..], max);
      forall k | 0 <= k < |rs| ensures DrawFloats(rs[k]) <= max {
        if k > 0 {
          assert rs[k] == Runs(cs[n..], max)[k - 1];
        }
      }
    }
  }

  /** The last run of a command list; empty when the list is. */
  function LastRun(cs: seq<Command>, max: nat): (r: seq<Command>)
    ensures |r| <= |cs|
    ensures |cs| > 0 ==> |r| > 0
    decreases |cs|
  {
    if |cs| == 0 then []
    else
      var n := RunLength(cs, max);
      if n == |cs| then cs else LastRun(cs[n..], max)
  }

  /** The last run is a suffix of the command list. */
  lemma {:induction false} LastRunIsSuffix(cs: seq<Command>, max: nat)
    ensures LastRun(cs, max) == cs[|cs| - |LastRun(cs, max)|..]
    decreases |cs|
  {
    if |cs| > 0 {
      var n := RunLength(cs, max);
      if n < |cs| {
        LastRunIsSuffix(cs[n..], max);
        assert cs[n..][|cs[n..]| - |LastRun(cs, max)|..] == cs[|cs| - |LastRun(cs, max)|..];
      }
    }
  }

  /** Appending a command to a list leaves the scan of every earlier run
      alone, and only continues the scan of the last one. */
  lemma {:induction false} RunEndSnoc(cs: seq<Command>, c: Command, max: nat, i: nat, nv: nat)
    requires i <= |cs|
    ensures RunEnd(cs, max, i, nv) < |cs| ==> RunEnd(cs + [c], max, i, nv) == RunEnd(cs, max, i, nv)
    ensures RunEnd(cs, max, i, nv) == |cs| ==>
      RunEnd(cs + [c], max, i, nv) == RunEnd(cs + [c], max, |cs|, nv + DrawFloats(cs[i..]))
    decreases |cs| - i
  {
    var cs' := cs + [c];
    if i == |cs| {
      assert cs[i..] == [];
    } else {
      assert cs'[i] == cs[i];
      var f := CommandFloats(cs[i]);
      if !(cs[i].Draw? && i > 0 && nv + f > max) {
        assert RunEnd(cs', max, i, nv) == RunEnd(cs', max, i + 1, nv + f);
        assert RunEnd(cs, max, i, nv) == RunEnd(cs, max, i + 1, nv + f);
        RunEndSnoc(cs, c, max, i + 1, nv + f);
        assert cs[i..][1..] == cs[i + 1..];
        assert DrawFloats(cs[i..]) == f + DrawFloats(cs[i + 1..]);
      }
    }
  }

  /** Appending a command either extends the last run or, when it is a draw
      that would overflow the last run's vertex buffer, starts a new one. */
  lemma {:induction false} LastRunSnoc(cs: seq<Command>, c: Command, max: nat)
    ensures LastRun(cs + [c], max) ==
      if |cs| > 0 && c.Draw? && DrawFloats(LastRun(cs, max)) + CommandFloats(c) > max
      then [c] else LastRun(cs, max) + [c]
    decreases |cs|
  {
    var cs' := cs + [c];
    if |cs| == 0 {
      assert cs' == [c];
    } else {
      var n := RunLength(cs, max);
      RunEndSnoc(cs, c, max, 0, 0);
      assert cs[0..] == cs;
      if n < |cs| {
        assert cs'[n..] == cs[n..] + [c];
        LastRunSnoc(cs[n..], c, max);
      } else {
        assert cs'[|cs|] == c;
        if c.Draw? && DrawFloats(cs) + CommandFloats(c) > max {
          assert RunLength(cs', max) == |cs|;
          assert cs'[|cs|..] == [c];
          assert RunLength([c], max) == 1;
        } else {
          assert RunEnd(cs', max, |cs| + 1, DrawFloats(cs) + CommandFloats(c)) == |cs| + 1;
        }
      }
    }
  }
}
