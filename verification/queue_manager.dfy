/**
 * Submitting a queue and recycling it: the pool of idle queues, the
 * manager that keeps one current queue, and the decision whether a flush
 * runs synchronously.
 *
 * A synchronous flush reports its error to the caller. An asynchronous one
 * cannot; it stores the error on the queue, and the pool refuses to hand
 * out queues while any queue it holds carries an error, so the next flush
 * reports it. As written, a queue whose asynchronous flush failed is never
 * returned to the pool, so the stored error is never seen again
 * (`AsWrittenNeverReportsAsyncErrors`); `Submit` returns it to the pool
 * (`AsyncErrorReportedNext`).
 */
module QueueManager {
  import opened Wrappers
  import opened VertexLimits
  import opened DrawCommands
  import opened CommandQueue
  import opened QueueFlush

  /** The idle queues, the most recently returned last. */
  type Pool = seq<Queue>

  /** A queue handed out by the pool and the pool that remains. */
  datatype Checkout = Checkout(queue: Queue, pool: Pool)

  /** The error stored on the first pooled queue that carries one. */
  function StoredError(pool: Pool): (r: Option<DriverError>)
    ensures r.None? <==> forall i :: 0 <= i < |pool| ==> pool[i].err.None?
    ensures r.Some? ==> exists i :: 0 <= i < |pool| && pool[i].err == r
  {
    if |pool| == 0 then None
    else if pool[0].err.Some? then pool[0].err
    else
      var rest := StoredError(pool[1..]);
      assert forall i :: 0 < i < |pool| ==> pool[i] == pool[1..][i - 1];
      rest
  }

  /** `commandQueuePool.get`: a new queue when the pool is empty; else the
      stored error of any pooled queue, the pool left as it was; else the
      most recently returned queue. */
  function Get(pool: Pool): (r: Result<Checkout, DriverError>)
    ensures |pool| == 0 ==> r == Success(Checkout(NewQueue(), pool))
    ensures |pool| > 0 ==> (r.Failure? <==> exists i :: 0 <= i < |pool| && pool[i].err.Some?)
    ensures r.Failure? ==> exists i :: 0 <= i < |pool| && pool[i].err == Some(r.error)
    ensures r.Success? && |pool| > 0 ==> r.value.pool + [r.value.queue] == pool
  {
    if |pool| == 0 then Success(Checkout(NewQueue(), pool))
    else
      match StoredError(pool)
      case Some(e) => Failure(e)
      case None => Success(Checkout(pool[|pool| - 1], pool[..|pool| - 1]))
  }

  /** `commandQueuePool.put`. */
  function Put(pool: Pool, q: Queue): (r: Pool)
    ensures |r| == |pool| + 1 && r[|pool|] == q && r[..|pool|] == pool
  {
    pool + [q]
  }

  /** The pool is last in, first out: a queue returned without an error to
      a pool holding none is the next one handed out, and the pool is as it
      was before. */
  lemma GetAfterPut(pool: Pool, q: Queue)
    requires forall i :: 0 <= i < |pool| ==> pool[i].err.None?
    requires q.err.None?
    ensures Get(Put(pool, q)) == Success(Checkout(q, pool))
  {
    assert Put(pool, q)[..|pool|] == pool;
  }

  /** A queue returned with a stored error makes every later `Get` fail
      with an error stored in the pool, until the pool changes. */
  lemma GetAfterPutFailed(pool: Pool, q: Queue)
    requires forall i :: 0 <= i < |pool| ==> pool[i].err.None?
    requires q.err.Some?
    ensures Get(Put(pool, q)) == Failure(q.err.value)
  {
    assert Put(pool, q)[|pool|].err.Some?;
  }

  /** Whether a command must run before the caller continues. Draw
      commands never do. */
  predicate NeedsSync(c: Command)
  {
    c.Other? && c.other.needsSync
  }

  /** Whether a flush waits for the render thread: at the end of a frame
      with vsync on, or when any queued command needs it. */
  predicate Synchronous(q: Queue, endFrame: bool, vsync: bool)
  {
    (endFrame && vsync) || exists i :: 0 <= i < |q.commands| && NeedsSync(q.commands[i])
  }

  /** The outcome of `commandQueue.Flush`: the error returned to the caller,
      the queue afterwards, whether it went back to the pool, the driver
      calls made, and the finalizers run. */
  datatype Submission = Submission(
    returned: Option<DriverError>,
    queue: Queue,
    recycled: bool,
    trace: Trace,
    finalized: seq<Finalizer>)

  /** `commandQueue.Flush`. A queue that already stores an error returns it
      and does nothing more. Otherwise the queue is flushed: on success it
      goes back to the pool; a synchronous failure is returned; an
      asynchronous one is stored on the queue, and the queue goes back to
      the pool exactly when `keepFailed` holds. `adv` chooses the flush. */
  function SubmitWith(q: Queue, a: Arch, endFrame: bool, vsync: bool, drv: Driver, adv: VertexAdvance, keepFailed: bool): Submission
    requires Valid(q, a)
  {
    if q.err.Some? then Submission(q.err, q, false, Untouched, [])
    else
      var f := FlushQueueWith(q, a, endFrame, drv, adv);
      if f.trace.err.None? then Submission(None, f.queue, true, f.trace, f.finalized)
      else if Synchronous(q, endFrame, vsync) then Submission(f.trace.err, f.queue, false, f.trace, f.finalized)
      else Submission(None, f.queue.(err := f.trace.err), keepFailed, f.trace, f.finalized)
  }

  /** `commandQueue.Flush` as written: it flushes with the code's vertex
      position, and a queue whose asynchronous flush failed is dropped. */
  function SubmitAsWritten(q: Queue, a: Arch, endFrame: bool, vsync: bool, drv: Driver): Submission
    requires Valid(q, a)
  {
    SubmitWith(q, a, endFrame, vsync, drv, AdvanceWithIndices, false)
  }

  /** `commandQueue.Flush` with the corrected flush and a failed queue
      returned to the pool, where its stored error stops the next `Get`. */
  function Submit(q: Queue, a: Arch, endFrame: bool, vsync: bool, drv: Driver): Submission
    requires Valid(q, a)
  {
    SubmitWith(q, a, endFrame, vsync, drv, AdvanceAlways, true)
  }

  /** What a flush returns and what becomes of the queue: an error reaches
      the caller only from a synchronous flush or from an error already
      stored; the queue is returned to the pool after a flush without
      error, carrying no error, and, with `keepFailed`, after an
      asynchronous failure, carrying it; the flushed queue stays valid.
      This holds for either flush. */
  lemma SubmitSpec(q: Queue, a: Arch, endFrame: bool, vsync: bool, drv: Driver, adv: VertexAdvance, keepFailed: bool)
    requires Valid(q, a)
    ensures var s := SubmitWith(q, a, endFrame, vsync, drv, adv, keepFailed);
      var f := FlushQueueWith(q, a, endFrame, drv, adv);
      && Valid(s.queue, a)
      && (q.err.Some? ==> s.returned == q.err && !s.recycled && s.trace == Untouched)
      && (q.err.None? ==>
           && s.trace == f.trace
           && (s.returned.Some? <==> f.trace.err.Some? && Synchronous(q, endFrame, vsync))
           && (s.returned.Some? ==> s.returned == f.trace.err)
           && (s.recycled <==> f.trace.err.None? || (keepFailed && !Synchronous(q, endFrame, vsync)))
           && (s.recycled ==> s.queue.err == f.trace.err)
           && (f.trace.err.Some? && !Synchronous(q, endFrame, vsync) ==> s.queue.err == f.trace.err))
  {
    FlushSteps(q, a, endFrame, drv, adv);
  }

  /** The manager: the idle queues and the queue commands go to. */
  datatype Manager = Manager(pool: Pool, current: Option<Queue>)

  /** The manager at start-up. */
  const Initial := Manager([], None)

  /** The manager's invariant: every queue is valid, the current one stores
      no error, and there is no current queue only before the first use,
      when the pool is empty. */
  predicate ManagerValid(m: Manager, a: Arch)
  {
    && (forall i :: 0 <= i < |m.pool| ==> Valid(m.pool[i], a))
    && (m.current.Some? ==> Valid(m.current.value, a) && m.current.value.err.None?)
    && (m.current.None? ==> m.pool == [])
  }

  lemma InitialValid(a: Arch)
    ensures ManagerValid(Initial, a)
  {
  }

  /** A failure of the manager's enqueue operations: a dereference of the
      missing current queue, or a draw with too many vertex floats. */
  datatype ManagerFailure = NilQueue | Rejected(error: EnqueueError)

  /** The current queue, checking one out when there is none; the error of
      that check-out is dropped, as in the code, and leaves no queue. */
  function EnsureCurrent(m: Manager): (r: Manager)
    ensures m.current.Some? ==> r == m
  {
    if m.current.Some? then m
    else
      match Get(m.pool)
      case Success(co) => Manager(co.pool, Some(co.queue))
      case Failure(_) => m
  }

  /** `commandQueueManager.enqueueCommand`. */
  function EnqueueCommand(m: Manager, c: OtherCommand): (r: Result<Manager, ManagerFailure>)
    ensures r.Success? <==> EnsureCurrent(m).current.Some?
    ensures r.Success? ==>
      (r.value.pool == EnsureCurrent(m).pool && r.value.current == Some(Enqueue(EnsureCurrent(m).current.value, c)))
  {
    var m1 := EnsureCurrent(m);
    match m1.current
    case None => Failure(NilQueue)
    case Some(q) => Success(m1.(current := Some(Enqueue(q, c))))
  }

  /** `commandQueueManager.enqueueDrawTrianglesCommand`. */
  function EnqueueDrawCommand(m: Manager, a: Arch, env: Env, args: DrawArgs): (r: Result<Manager, ManagerFailure>)
    requires ManagerValid(m, a)
    ensures EnsureCurrent(m).current.None? ==> r == Failure(NilQueue)
    ensures EnsureCurrent(m).current.Some? && |args.vertices| > MaxVertexFloatCount(a) ==>
      r == Failure(Rejected(TooManyVertexFloats(MaxVertexFloatCount(a), |args.vertices|)))
    ensures r.Success? ==>
      (r.value.pool == EnsureCurrent(m).pool
       && r.value.current == Some(EnqueueDraw(EnsureCurrent(m).current.value, a, env, args).value))
  {
    var m1 := EnsureCurrent(m);
    match m1.current
    case None => Failure(NilQueue)
    case Some(q) =>
      assert Valid(q, a) by {
        if m.current.None? {
          NewQueueValid(a);
        }
      }
      match EnqueueDraw(q, a, env, args)
      case Failure(e) => Failure(Rejected(e))
      case Success(q1) => Success(m1.(current := Some(q1)))
  }

  /** Under the invariant a current queue always exists after the
      check-out, valid and storing no error. */
  lemma EnsureCurrentValid(m: Manager, a: Arch)
    requires ManagerValid(m, a)
    ensures EnsureCurrent(m).current.Some? && ManagerValid(EnsureCurrent(m), a)
  {
    NewQueueValid(a);
  }

  /** So enqueueing another command never dereferences a missing queue,
      and keeps the invariant. */
  lemma EnqueueCommandPreservesValid(m: Manager, a: Arch, c: OtherCommand)
    requires ManagerValid(m, a)
    ensures EnqueueCommand(m, c).Success? && ManagerValid(EnqueueCommand(m, c).value, a)
  {
    EnsureCurrentValid(m, a);
    EnqueuePreservesValid(EnsureCurrent(m).current.value, a, c);
  }

  /** Enqueueing a draw fails only on too many vertex floats, and keeps the
      invariant. */
  lemma EnqueueDrawCommandPreservesValid(m: Manager, a: Arch, env: Env, args: DrawArgs)
    requires ManagerValid(m, a)
    ensures EnqueueDrawCommand(m, a, env, args).Success? <==> |args.vertices| <= MaxVertexFloatCount(a)
    ensures EnqueueDrawCommand(m, a, env, args).Success? ==> ManagerValid(EnqueueDrawCommand(m, a, env, args).value, a)
  {
    EnsureCurrentValid(m, a);
    EnqueueDrawPreservesValid(EnsureCurrent(m).current.value, a, env, args);
  }

  /** The outcome of `commandQueueManager.flush`. */
  datatype ManagerFlushResult = ManagerFlushResult(manager: Manager, returned: Option<DriverError>, submitted: Option<Submission>)

  /** `commandQueueManager.flush`: a fresh current queue is checked out
      (a failure is returned and changes nothing), and the previous current
      queue, if any, is submitted. */
  function FlushManagerWith(m: Manager, a: Arch, endFrame: bool, vsync: bool, drv: Driver, adv: VertexAdvance, keepFailed: bool): ManagerFlushResult
    requires ManagerValid(m, a)
  {
    match Get(m.pool)
    case Failure(e) => ManagerFlushResult(m, Some(e), None)
    case Success(co) =>
      match m.current
      case None => ManagerFlushResult(Manager(co.pool, Some(co.queue)), None, None)
      case Some(prev) =>
        var s := SubmitWith(prev, a, endFrame, vsync, drv, adv, keepFailed);
        var pool := if s.recycled then Put(co.pool, s.queue) else co.pool;
        ManagerFlushResult(Manager(pool, Some(co.queue)), s.returned, Some(s))
  }

  /** `commandQueueManager.flush` as written. */
  function FlushManagerAsWritten(m: Manager, a: Arch, endFrame: bool, vsync: bool, drv: Driver): ManagerFlushResult
    requires ManagerValid(m, a)
  {
    FlushManagerWith(m, a, endFrame, vsync, drv, AdvanceWithIndices, false)
  }

  /** `commandQueueManager.flush` with the corrected flush and failed queues
      returned to the pool. */
  function FlushManager(m: Manager, a: Arch, endFrame: bool, vsync: bool, drv: Driver): ManagerFlushResult
    requires ManagerValid(m, a)
  {
    FlushManagerWith(m, a, endFrame, vsync, drv, AdvanceAlways, true)
  }

  /** A flush keeps the invariant, swaps in a queue from the pool (or a new
      one) as the current queue, and returns the previous one to the pool
      when its flush succeeded, for either flush. */
  lemma FlushManagerSpec(m: Manager, a: Arch, endFrame: bool, vsync: bool, drv: Driver, adv: VertexAdvance, keepFailed: bool)
    requires ManagerValid(m, a)
    ensures var r := FlushManagerWith(m, a, endFrame, vsync, drv, adv, keepFailed);
      && ManagerValid(r.manager, a)
      && (Get(m.pool).Failure? ==> r.manager == m && r.returned == Some(Get(m.pool).error))
      && (Get(m.pool).Success? ==>
           && r.manager.current == Some(Get(m.pool).value.queue)
           && (m.current.None? <==> r.submitted.None?)
           && (r.submitted.Some? ==>
                && r.submitted.value == SubmitWith(m.current.value, a, endFrame, vsync, drv, adv, keepFailed)
                && r.returned == r.submitted.value.returned
                && r.manager.pool == Get(m.pool).value.pool
                     + (if r.submitted.value.recycled then [r.submitted.value.queue] else [])))
  {
    match Get(m.pool)
    case Failure(_) =>
    case Success(co) =>
      assert forall i :: 0 <= i < |co.pool| ==> co.pool[i] == m.pool[i];
      assert Valid(co.queue, a) && co.queue.err.None? by {
        if |m.pool| == 0 {
          NewQueueValid(a);
        } else {
          assert co.queue == m.pool[|m.pool| - 1];
        }
      }
      if m.current.Some? {
        SubmitSpec(m.current.value, a, endFrame, vsync, drv, adv, keepFailed);
      }
  }

  /** No queue held by the manager stores an error. */
  predicate NoStoredErrors(m: Manager)
  {
    forall i :: 0 <= i < |m.pool| ==> m.pool[i].err.None?
  }

  /** As written, no queue held by the manager ever stores an error, so
      every check-out succeeds and a flush returns an error only when its
      own submission was synchronous: an asynchronous failure is reported
      to nobody, then or later. */
  lemma AsWrittenNeverReportsAsyncErrors(m: Manager, a: Arch, endFrame: bool, vsync: bool, drv: Driver)
    requires ManagerValid(m, a) && NoStoredErrors(m)
    ensures var r := FlushManagerAsWritten(m, a, endFrame, vsync, drv);
      && NoStoredErrors(r.manager)
      && Get(m.pool).Success?
      && (r.returned.Some? ==> m.current.Some? && Synchronous(m.current.value, endFrame, vsync))
  {
    FlushManagerSpec(m, a, endFrame, vsync, drv, AdvanceWithIndices, false);
    var r := FlushManagerAsWritten(m, a, endFrame, vsync, drv);
    if m.current.Some? {
      SubmitSpec(m.current.value, a, endFrame, vsync, drv, AdvanceWithIndices, false);
      var co := Get(m.pool).value;
      assert forall i :: 0 <= i < |co.pool| ==> co.pool[i] == m.pool[i];
    }
  }

  /** A flush whose previous queue fails asynchronously: as written the
      caller sees no error and the error is stored nowhere it can be
      found. */
  lemma AsWrittenLosesAsyncError(m: Manager, a: Arch, endFrame: bool, vsync: bool, drv: Driver)
    requires ManagerValid(m, a) && NoStoredErrors(m) && m.current.Some?
    requires !Synchronous(m.current.value, endFrame, vsync)
    requires FlushQueueAsWritten(m.current.value, a, endFrame, drv).trace.err.Some?
    ensures var r := FlushManagerAsWritten(m, a, endFrame, vsync, drv);
      && r.returned.None?
      && NoStoredErrors(r.manager) && r.manager.current.value.err.None?
      && Get(r.manager.pool).Success?
  {
    AsWrittenNeverReportsAsyncErrors(m, a, endFrame, vsync, drv);
    var r := FlushManagerAsWritten(m, a, endFrame, vsync, drv);
    FlushManagerSpec(m, a, endFrame, vsync, drv, AdvanceWithIndices, false);
    AsWrittenNeverReportsAsyncErrors(r.manager, a, endFrame, vsync, drv);
  }

  /** With the failed queue returned to the pool, an asynchronous failure
      is returned by the very next flush, whatever that flush is asked to
      do, and until then the pool hands out no queue. */
  lemma AsyncErrorReportedNext(m: Manager, a: Arch, endFrame: bool, vsync: bool, drv: Driver,
                               endFrame2: bool, vsync2: bool, drv2: Driver)
    requires ManagerValid(m, a) && NoStoredErrors(m) && m.current.Some?
    requires !Synchronous(m.current.value, endFrame, vsync)
    requires FlushQueue(m.current.value, a, endFrame, drv).trace.err.Some?
    ensures var r := FlushManager(m, a, endFrame, vsync, drv);
      && r.returned.None?
      && ManagerValid(r.manager, a)
      && Get(r.manager.pool) == Failure(FlushQueue(m.current.value, a, endFrame, drv).trace.err.value)
      && FlushManager(r.manager, a, endFrame2, vsync2, drv2).returned == FlushQueue(m.current.value, a, endFrame, drv).trace.err
  {
    var q := m.current.value;
    var f := FlushQueue(q, a, endFrame, drv);
    FlushManagerSpec(m, a, endFrame, vsync, drv, AdvanceAlways, true);
    SubmitSpec(q, a, endFrame, vsync, drv, AdvanceAlways, true);
    var r := FlushManager(m, a, endFrame, vsync, drv);
    var co := Get(m.pool).value;
    assert forall i :: 0 <= i < |co.pool| ==> co.pool[i] == m.pool[i];
    var s := SubmitWith(q, a, endFrame, vsync, drv, AdvanceAlways, true);
    assert r.manager.pool == Put(co.pool, s.queue);
    GetAfterPutFailed(co.pool, s.queue);
    FlushManagerSpec(r.manager, a, endFrame2, vsync2, drv2, AdvanceAlways, true);
  }
}
