# Ebiten keyboard keys and graphics command queue, in Dafny

This project models two parts of the Ebiten game engine and proves
properties of the models.

**Keyboard-key names (`keys.go`).** Every declared key has a printed
name. Parsing accepts the current names and the deprecated names of
version 2.1, regardless of letter case. Text marshalling uses the printed
name. Text unmarshalling rejects unknown names and then leaves the key
variable unchanged.

**The graphics command queue (`internal/graphicscommand/commandqueue.go`).**
Draw-triangles requests are batched into commands:
- A request is merged into the last command when that command's merge
  test (`CanMergeWithDrawTrianglesCommand`) accepts it and the current
  vertex buffer still has room.
- Indices are rebased by the position of the draw's first vertex within
  its vertex buffer.
- Every draw receives a 46-word block of preserved uniforms ahead of its
  own: sizes, regions and the projection matrix.
- The uniform words live in a `uint32` bump allocator whose capacity grows
  in powers of two.

A flush splits the commands into runs that each fit one vertex buffer. It
hands each run's vertices and indices to the driver, executes the run's
commands with their index offsets, and always ends a begun frame. It then
empties the queue; at the end of a frame it also resets the uniform buffer
and runs the finalizers.

The queue pool hands out the most recently returned queue, or refuses
while any pooled queue stores an error. The manager swaps queues on every
flush and reports flush errors synchronously or stores them on the queue.

Modules:
- `Wrappers`: `Option` and `Result`.
- `SeqLemmas`: generic sequence facts.
- `Keys`: the key datatype, `String`, the parser, text marshalling.
- `KeyNames`: which strings the parser accepts, and for which key.
- `VertexLimits`: `uint32` words, target word size, vertex limits.
- `Uint32sBuffer`: the uniform buffer.
- `DrawCommands`: commands, their counts, and the preserved uniforms.
- `VertexRuns`: how a command list splits into vertex-buffer runs.
- `CommandQueue`: the queue, its invariant, and enqueueing.
- `QueueFlush`: `flush` as a sequence of driver calls, as written and
  corrected, against a reference plan.
- `QueueManager`: `Flush`, the pool and the manager.

The graphics driver is a parameter: a function from the call number and
the call to an optional error. A flush yields the trace of calls it made.

## Model

| member | source | states |
|---|---|---|
| Keys.String | keys.go:197-700 | a key has a non-empty name exactly when it is one of the declared keys |
| Keys.ToLowerIsLower | keys.go:703 | a lower-cased string holds no ASCII capital and no character that lower-casing would change |
| Keys.ToLowerIdempotent | keys.go:703 | lower-casing twice is lower-casing once |
| Keys.Lookup | keys.go:703-1021 | every name the table accepts denotes a declared key |
| Keys.Parse | keys.go:702-1022 | parsing only ever yields a declared key |
| KeyNames.LookupSound | keys.go:703-1021 | every lower-case name the table accepts is the lower-cased printed name of the key it yields, or the lower-cased name of a deprecated constant aliasing that key |
| KeyNames.ParseExactlyNames | keys.go:702-1022 | parsing yields a key exactly when the lower-cased input is a lower-cased name of that key: its printed name or a deprecated alias |
| KeyNames.ParseRejectsOthers | keys.go:1021 | a string that, lower-cased, names no key is rejected |
| Keys.RoundTrip | keys.go:452-1022 | parsing the printed name of any declared key gives that key back |
| Keys.DeprecatedNamesParse | keys.go:157-194 | each of the 36 deprecated constant names parses as the key its constant aliases |
| Keys.ParseIgnoresCase | keys.go:703 | the parser's answer depends only on the lower-case form of its input |
| Keys.ParseCaseInsensitive | keys.go:702-1022 | two names that differ only in ASCII letter case parse alike |
| Keys.NormalisationIdempotent | keys.go:452-1022 | printing a parsed key and parsing the result again gives the same key |
| Keys.StringInjective | keys.go:452-700 | two declared keys with the same name are the same key |
| Keys.AliasNormalises | keys.go:902-903 | the deprecated name "kp0" is read as Numpad0, which prints as "Numpad0" |
| Keys.EmptyRejected | keys.go:1021 | the empty string names no key |
| Keys.MaxRejected | keys.go:155 | "Max", the name of the alias constant `KeyMax`, is not accepted as a key name |
| Keys.MarshalText | keys.go:1025-1027 | encoding never fails; the text is empty exactly for an undeclared key, and otherwise parses back to the key |
| Keys.UnmarshalText | keys.go:1030-1037 | decoding succeeds exactly when the text parses; on success it stores the parsed key, on failure it keeps the old value and reports the text |
| Keys.UnmarshalMarshal | keys.go:1025-1037 | decoding the encoding of a declared key stores that key, whatever the variable held |
| Keys.UnmarshalMarshalUnnamed | keys.go:1025-1037 | an undeclared key encodes as empty text, which decoding rejects, keeping the old value |
| VertexLimits.ToU32 | internal/graphicscommand/commandqueue.go:123 | a conversion to `uint32` keeps values in range and otherwise agrees with its input modulo 2^32 |
| VertexLimits.Is32Bit | internal/graphicscommand/commandqueue.go:32 | the shift expression is 1 exactly on a 32-bit target, else 0 |
| VertexLimits.MaxVertexCount | internal/graphicscommand/commandqueue.go:40 | the vertex limit is positive, at most 2^32-1 so every vertex is addressable by a `uint32` index, exactly 2^32-1 on a 64-bit target, and its float count fits the platform `int` |
| VertexLimits.MaxVertexCountFormula | internal/graphicscommand/commandqueue.go:31-40 | the per-target limit equals the source's branch-free formula `is64bit*MaxUint32 + is32bit*(MaxInt32/VertexFloatCount)` |
| VertexLimits.MaxVertexFloatCount | internal/graphicscommand/commandqueue.go:42 | the float limit fits the platform `int`, and a float position divided by the vertex size fits `uint32` |
| VertexLimits.VertexOffsetFitsUint32 | internal/graphicscommand/commandqueue.go:114-123 | a vertex offset within a buffer that respects the limit converts to `uint32` without wrapping |
| Uint32sBuffer.RoundUpPower2From | internal/graphicscommand/commandqueue.go:556-560 | the doubling loop ends at a power of two that is at least its target, and is the first one reached that is |
| Uint32sBuffer.RoundUpPower2 | internal/graphicscommand/commandqueue.go:555-561 | the result is a power of two at least `x`, 1 for `x <= 1`, and its half is below `x` |
| Uint32sBuffer.RoundUpPower2IsLeast | internal/graphicscommand/commandqueue.go:555-561 | no power of two that is at least `x` is smaller than the result |
| Uint32sBuffer.Alloc | internal/graphicscommand/commandqueue.go:563-571 | a slice of exactly `n` positions ends at the new length; when it fits, the slice follows the used part of the same array; otherwise it begins a new array of power-of-two capacity, at least 16 and at least the needed length |
| Uint32sBuffer.Reset | internal/graphicscommand/commandqueue.go:573-575 | a reset empties the buffer and keeps its backing array and capacity |
| Uint32sBuffer.AllocAllSettled | internal/graphicscommand/commandqueue.go:563-571 | every slice handed out lies in the used part of the final buffer or in an older array, never before the position the buffer had reached |
| Uint32sBuffer.AllocAllDisjoint | internal/graphicscommand/commandqueue.go:563-575 | slices handed out between two resets never overlap |
| DrawCommands.SrcSizeWords | internal/graphicscommand/commandqueue.go:364-395 | an absent source image contributes two zero size words |
| DrawCommands.SizeWords | internal/graphicscommand/commandqueue.go:360-395 | the ten size words hold zeros for each absent source image |
| DrawCommands.ProjectionWords | internal/graphicscommand/commandqueue.go:450-466 | the projection is a 4x4 column-major matrix that is zero off the diagonal and last column, with 1 at (2,2) and (3,3) and translation -1 in x and y |
| DrawCommands.PreservedUniforms | internal/graphicscommand/commandqueue.go:355-469 | the preserved block has 46 words, zero sizes for absent sources, and ends with the projection matrix |
| VertexRuns.RunEnd | internal/graphicscommand/commandqueue.go:283-296 | the run scan stops between its start and the end of the list |
| VertexRuns.RunLength | internal/graphicscommand/commandqueue.go:283-296 | a non-empty command list has a non-empty first run |
| VertexRuns.RunEndSpec | internal/graphicscommand/commandqueue.go:283-296 | the scanned run fits one vertex buffer, and stops only at a draw that would overflow it |
| VertexRuns.RunLengthSpec | internal/graphicscommand/commandqueue.go:283-296 | the first run fits one vertex buffer and is maximal: the next command is a draw that does not fit with it |
| VertexRuns.RunsPartition | internal/graphicscommand/commandqueue.go:281-327 | the runs are non-empty, concatenate back to the command list, and each fits one vertex buffer |
| VertexRuns.LastRunSnoc | internal/graphicscommand/commandqueue.go:114-118 | appending a command extends the last run, unless it is a draw whose vertices overflow the current buffer, which then starts a new run |
| CommandQueue.NewQueueValid | internal/graphicscommand/commandqueue.go:483-485 | a new queue satisfies the queue invariant |
| CommandQueue.AddFinalizer | internal/graphicscommand/commandqueue.go:91-93 | a finalizer is appended and nothing else changes |
| CommandQueue.RebaseFrom | internal/graphicscommand/commandqueue.go:97-100 | the loop leaves the earlier entries alone and adds the offset, modulo 2^32, to every later one |
| CommandQueue.AppendIndices | internal/graphicscommand/commandqueue.go:95-101 | the existing indices are kept, followed by each new index shifted by the offset modulo 2^32 |
| CommandQueue.LastVertices | internal/graphicscommand/commandqueue.go:179-181 | the result is the last `n` floats, which complete the rest of the vertex array |
| CommandQueue.ExtendRegions | internal/graphicscommand/commandqueue.go:139-148 | the index total grows by `n`; the last region's count grows exactly when it is the same region, else a new region with `n` indices is appended; earlier regions are kept |
| CommandQueue.LastCommandVertices | internal/graphicscommand/commandqueue.go:138 | in a valid queue the last command's vertices are the final floats of the vertex array |
| CommandQueue.AppendDrawData | internal/graphicscommand/commandqueue.go:114-124 | the draw's floats are appended; its indices are appended, shifted by the vertex position where it starts in the current buffer (0 after a split); the buffer count becomes that start plus its floats |
| CommandQueue.EnqueueDrawWith | internal/graphicscommand/commandqueue.go:109-176 | a draw extends the vertex and index arrays, with its indices rebased to its place in the current buffer, and leaves finalizers and error alone |
| CommandQueue.EnqueueDraw | internal/graphicscommand/commandqueue.go:109-176 | a draw is rejected exactly when it has more floats than one vertex buffer holds; otherwise its floats and indices are appended after the existing ones |
| CommandQueue.EnqueueDrawCommands | internal/graphicscommand/commandqueue.go:135-176 | a mergeable draw extends the last command's vertices and destination regions; any other draw becomes a new last command |
| CommandQueue.MergedDrawPreservesValid | internal/graphicscommand/commandqueue.go:135-150 | merging a draw into the last command keeps the queue invariant |
| CommandQueue.AppendedDrawPreservesValid | internal/graphicscommand/commandqueue.go:152-176 | appending a draw as a new command keeps the queue invariant |
| CommandQueue.EnqueueDrawWithPreservesValid | internal/graphicscommand/commandqueue.go:109-176 | enqueueing a draw that fits keeps the queue invariant, merged or not |
| CommandQueue.EnqueueDrawPreservesValid | internal/graphicscommand/commandqueue.go:109-176 | every accepted draw leaves the queue valid |
| CommandQueue.EnqueueDrawIndexOffset | internal/graphicscommand/commandqueue.go:114-124 | the draw's floats end the current run's vertex buffer, and its indices are shifted by the vertex position where they start in that buffer |
| CommandQueue.CurrentBufferVertices | internal/graphicscommand/commandqueue.go:114-118 | in a valid queue the current buffer's float count equals the vertices of the last run, which end the vertex array |
| CommandQueue.CurrentBufferEndsWith | internal/graphicscommand/commandqueue.go:114-124 | the vertex floats appended last end the current vertex buffer |
| CommandQueue.Enqueue | internal/graphicscommand/commandqueue.go:186-189 | another command is appended as it is and nothing else changes |
| CommandQueue.EnqueuePreservesValid | internal/graphicscommand/commandqueue.go:186-189 | appending another command keeps the queue invariant |
| QueueFlush.PerformSpec | internal/graphicscommand/commandqueue.go:297-325 | calls are made in order up to the first error; every call but the last succeeded; the reported error is the last call's; with no error all calls were made |
| QueueFlush.PerformAppend | internal/graphicscommand/commandqueue.go:281-327 | making two lists of calls in turn is making their concatenation |
| QueueFlush.ScanRunSpec | internal/graphicscommand/commandqueue.go:283-296 | the scan loop stops where the run ends, having counted the run's floats and indices |
| QueueFlush.ScanRunIsRun | internal/graphicscommand/commandqueue.go:283-296 | the scan from the front finds the first run with its float and index counts |
| QueueFlush.ExecRunIsPerform | internal/graphicscommand/commandqueue.go:304-325 | the execution loop makes the run's execution calls in order, stopping at the first error |
| QueueFlush.ExecCallsOffsets | internal/graphicscommand/commandqueue.go:304-325 | each command of a run is executed once, in order, with the count of indices of the commands before it in the run as its offset |
| QueueFlush.FlushRunsIsPerform | internal/graphicscommand/commandqueue.go:281-327 | for either way of moving along the vertex array, the loop over runs makes the loop's calls in order, up to the first error |
| QueueFlush.LoopCallsHandOver | internal/graphicscommand/commandqueue.go:281-327 | for either way of moving along the vertex array, the loop executes every command once in order and hands over every index once in order |
| QueueFlush.LoopCallsKinds | internal/graphicscommand/commandqueue.go:283-303 | for either way of moving along the vertex array, the loop only sets vertices and executes commands; every vertex buffer it sets fits the limit and comes with at least one index |
| QueueFlush.LoopCallsFollowPlan | internal/graphicscommand/commandqueue.go:297-303 | corrected flush: moving along the vertex array after every run, the loop's calls are the plan's |
| QueueFlush.FlushRunsFollowsPlan | internal/graphicscommand/commandqueue.go:281-327 | corrected flush: the loop over runs makes exactly the planned calls, up to the first error |
| QueueFlush.PlanExecutesAll | internal/graphicscommand/commandqueue.go:281-327 | the plan executes every queued command exactly once, in queue order |
| QueueFlush.PlanHandsOverIndices | internal/graphicscommand/commandqueue.go:297-303 | the plan hands over all the queue's indices, in order, each exactly once |
| QueueFlush.PlanCalls | internal/graphicscommand/commandqueue.go:283-303 | the plan only sets vertices and executes commands; every vertex buffer it sets fits the limit and comes with at least one index |
| QueueFlush.FlushSteps | internal/graphicscommand/commandqueue.go:237-330 | for the flush as written and corrected: an idle flush does nothing; a failed Begin stops it; otherwise the calls are Begin, the loop's calls up to the first error, then End. The first error wins, the queue is emptied and stays valid, and at frame end the uniform buffer is reset and the finalizers run once |
| QueueFlush.FlushFollowsPlan | internal/graphicscommand/commandqueue.go:237-330 | corrected flush: the calls of `FlushSteps` with the loop's calls being the plan's |
| QueueFlush.FlushWithoutErrors | internal/graphicscommand/commandqueue.go:237-330 | for the flush as written and corrected, with a driver that never fails, a flush with work makes exactly Begin, the loop's calls and End, and reports no error; the loop executes every queued command and hands over every index; for the corrected flush the loop's calls are the plan |
| QueueFlush.FlushEndsOnce | internal/graphicscommand/commandqueue.go:247-255 | for the flush as written and corrected, a flush that began ends exactly once, as its last call, even after an error, and executes only queued commands |
| QueueFlush.SkipExampleFlush | internal/graphicscommand/commandqueue.go:281-327 | for a full first draw with no indices followed by a draw with indices, the full trace: the second buffer starts at the first draw's floats as written, at the second draw's when corrected |
| QueueFlush.AsWrittenSkipsVertices | internal/graphicscommand/commandqueue.go:297-303 | as written, the second run is handed the first draw's leading floats instead of its own; the corrected flush hands over its own |
| QueueManager.StoredError | internal/graphicscommand/commandqueue.go:487-491 | there is no stored error exactly when no pooled queue stores one, and any reported error is stored by some pooled queue |
| QueueManager.Get | internal/graphicscommand/commandqueue.go:479-497 | an empty pool yields a new queue; otherwise it fails exactly when some pooled queue stores an error, returning such an error; else it hands out the last queue and keeps the rest |
| QueueManager.Put | internal/graphicscommand/commandqueue.go:499-504 | a returned queue is added after the others |
| QueueManager.GetAfterPut | internal/graphicscommand/commandqueue.go:479-504 | the pool is last in, first out: a queue just returned is handed out next, and the pool is restored |
| QueueManager.GetAfterPutFailed | internal/graphicscommand/commandqueue.go:479-504 | a queue returned with a stored error makes the next check-out fail with that error |
| QueueManager.SubmitSpec | internal/graphicscommand/commandqueue.go:192-234 | for either flush and either fate of a failed queue: a stored error is returned without flushing. Otherwise a flush error reaches the caller exactly when the flush was synchronous; the queue goes back to the pool after success, and a failed asynchronous flush stores its error on the queue |
| QueueManager.EnsureCurrent | internal/graphicscommand/commandqueue.go:514-516 | an existing current queue is kept |
| QueueManager.EnqueueCommand | internal/graphicscommand/commandqueue.go:513-518 | the command is appended to the current queue, obtained from the pool when missing; without one the call fails as a nil dereference |
| QueueManager.EnqueueDrawCommand | internal/graphicscommand/commandqueue.go:525-530 | the draw goes to the current queue; it fails on a missing queue, and on too many vertex floats with the limit and the count |
| QueueManager.EnsureCurrentValid | internal/graphicscommand/commandqueue.go:513-516 | under the manager invariant a current queue exists after the check-out, valid and storing no error |
| QueueManager.EnqueueCommandPreservesValid | internal/graphicscommand/commandqueue.go:513-518 | under the invariant enqueueing another command always succeeds and keeps the invariant |
| QueueManager.EnqueueDrawCommandPreservesValid | internal/graphicscommand/commandqueue.go:525-530 | under the invariant enqueueing a draw fails exactly on too many vertex floats, and success keeps the invariant |
| QueueManager.FlushManagerSpec | internal/graphicscommand/commandqueue.go:532-548 | for either flush and either fate of a failed queue: a check-out failure is returned and changes nothing; otherwise the checked-out queue becomes current and the previous one is submitted, returned to the pool only when recycled, and the invariant holds |
| QueueManager.AsWrittenNeverReportsAsyncErrors | internal/graphicscommand/commandqueue.go:213-226 | as written no held queue ever stores an error, so check-outs never fail and only a synchronous flush returns an error |
| QueueManager.AsWrittenLosesAsyncError | internal/graphicscommand/commandqueue.go:213-226 | as written, a failed asynchronous flush returns no error and leaves no trace of it in the pool or the current queue |
| QueueManager.AsyncErrorReportedNext | internal/graphicscommand/commandqueue.go:213-226 | with the failed queue returned to the pool, its error is returned by the very next flush |

## Left out

- Keys.ToLower: `strings.ToLower` is modelled only for characters whose lower-case form is ASCII. These are A-Z, the Kelvin sign and capital I with dot above. All other characters are kept, which does not change which names parse, since every accepted name is ASCII.
- Keys.Parse: the source returns `(0, false)` for an unknown name. The model returns `None`, because the numeric key codes come from a package that is not part of this model. Values that name no declared key are `Unnamed(code)`.
- `VertexFloatCount` (12) and `PreservedUniformDwordCount` (46) belong to the graphics package, which is not part of this model. 46 is the value the source asserts at commandqueue.go:472.
- `command.go` is not part of this model. The following are assumptions:
  - `numVertices` is the draw's float count.
  - `numIndices` is the sum of its destination regions' index counts.
  - `Exec` is one opaque driver call.
  - Draw commands never need a synchronous flush.
  - The merge test and the shader's uniform filter are parameters.
- DrawCommands.PreservedUniforms: float arithmetic is left out. `math.Float32bits(float32(x))` is a parameter applied to exact rationals, so `float32` rounding of the texel division is not modelled.
- Uint32sBuffer: only positions, capacity and array identity are modelled, not the words written into the slices.
- Uint32sBuffer.RoundUpPower2: Go `int` overflow for sizes near 2^63 is not modelled.
- Image sizes are taken as positive.
- Concurrency is left out: the render thread, the atomic error slot, the mutex and `runOnRenderThread` waiting or not. The vsync flag is a parameter of `Flush`, and `SetVsyncEnabled` is not modelled.
- The frame logger and debug output are left out.
- Returning draw commands to `drawTrianglesCommandPool` is left out; it has no observable effect on the queue.
- `FlushCommands` only forwards to the manager's flush, which is modelled.
- A panic becomes an error value: `TooManyVertexFloats` for the vertex-count panic, `NilQueue` for the nil dereference after a failed check-out.
- QueueFlush.PerformSpec: "no error implies every call was made" is proved in one direction only. A call list can also be completed with an error on its last call.

## Findings

| source | as written | input that shows it | evidently intended | confidence | as-written member | corrected member |
|---|---|---|---|---|---|---|
| internal/graphicscommand/commandqueue.go:213-226 | an asynchronous flush failure is stored on the queue, but the queue is not returned to the pool, which is the only place `get` looks for stored errors | a flush with `endFrame` false (or vsync off) and no command needing sync, whose driver fails; every later flush then returns nil | the stored error surfaces at the next flush | medium, not executed | QueueManager.AsWrittenLosesAsyncError | QueueManager.AsyncErrorReportedNext |
| internal/graphicscommand/commandqueue.go:297-303 | `vs` and `es` advance only when a run draws at least one index, so a run without indices leaves its vertices at the front of `vs` | a first draw with exactly `maxVertexFloatCount` floats and no indices, followed by a draw with indices; the second `SetVertices` receives the first draw's leading floats | `vs` advances past every run's vertices | low, not executed | QueueFlush.AsWrittenSkipsVertices | QueueFlush.FlushFollowsPlan |
