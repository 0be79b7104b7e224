# Obsidio engineered backend: verified model

This project models the engineered backend of the Obsidio contest and proves what its design
promises. The service answers `/price`, `/stats`, `/risk` and `/health`; `/risk` iterates
SHA-256 50,000 times over a seed and is the reason for everything complicated in the
repository. Four parts are modelled.

1. **The SHA-NI kernels and the chain drivers.** `benchmarks/gen2lane.py` emits register code
   that hashes one or two 64-byte buffers, precomputes the schedule of the constant padding
   block, expands the digest to hexadecimal in registers and carries it around a loop. The
   instructions are a datatype with an interpreter (`Machine`), with the meaning the Intel SDM
   gives them; every emitted group is proved to refine four rounds of FIPS 180-4 section 6.2.2
   (`Gen2Lane`, `Refine`, `Lanes`), the whole listings to replace a buffer by the lowercase hex
   of its hash (`Fused`, `FusedN`, `ChainAsm`, `Block2`), and all chain drivers to equal the
   naive loop of the reference starter (`Kernels`, `Chains`, `X16`, `WorkerRun`). `Yields` says
   after which iterations they give up the processor. `Generator` is the generator itself,
   appending to a growing listing, `GeneratorLoops` its
   routines with loops.
2. **The `/risk` admission gate.** `Gate` is a state machine over the atomic steps of any number
   of submitters and hash workers: mutex sections, atomic loads and adds, compare-and-swap,
   channel operations, timers and disconnects. `GateInv` proves one inductive invariant event by
   event, `GateSafety` reads off what it means for every run. `GateDecisions` says when each
   decision is taken, in terms of counters, clocks and flags; `GateAlone` that the atomic steps,
   when nobody interferes, add up to the functions they come from. `TakeWork` is the linked stack and
   the take loop as they are in memory, `Budget` the error budget, `Patience` the cost average
   and the patience window with lost updates.
3. **The raw HTTP/1.1 loop.** `RawServer` is the connection loop with its 4096-byte buffer,
   refilled and compacted in place, over reads that split the stream arbitrarily; `HttpSpec` is
   the one-shot reading of the whole stream it is proved equal to; `HttpRoundTrip` has printers
   for both directions and proves that the readers invert them. `Wire` holds searching, lines
   and decimal numbers.
4. **The price write-ahead log.** `WalCodec` is the text of a record and its reader as an
   automaton, `Wal` the log, its replay, failed syncs and crashes at any byte, `PriceStore` the
   price table with its handlers and the restart.

`Sha256` defines the hash of FIPS 180-4, hexadecimal and the iterated hash that everything is
proved against; `ShaBits` characterizes its functions bit by bit and its constants as roots, and
`ShaVector` proves the standard's example; `HexRegs`, `PadTable` and `Bits` serve the kernels, `Options` everyone.

Results that differ from what the repository says:

- The chunked chain loops are described as having "the same yield cadence" as the per-iteration
  loops (app/main.go:639-641). `Yields.SameCadence` gives the exact condition: the stride is a
  multiple of 65536 (0 included) or a power of two from 2 to 32768. `RISK_YIELD_STRIDE` accepts
  other values.
- The log replay skips a torn final line but leaves it in the file. `Wal.AppendSurvives` shows
  that an entry appended afterwards is found by the next replay if and only if the log ended
  with a complete line, up to white space; `Wal.AcknowledgedSurvivesIff` says so along whole
  runs with short writes and failing syncs, where it means: if and only if the file ended with a
  newline or was empty. `Wal.LostAppend` is an instance of a loss.
- The live price table and the one a restart would build can disagree after overlapping posts.
  `PriceStore.SafeIff` says for a state when they must agree in the end, and
  `PriceStore.RunSafeIff` for a run: if and only if no append finds in flight a post for its
  symbol with another price, and no append whose sync fails leaves in the log a price that is
  neither served nor in flight. `PriceStore.RestartAgreesIff` says the same of the bytes of the
  log and the next boot. `PriceStore.OverlapDiffers` is an instance.
- The budget bounds the errors charged against it (`GateSafety.BudgetHolds`), not all errors.
  `GateSafety.BareShareIff` says when all errors stay within it too: if and only if every charge
  that no budget check precedes finds room for one more error when it is made.
  `GateSafety.BareShareOvershoots` is an instance where there is no room.
- `buildPriceResp` does not escape the symbol. Its text is readable as the price it announces if
  and only if the symbol is not empty and has no control character, quote or backslash
  (`PriceStore.RespReadable`, with `PriceStore.QuoteBreaksResp` as an instance); it equals the log
  text of the same entry exactly when nothing needs escaping (`PriceStore.RespIsRecord`).

## Model

| member | source | states |
|---|---|---|
| Sha256.HashOf64 | app/shakernel_amd64.go:62-68 | A 64-byte message hashes in two compressions, the second on the constant padding block |
| ShaBits.BigSigma0Bit | app/sha256block2_amd64.s:41-44 | Bit i of the function SHA256RNDS2 applies to a is the xor of bits i+2, i+13 and i+22 |
| ShaBits.BigSigma1Bit | app/sha256block2_amd64.s:41-44 | Bit i of the one it applies to e is the xor of bits i+6, i+11 and i+25 |
| ShaBits.SmallSigma0Bit | benchmarks/gen2lane.py:79-87 | Bit i of the one SHA256MSG1 applies is the xor of bits i+7, i+18 and, where it exists, i+3 |
| ShaBits.SmallSigma1Bit | benchmarks/gen2lane.py:79-87 | Bit i of the one SHA256MSG2 applies is the xor of bits i+17, i+19 and, where it exists, i+10 |
| ShaBits.ChBit | app/sha256block2_amd64.s:41-44 | Choice takes the second word's bit where the first has a one and the third's where it has a zero |
| ShaBits.MajBit | app/sha256block2_amd64.s:41-44 | Majority has the bit that at least two of the three words have |
| ShaBits.IvRoots | benchmarks/gen2lane.py:208 | The initial value is the first 32 bits of the fractions of the square roots of the first eight primes |
| ShaBits.KRoots | app/sha256block2_amd64.s:2382-2509 | The round constants are those of the cube roots of the first 64 primes |
| ShaBits.PadShape | app/shakernel_amd64.go:62-68 | A padded message is the message, one bit, as few zeros as fill whole blocks, and the length in bits |
| ShaVector.AbcDigest | starters/go/main.go:98-107 | The hash of "abc" is the digest the standard gives |
| Gen2Lane.RunEmit | benchmarks/gen2lane.py:53-113 | Running an emitted group has exactly the group's effect on its own lane and touches nothing else but X0 |
| Refine.OneRound | app/sha256block2_amd64.s:41-44 | The sum SHA256RNDS2 forms from w + k is T1 of the standard, and its results are the new a and e |
| Refine.FourRoundsRefine | benchmarks/gen2lane.py:53-56 | Two SHA256RNDS2 are four standard rounds, with S1 holding ABEF and S2 holding CDGH |
| Refine.ScheduleRefine | benchmarks/gen2lane.py:79-87 | MSG1, PALIGNR, PADDD and MSG2 produce the next four schedule words |
| Refine.GroupRefine | benchmarks/gen2lane.py:59-113 | Every load, middle and final group advances four rounds while the four W registers keep the rolling schedule window |
| Lanes.RunInterleaved | benchmarks/gen2lane.py:246-273 | Interleaving two lanes group by group gives each lane what it computes alone |
| Lanes.RunSolo | benchmarks/gen2lane.py:332-336 | A lane's groups one after the other have the effect of all its group steps, and touch only that lane |
| Lanes.MessageBlock | benchmarks/gen2lane.py:332-336 | Sixteen groups carry a lane through the 64 rounds of its block |
| Lanes.PadBlock | benchmarks/gen2lane.py:344-345 | Sixteen groups straight from the precomputed table equal the 64 rounds, schedule included, of the padding block |
| PadTable.TableIsSchedule | app/sha256block2_amd64.s:2286-2350 | The shipped wk_pad table is the schedule of the padding block plus the round constants, word for word |
| HexRegs.HexQuadBytes | benchmarks/gen2lane.py:229-244 | The nibble lookup and byte interleave emit the lowercase hex of the register's big-endian words |
| Fused.FlippedCell | benchmarks/gen2lane.py:70-74 | A flipped 16-byte load is four words of the parsed message block |
| Fused.HashHex1Correct | benchmarks/gen2lane.py:314-356 | For every buffer, the instruction list of hashHex1 leaves the lowercase hex of its SHA-256 |
| Fused.PairHashHexCorrect | benchmarks/gen2lane.py:246-298 | For every two buffers, pairHashHex leaves in each what hashHex1 would, and touches no other buffer |
| FusedN.RunFlipText | benchmarks/gen2lane.py:380-384 | The digest text left in the W registers, flipped, is the message the next iteration would load |
| FusedN.HashHex1N | benchmarks/gen2lane.py:503-559 | n iterations in registers equal n single ones; n <= 0 changes nothing |
| FusedN.PairHashHexN | benchmarks/gen2lane.py:427-501 | The same for two interleaved lanes, and no other buffer is touched |
| Block2.BlockShani2Correct | benchmarks/gen2lane.py:116-175 | Both digests are compressed with their own block, which stays as it is, like all other memory but the save slots |
| Generator.Emitter.EmitLoadGroup | benchmarks/gen2lane.py:59-87 | The table-driven function appends exactly the load group of its lane |
| Generator.Emitter.EmitMidGroup | benchmarks/gen2lane.py:90-105 | The table-driven function appends exactly the middle group of its lane |
| Generator.Emitter.EmitMessageGroups | benchmarks/gen2lane.py:266-273 | The loops over the tables append the interleaved groups of a message block |
| Generator.Emitter.EmitPadGroups | benchmarks/gen2lane.py:282-284 | The loop appends the interleaved groups of the padding block |
| Generator.Emitter.EmitHashHex1 | benchmarks/gen2lane.py:314-356 | The generator appends exactly the listing of hashHex1 |
| Generator.Emitter.EmitPairHashHex | benchmarks/gen2lane.py:246-298 | The generator appends exactly the listing of pairHashHex |
| Generator.ListedHashHex1 | benchmarks/gen2lane.py:314-356 | Run from any core state, the listing appended for hashHex1 leaves the lowercase hex of the buffer's SHA-256 in the buffer |
| Generator.ListedPairHashHex | benchmarks/gen2lane.py:246-298 | Run from any core state, the listing appended for pairHashHex does so for both buffers |
| GeneratorLoops.EmitBlockShani2 | benchmarks/gen2lane.py:146-175 | The generator appends exactly the listing of blockSHANI2 |
| GeneratorLoops.EmitFlipText | benchmarks/gen2lane.py:380-384 | The loop over the W registers appends exactly the back edge's flip |
| GeneratorLoops.EmitStoreText | benchmarks/gen2lane.py:387-393 | The loop over the W registers appends exactly the final store |
| GeneratorLoops.EmitStart1 | benchmarks/gen2lane.py:512-525 | The generator appends exactly what hashHex1N does before its loop |
| GeneratorLoops.EmitStart2 | benchmarks/gen2lane.py:438-453 | The generator appends exactly what pairHashHexN does before its loop |
| GeneratorLoops.EmitLoop1 | benchmarks/gen2lane.py:527-550 | The generator appends exactly one pass of the loop of hashHex1N |
| GeneratorLoops.EmitLoop2 | benchmarks/gen2lane.py:455-489 | The generator appends exactly one pass of the loop of pairHashHexN |
| GeneratorLoops.ListedBlockShani2 | benchmarks/gen2lane.py:146-175 | Run from any core state, the listing appended for blockSHANI2 compresses both digests with their own block |
| GeneratorLoops.ListedLoop1 | benchmarks/gen2lane.py:527-554 | One pass of the appended loop and its back edge take the message registers from a text's words to the words of its hash |
| GeneratorLoops.ListedLoop2 | benchmarks/gen2lane.py:455-495 | The same for both lanes |
| Generator.PadW | benchmarks/gen2lane.py:202-205 | The extended padding words are the schedule of the padding block |
| Generator.WkPadTable | benchmarks/gen2lane.py:206 | The computed table is the one in the shipped listing |
| ChainAsm.RunPass2 | app/sha4lane_amd64.s:329-853 | One loop round replaces both buffers by the hex of their hashes, and no other buffer |
| ChainAsm.RiskChain1x | app/sha4lane_amd64.s:18-304 | rounds iterations in memory; zero rounds change nothing |
| ChainAsm.RiskChain2x | app/sha4lane_amd64.s:307-855 | The same for two buffers |
| ChainAsm.RiskChain4x | app/sha4lane_amd64.s:858-1930 | The same for four buffers, two at a time |
| Kernels.CallHashHex1N | app/shakernel_amd64.go:103-106 | A call on any buffer, with any core state, advances it n iterations |
| Kernels.HexEncode64 | app/main.go:559-577 | The packed-pair encoder writes the ordinary lowercase hex and nothing behind it |
| Kernels.KernelSum64 | app/shakernel_amd64.go:62-77 | Two block compressions and the big-endian bytes are SHA-256 of the buffer |
| Kernels.KernelSum64Pair | app/shakernel_amd64.go:108-120 | Two interleaved compressions give both hashes |
| Chains.NaiveChain | starters/go/main.go:98-107 | The reference loop is the 50,000-fold hash |
| Chains.RiskChain | app/main.go:677-716 | All three serial forms, for every mask, return the 50,000-fold hash and yield where their cadence says |
| Chains.RiskChainPair | app/main.go:628-674 | All three pair forms do so for two seeds |
| Chains.RiskChainQuad | app/sha4lane_amd64.go:47-73 | The chunked four-lane form does so for four seeds |
| Chains.PacedNext | app/main.go:642-656 | After every chunk the chunked loop has yielded exactly when due |
| Yields.SameCadence | app/main.go:641-663 | Chunked and per-iteration loops yield after the same iterations exactly for strides that are multiples of 65536 or powers of two from 2 to 2^15 |
| Yields.PowerOfTwoAgrees | app/main.go:541-550 | Powers of two from 2 to 2^15 give both loops the same yields |
| Yields.LargeStrideAgrees | app/main.go:535-539 | Stride 0 and the other multiples of 65536 give no yields in either form |
| Yields.NeverLongerThanStride | app/main.go:641-656 | No more than stride iterations run between yields |
| Yields.AutoStride | app/main.go:528-534 | The calibrated stride is the largest power of two in 256..8192 that fits the target |
| Yields.MaskRoundTrip | app/main.go:535-539 | The stride a chunked loop derives from the mask is the calibrated one, 0 included |
| X16.OffsetOnto | app/shakernel_x16_amd64.go:34-35 | Every byte of the transposed state lies in the cell of some lane and word |
| X16.OffsetOneToOne | app/shakernel_x16_amd64.go:34-35 | The cells i*4 + w*64 of different lanes and words are disjoint |
| X16.LaneOfPack | app/shakernel_x16_amd64.go:72-82 | Every lane reads back its own digest, in the right byte order |
| X16.IvTemplate | app/shakernel_x16_amd64.go:36-43 | The initializer fills every lane with the initial value |
| X16.X16Chains.constructor | app/shakernel_x16_amd64.go:58-65 | Pooled objects are made with the padding block behind every lane |
| X16.X16Chains.Step | app/shakernel_x16_amd64.go:70-83 | All sixteen lanes advance by one hash and keep their padding |
| X16.X16Sum64 | app/shakernel_x16_amd64.go:85-101 | Sixteen hashes, whatever the pooled object held before |
| X16.X16ChainRun | app/shakernel_x16_amd64.go:103-128 | Every seed gets its own 50,000-fold hash, whatever earlier batches and dummy lanes computed |
| WorkerRun.RunBatch | app/main.go:416-459 | For every set of kernels and batch length every waiter is sent exactly one digest, its own |
| WorkerRun.ServeBatch | app/main.go:404-459 | Sending the digests the kernels computed is, step by step, what the gate's worker does, and leaves it at the head of its loop with every waiter of the batch answered |
| Budget.BudgetBelowGate | app/main.go:799-816 | The gate is the declared one within 10..1000 and 100 otherwise; the budget is 88% of it or the override, cut off at 95%, for all settings of both |
| Budget.Reserve | app/main.go:824-838 | A reservation checked against stale counters still fits the budget |
| GateInv.KeepInv | app/main.go:186-460 | Every step of every thread keeps the invariant |
| GateInv.Reachable | app/main.go:186-460 | The invariant holds in every state of every run |
| GateInv.SubCounts | app/main.go:253-335 | A submitter's charges and its answer reach the shared counters exactly as its own record says |
| GateInv.CountersMove | app/main.go:818-839 | An answer, an unbudgeted charge, a reservation and a release all keep the counters within the budget |
| GateInv.WorkerWakes | app/main.go:381-415 | A worker that was going to look at the stack still is, unless it just saw it empty |
| GateInv.SubWakes | app/main.go:279-285 | A push leaves its submitter about to send, and a send leaves a token even when the buffer was full |
| GateInv.KeepFront | app/main.go:263-272 | No other thread can end an overload while a request at the front door holds the mutex |
| GateSafety.ExactlyOnce | app/main.go:287-335 | A request that returned false has charged respErr exactly once, one that returned true nothing, and its answer is the chain of its own seed |
| GateSafety.Quiescent | app/main.go:750-761 | When all requests have finished, respOK + respErr is the completed requests plus the stale skips |
| GateSafety.BudgetHolds | app/main.go:818-839 | In every reachable state the budgeted errors are within their share of all responses |
| GateSafety.ReservationFits | app/main.go:824-838 | Right after a reservation all errors are within the budget and more than 500 responses have been counted |
| GateDecisions.EntersIff | app/main.go:255-275 | A request that comes in is turned away exactly when 2048 waiters are parked, tries to reserve an error exactly when some are and every worker is busy, and otherwise goes on to the stack |
| GateAlone.WorldSteps | app/main.go:750-758 | A response of another endpoint adds one to one of the two counters; an arrival, a cancellation, the clock and the window change only what they name |
| GateDecisions.CheckStep | app/main.go:826-835 | A reservation is refused exactly below 500 responses or when one more error would exceed the budget; then the request joins the stack, or stays parked, and nothing else has changed |
| GateDecisions.SwapStep | app/main.go:836-838 | The swap succeeds exactly when respErr is still what was checked, charging one error; otherwise the check is made again |
| GateDecisions.ReserveAlone | app/main.go:824-838 | Without interference a reservation must succeed when the budget has room and must fail, changing nothing, when not |
| GateDecisions.RefusedOnlyIf | app/main.go:253-335 | A parked request is refused only after a reservation of its own or with its context cancelled, one that never parked only after a reservation of its own or on arrival at 2048 waiters |
| GateDecisions.CancelledIff | app/main.go:298-299 | A request counts as cancelled exactly when its own context was cancelled |
| GateAlone.EnterAlone | app/main.go:253-285 | Without interference: an unbudgeted refusal at 2048 waiters, a budgeted one under overload with room in the budget, otherwise on top of the stack with the time of the push and a wake-up sent |
| GateAlone.TimeoutAlone | app/main.go:300-326 | When patience runs out without room in the budget nothing changes and the request stays parked; with room it is refused for one error, or, taken, waits for its digest with the error given back |
| GateAlone.GiveUpAlone | app/main.go:298-335 | When its context is cancelled a request is refused for one unbudgeted error, or, taken, waits for its digest |
| GateAlone.AnswerAlone | app/main.go:296-297 | A request whose digest has arrived answers with it and counts one success |
| GateSafety.FrontDoorOnlyOverloaded | app/main.go:263-272 | A request is shed on arrival only while waiters are parked and no worker is idle |
| GateSafety.BareShareIff | app/main.go:750-839 | All errors of a run stay within the budget, nothing subtracted, if and only if every charge no budget check precedes finds room for one more error |
| GateSafety.NoLostWakeup | app/main.go:279-285 | While a waiter is parked a token is buffered, a send is coming, or a worker will look before it blocks |
| GateDecisions.TokensFit | app/main.go:279-285 | At most sixteen tokens; a send adds one unless the channel is full, a wake-up takes one, nothing else moves them |
| GateAlone.IdleAlone | app/main.go:406-414 | A worker that found nothing is counted idle, blocks until it gets a token and goes back to the head of its loop |
| GateSafety.IdleIsExact | app/main.go:406-414 | riskIdleWorkers counts exactly the workers parked or just woken |
| GateSafety.OneOwner | app/main.go:186-194 | No waiter is both taken and abandoned, or in two places, or delivered twice |
| GateSafety.SendNeverBlocks | app/main.go:428-459 | A worker with digests to deliver can always deliver the next one |
| GateSafety.ReceiveIsServed | app/main.go:316-325 | A submitter waiting for its digest has it in the channel or is in its taker's batch |
| GateSafety.BatchFits | app/main.go:404-416 | A worker about to hash holds one to sixteen different waiters |
| GateSafety.StackShape | app/main.go:246-278 | The counted depth is the length, at most 2048; waiters are distinct and newest first |
| GateSafety.NoneServedUnderStale | app/main.go:356-368 | Under a stale waiter no waiter is worth serving |
| GateSafety.TakeIsShortest | app/main.go:344-375 | However it interleaves, a finished take has removed the shortest prefix that fills its batch, or everything; its batch is the waiters of that prefix judged servable and its stale charges are those judged stale |
| GateSafety.JudgedAtPop | app/main.go:347-371 | The m-th waiter of a take is judged by its flags when it is popped: dead if abandoned or cancelled, else stale if older than the window, else to serve |
| GateDecisions.PopStep | app/main.go:349-371 | A pop charges one error exactly for a live waiter older than the window, takes exactly a live one that is not, and only drops the others |
| GateDecisions.TakeWindow | app/main.go:344-348 | All pops of a take use the clock, the window and the stack of the moment it locked the gate |
| GateDecisions.WantIs | app/main.go:381-405 | A worker asks for sixteen waiters with that kernel and enough parked, else for four, two or one by the kernels installed |
| GateAlone.EndStep | app/main.go:349-374 | A take ends exactly when its batch is full or the stack empty; the worker goes on to hash the batch, or to park |
| GateSafety.HolderCanStep | app/main.go:253-375 | Whoever holds the mutex has a step of its own to take |
| GateSafety.NeverDeadlocked | app/main.go:253-460 | In every reachable state with a worker, if no worker and no submitter can do anything but let its patience run out, every request is finished or waits with a skipped waiter, and its patience can run out |
| GateSafety.ServedRun | app/main.go:253-335 | From every initial state with at least one worker, no sixteen-lane kernel and a nonnegative patience some run parks, takes, hashes and answers a request |
| TakeWork.RiskStack.Push | app/main.go:267-278 | The new waiter goes on top of the linked list, the rest is unchanged |
| TakeWork.RiskStack.TakeWork | app/main.go:344-375 | Unlinks exactly the shortest prefix with want serviceable waiters; a waiter of it is in the batch exactly if neither abandoned nor done at its pop and not older than the window, and the errors charged are the number of those neither abandoned nor done and older |
| TakeWork.GateVerdicts | app/main.go:356-371 | The gate's pops use the same three cases |
| TakeWork.PrefixUnique | app/main.go:349-354 | There is only one such prefix |
| TakeWork.IsShortest | app/main.go:349-354 | A prefix that is full, or everything, and was not full one waiter earlier is that prefix |
| Patience.FoldBetween | app/main.go:236-238 | The average moves toward the sample without passing it, and stands still exactly within 7 ns |
| Patience.ClampNearest | app/main.go:231-235 | A sample within 1..500 ms counts as it is, any other as the nearer bound, and a longer one never for less |
| Patience.Converges | app/main.go:236-238 | Under a constant sample the distance strictly shrinks until it is at most 7 ns, without changing sign |
| Patience.Settles | app/main.go:236-238 | As many equal samples as the distance has nanoseconds bring the average within 7 ns |
| Patience.HullHolds | app/main.go:230-244 | With any lost updates the average stays in the hull of its start value and the clamped samples taken so far |
| Patience.RangeHolds | app/main.go:230-244 | Whatever is sampled, it stays in the hull of its start value and 1..500 ms |
| Patience.PatienceBounds | app/main.go:219-244 | Patience is within 100..1200 ms and fits the 1500 ms budget unless at the floor |
| Patience.FloorOnlyFromBoot | app/main.go:512-517 | The window is cut off at the floor in no state of a run if and only if the boot cost is at most 1100 ms |
| Patience.ObserveAlone | app/main.go:230-244 | An observer without competition folds its own clamped sample into the average and derives the window |
| Patience.ChainCost.Observe | app/main.go:230-244 | One observation folds the clamped sample and rederives the window |
| Wire.IndexPrefix | app/rawserver.go:181-191 | What is found in the buffered prefix is what is found in the whole stream |
| Wire.DecRoundTrip | app/rawserver.go:103 | Printing and reading a decimal number are inverse |
| RawServer.AsciiEqualFold | app/rawserver.go:117-131 | The loop compares with A to Z, and nothing else, lowered |
| RawServer.TrimOwsLoop | app/rawserver.go:133-141 | The loops remove the optional whitespace at both ends |
| HttpSpec.TrimMeans | app/rawserver.go:133-141 | Trimming drops nothing but spaces and tabs, at the ends, and all of them |
| RawServer.ReadLength | app/rawserver.go:234-244 | One to nine digits and their value, or the connection closes |
| RawServer.ReadFields | app/rawserver.go:216-254 | The in-place header loop is the fold over the lines of the head |
| HttpSpec.FieldsMean | app/rawserver.go:216-254 | The header lines close the connection exactly when one is a Transfer-Encoding or a Content-Length of other than one to nine digits; otherwise the last length and the last wish count |
| HttpSpec.TargetSplits | app/rawserver.go:261-264 | A target without a question mark is all path; any other is the path up to the first one and the query behind it |
| HttpSpec.ClosesIff | app/rawserver.go:178-307 | Exactly which streams close the connection: no head end within 4096 bytes, no request line, a rejected header line, a body over 3072 bytes or cut short |
| RawServer.RawConn.Compact | app/rawserver.go:165-169 | Copying down keeps the window's bytes |
| RawServer.RawConn.Fill | app/rawserver.go:161-176 | Compaction and a read keep the unread bytes of the stream; it fails only on a full buffer or at the end |
| RawServer.RawConn.ReadBody | app/rawserver.go:290-307 | A body of at most 3072 bytes fails only when the stream ends, never because the buffer is full |
| RawServer.RawConn.ScanHead | app/rawserver.go:192-289 | The positions found for method, target, length and connection wish name, in the buffer as it is then, the pieces of the head |
| RawServer.RawConn.ReadRequest | app/rawserver.go:178-307 | One pass yields the first request of the unread stream and leaves the rest unread |
| RawServer.RawConn.Serve | app/rawserver.go:148-328 | For every stream and every split into reads the dispatched requests are those of the stream read at once |
| HttpRoundTrip.RequestRoundTrip | app/rawserver.go:192-307 | A printed request is dispatched with the method, path, query, body and connection wish it was sent with, and the stream continues behind it |
| HttpRoundTrip.RequestHeadParses | app/rawserver.go:192-254 | Either version, any further header lines the server ignores and any Connection wish give the method, target, length and keep-alive that were meant |
| HttpRoundTrip.PipelineRoundTrip | app/rawserver.go:145-147 | Pipelined requests are dispatched one by one, up to the first that closes |
| HttpRoundTrip.RawResponse.WriteResponse | app/rawserver.go:82-115 | For every status code the assembled bytes are the printed response, written once, and nothing is written after a failure |
| HttpRoundTrip.Phrases | app/rawserver.go:84-101 | The five codes of the handlers have their own phrases, every other the library's |
| HttpRoundTrip.IntTextReads | app/rawserver.go:97 | A code prints as its digits, with a minus sign exactly when negative |
| HttpRoundTrip.ResponseRoundTrip | app/rawserver.go:82-115 | A client reads code, phrase, media type, body and close of a written response back by Content-Length, for three-digit codes and bodies of any length, whatever follows |
| HttpRoundTrip.ResponsesRoundTrip | app/rawserver.go:82-115 | Any sequence of such responses is read back as that sequence |
| HttpRoundTrip.ResponsesUnique | app/rawserver.go:82-115 | Different sequences of such responses differ on the wire |
| WalCodec.DecodeEncode | app/main.go:950-953 | A record is read back, unless its symbol is empty |
| WalCodec.PrefixIsTorn | app/main.go:966-967 | No proper prefix of a record's text is a record |
| WalCodec.BehindTornIsLost | app/main.go:971-979 | A record behind anything but white space on its line is not read |
| WalCodec.BehindBlankIsRead | app/main.go:971-979 | A record behind white space is read, and white space alone is none |
| WalCodec.EncodeOneLine | app/main.go:994-995 | A record's text holds no line feed |
| Wal.CrashRecovery | app/main.go:966-984 | Replay after a crash is the old entries, the complete appends, and the one in flight exactly when its whole text got to disk |
| Wal.AcknowledgedSurvive | app/main.go:990-1007 | For every run of whole writes with failing syncs and a crash at any byte, replay is a prefix of the posted entries that holds every acknowledged one |
| Wal.AcknowledgedSurvivesIff | app/main.go:990-1007 | In every run with short writes and failing syncs an acknowledged append is found at its place by the replay after any later crash if and only if the file ended with a newline, or was empty, when it was made |
| Wal.TornTailLoses | app/main.go:971-979 | Behind a tail that is not only white space an appended entry is lost to every later replay, which reads all later lines on their own |
| Wal.AppendSurvives | app/main.go:955-984 | An appended entry is found by every later replay if and only if the log ended with a complete line, up to white space |
| Wal.LostAppend | app/main.go:966-984 | A concrete crash and acknowledged append that replay forgets |
| PriceStore.PriceServer.InitPriceWal | app/main.go:955-986 | Replay folds exactly the decodable lines, in order, into the table |
| PriceStore.PriceServer.AppendWal | app/main.go:990-1007 | With the log active, true exactly when the whole record was written and the sync succeeded, and then everything up to it is synced; a failure syncs nothing |
| PriceStore.PriceServer.HandlePricePost | app/main.go:1009-1029 | 400 exactly without a name or price; 200 exactly when the record was written whole and synced; else 500; the table changes only with a 200, whose body is the rendering of the new price |
| PriceStore.PriceServer.HandlePriceGet | app/main.go:858-872 | Every known symbol gets the rendering of its current price, every other a 404 |
| PriceStore.PriceServer.CrashAndRestart | app/main.go:955-986 | A restart after a crash has the base prices and the replay of what is on disk |
| PriceStore.LiveIsReplay | app/main.go:1018-1027 | In particular, while posts for one symbol do not overlap, the served table is the one a restart would build |
| PriceStore.SafeIff | app/main.go:1018-1027 | However the posts in flight finish, the served table ends as the one a restart would build, if and only if every settled symbol agrees already and every post in flight carries the price replay would find |
| PriceStore.RunSafeIff | app/main.go:990-1027 | All states of a run are safe in that sense if and only if every append finds in flight no post for its symbol with another price, and one whose sync fails also finds its price served or in flight |
| PriceStore.LoggedIsOnDisk | app/main.go:990-1007 | The file of a run of whole writes reads as what was there and exactly what the run has logged, and without failing syncs nothing of it is unsynced |
| PriceStore.RestartAgreesIff | app/main.go:955-1027 | From a boot on a newline-terminated log, the served table ends in every state as the next boot would build it from the bytes on disk, if and only if every append is harmless when made |
| PriceStore.RespIsRecord | app/main.go:145-153 | The response text is the log text exactly when the symbol has no control character, quote, backslash, angle bracket or ampersand |
| PriceStore.RespText | app/main.go:145-153 | Both texts, byte for byte |
| PriceStore.RespReadable | app/main.go:145-153 | The response is readable as the price it announces if and only if the symbol is not empty and has no control character, quote or backslash |

## Left out

- RiskChain1x: negative round counts, for which the routine makes no promise; the same holds for RiskChain2x and RiskChain4x.
- Sha256X16: the vendored AVX-512 routine enters as its lane-wise contract, two compressions for each lane; likewise the vendored blockSHANI and blockAVX2 inside KernelSum64 are one compression.
- KernelSum64Pair: both lanes read the same padding buffer in the second call; the model gives each lane a copy, which the routine only reads.
- RunPass2: the listing of app/sha4lane_amd64.s reads its round constants from a table that holds them once, gen2lane's listing from one that holds them twice; the model passes the sixteen bytes themselves.
- WriteResponse: net/http's status texts are a parameter; the round trips ask of them that they hold no line break and of codes that they have three digits, as net/http's own have.
- EmitLoop1: labels, counters and jumps are not instructions of the model; HashHex1N and PairHashHexN run the loops the listings are the bodies of.
- RequestRoundTrip: requests with a one-word method, the two header names spelled as printed and sizes that fit; everything else is covered by Serve, which holds for every stream.
- AppendStep: what a failed write or a failed fsync leaves on disk is the written prefix, not yet durable; a device that drops synced bytes is not modelled.
- Decode: the reader accepts the records this program writes, and white space around them; white space inside a record, other key orders and other escapes that encoding/json would accept do not occur in this log. The writer escapes every special byte as a hexadecimal escape where encoding/json abbreviates a few.
- RespIsRecord: symbols are bytes; encoding/json also escapes the two Unicode line separators and replaces invalid UTF-8, which the log's writer here carries as they are.
- RunSafeIff: a short write is not one of its events, nor of RestartAgreesIff's; what it does to the log, AcknowledgedSurvivesIff and AppendSurvives say.
- Price: a price is its JSON number text; converting between float64 and text is strconv's business.
- Gate: int64 overflow of the counters (beyond 900 million million responses), and progress under a fair scheduler; patience is any value at any time, and its timer may fire at any time.
- Serve: socket deadlines, the shutdown drain and the listener; a read error or deadline is the end of the stream, and a failing write is a number of writes that succeed.
- Boot: self-tests, races between kernels, calibration measurements and environment reading; their outcome is an arbitrary choice of kernel slots, stride and start cost.
- Mask: yields are recorded as iteration counts; what the scheduler does with them is not modelled.
- /stats, symbolParam and its fallback to net/url, net/http as alternative front end, logging, the starters in other languages, k6 scripts and compose files: thin or data only.
