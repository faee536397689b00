# Entropy service: a model and its proofs

This project models the stateful and arithmetic core of the entropy service (a Go server, a Go
client and two browser scripts) and proves properties of the model. `dafny verify dfyconfig.toml`
checks everything.

| files | what they model |
|---|---|
| `Common` | types shared by several modules |
| `Generators`, `Connections`, `Ledger`, `ReseedProtocol`, `ReseedStreams`, `ReseedFreshness`, `InstanceCount`, `ReseedRuns`, `ReseedLoop` | the generator hierarchy: keyed streams with a 2^38-byte budget per key, private children of connections, the reseed protocol between them, instance counting by compare-and-swap, and the periodic reseed loop |
| `ComplexNumbers`, `Dft`, `BitReversal`, `Fft` | the in-place radix-2 transform of the two browser scripts against the defining sum of the discrete Fourier transform |
| `FrameLeases`, `FramePool`, `FrameStream` | the client's recycled frame buffers: producer, queue of one, consumer, pool of three |
| `Admission`, `Reservations`, `Lifecycle` | the two admission budgets, their saturating 64-bit reservations and the validated configuration they rely on, and the shutdown of a server |
| `SerialCorrelation`, `CorrelationAgreement`, `StreamStatistics`, `UploadAnalysis`, `ActivityPeaks`, `SeedMixer` | incremental statistics against their whole-input meaning, activity peaks, and mixing of CPU words into seeds |

Objects whose methods update fields are classes; each method's contract gives the whole new state as a
function of the old one, and the lemmas are about those functions. Concurrent behaviour is a state machine
with one action per atomic step, and the theorems quantify over every sequence of actions (an action that is
not enabled leaves the state as it is). A critical section that touches only fields its lock protects is one
step; the parent's epoch, which readers load without the lock, changes in a step of its own.

SHA-512, SHA-256 and the two ciphers are function parameters. Key generations are told apart by their number,
never by the key bytes.

Some statements came out differently from what one might expect, and are stated as they are:

- The streaming lag-1 correlation is not the batch one. The denominators agree for every input, but the
  running-sum numerator lacks the end terms, the two programs start at three and at four samples, and both clamp. The
  returned values are equal exactly when there are fewer than three bytes, or all bytes are equal, or there are at
  least four and either the streaming value is not clamped and the first and last bytes together make up the mean, or it
  is clamped and the batch value is -999999/1000000 (`ResultsAgreeExactlyWhen`). Bytes 1, 2, 0 show the threshold
  (-1/2 and 0), bytes 1, 0, 0, 1 the clamp (-0.999999 and -1/4), and a million alternating bytes the
  coincidence, which takes at least a thousand bytes (`ClampNeedsLength`).
- Both upper clamps and the batch lower clamp can never be taken; the streaming lower clamp can
  (`StreamStaysBelowOne`, `ClampExample`).
- `RunFromReader` gives floor(total / interval) periodic callbacks for every reader exactly when the interval is at
  least the chunk size (`OnePerIntervalExactlyWhen`); its comment only says "approx".
- The drop branch of a frame release is dead exactly for consumers that hold at most one frame
  (`DropsExactlyAboveOne`).

## Model

| member | source | states |
|---|---|---|
| Dft.Halving | cmd/entropy-server/web/worker.js:36-53 | The defining sum of length 2h, at every index and after every number of terms, is the even samples' sum plus the rotated odd samples' sum |
| Dft.Periodic | cmd/entropy-server/web/worker.js:39-51 | The defining sum is periodic in its index, which lets one half-size coefficient serve two slots |
| Dft.TermIs | cmd/entropy-server/web/worker.js:39-48 | The sum starts at zero and its term n is sample n turned by n k / length of a whole turn, real and imaginary part written out |
| Dft.Butterfly | cmd/entropy-server/web/worker.js:40-50 | Coefficients k and k + h of 2h samples are the sum and the difference of the halves' coefficient k, the odd one rotated |
| BitReversal.ReverseFromTop | cmd/entropy-server/web/worker.js:26-34 | Bit reversal can be read from either end: a leading bit becomes the lowest one |
| BitReversal.ReverseTwice | cmd/entropy-server/web/worker.js:26-34 | Bit reversal is its own inverse for every width |
| BitReversal.ReverseOfSuccessor | cmd/entropy-server/web/worker.js:27-29 | Adding one at the top with the carry going down takes the reversal of i to the reversal of i + 1 |
| BitReversal.NextReversed | cmd/entropy-server/web/worker.js:27-29 | The clearing loop computes that carry and its bit never reaches zero |
| Fft.StageBlock | cmd/entropy-server/web/worker.js:36-53 | The stage invariant: after each stage slot k of block b holds coefficient k of that block's own samples |
| Fft.BlockIsStrided | cmd/entropy-server/web/worker.js:26-53 | A block's samples are the strided subsequence that starts at the reversed block number |
| Fft.BlockHalves | cmd/entropy-server/web/worker.js:38-51 | The two neighbouring blocks a butterfly joins are the even and odd samples of the joint block |
| Fft.FirstStage | cmd/entropy-server/web/worker.js:26-36 | The bit-reversed samples are the array of length-one transforms |
| Fft.StageStep | cmd/entropy-server/web/worker.js:39-51 | One butterfly at each pair of slots turns the array of one stage into that of the next |
| Fft.ReorderStep | cmd/entropy-server/web/worker.js:30-33 | The swap guarded by i < j is exactly what separates two consecutive passes of the reordering |
| Fft.ReorderingPermutes | cmd/entropy-server/web/worker.js:26-34 | The reordering keeps the multiset of samples and ends with sample reverse(p) in slot p |
| Fft.ReorderPairs | cmd/entropy-server/web/worker.js:26-34 | In place: both arrays end bit-reversed, none of their values is lost |
| Fft.ReorderSamples | cmd/entropy-server/web/file-upload.js:93-99 | The same for the script that swaps only the samples |
| Fft.CombinePair | cmd/entropy-server/web/worker.js:45-50 | The six array updates, slot by slot in real arithmetic, which are one complex butterfly on slots a and b; every other slot is left alone |
| Fft.TransformBlock | cmd/entropy-server/web/worker.js:39-51 | The innermost loop completes one block and changes nothing outside it |
| Fft.TransformStage | cmd/entropy-server/web/worker.js:37-52 | The middle loop takes the whole array from one stage to the next |
| Fft.Transform | cmd/entropy-server/web/worker.js:36-53 | From bit-reversed samples the stages leave coefficient k in slot k, for every power-of-two length |
| Fft.WindowIs | cmd/entropy-server/web/worker.js:19-24 | A windowed sample is half of the byte centred on 127.5 less its product with the cosine of i / (n - 1) of a turn |
| Fft.Spectrum | cmd/entropy-server/web/worker.js:15-53 | Window, reorder and stages together: slot k holds sum of x[n] w^(nk) of the windowed samples; too few bytes give nothing |
| Fft.RenderSpectrum | cmd/entropy-server/web/file-upload.js:87-111 | The second script meets the same specification on its own centred samples |
| Generators.BudgetNeverWraps | cmd/entropy-server/internal/drbg/drbg.go:284-290 | In every reachable state the unsigned subtraction of the budget check is the true difference |
| Generators.CountersStayUnique | cmd/entropy-server/internal/drbg/drbg.go:88-90 | Every byte served lies in one of ChaCha20's 2^32 blocks, and AES-CTR counter blocks repeat under a key only for one and the same block |
| Generators.ReadInTwoParts | cmd/entropy-server/internal/drbg/drbg.go:279-308 | Splitting a read changes neither the bytes nor the generator left behind |
| Generators.ReadBytes | cmd/entropy-server/internal/drbg/drbg.go:279-310 | The value form of a read: refusals exactly for a closed generator and for more than 2^38 bytes in all, else keystream byte generated + k at k |
| Generators.KeysAreDigests | cmd/entropy-server/internal/drbg/drbg.go:112-238 | For a seed of any length from 32 bytes, first keys are digests of the seed and later ones of old key and seed; a reseed clears the last error and keeps the failure count |
| Generators.InstanceGauges.Register | cmd/entropy-server/internal/drbg/drbg.go:139-146 | A constructor that is not interfered with: one more instance, and the peak becomes the larger of itself and the new count |
| Generators.Drbg.NewWithAlgorithm | cmd/entropy-server/internal/drbg/drbg.go:112-157 | Seeded from bytes 0-31 and 32-47 of the digest of the seed, or the first error, with the instance counted only on success |
| Generators.Drbg.ReadLocked | cmd/entropy-server/internal/drbg/drbg.go:279-310 | Buffer byte k is keystream byte generated + k of the old key and nonce, and the budget moves by the buffer's length; a refusal says which and changes nothing |
| Generators.Drbg.Reseed | cmd/entropy-server/internal/drbg/drbg.go:185-238 | Key and nonce are bytes 0-31 and 32-47 of the digest of old key and seed, budget and error cleared, epoch and count up by one; a refusal says which and changes nothing |
| Generators.Drbg.RecordReseedFailure | cmd/entropy-server/internal/drbg/drbg.go:324-334 | Only the failure count and the last error change, and nothing for a nil error |
| Generators.Drbg.Close | cmd/entropy-server/internal/drbg/drbg.go:246-266 | The generator is closed with its key bytes zero and its instance given back exactly once |
| Generators.Drbg.Derive | cmd/entropy-server/internal/drbg/drbg.go:384-397 | Succeeds exactly for sizes 1..2^20 of an open generator with that much budget left, and then gives the keystream bytes from where it had got to |
| Connections.ReadFailsExactlyWhen | cmd/entropy-server/internal/drbg/connection.go:30-72 | A read fails if and only if the reader is closed, the request exceeds a key's budget, or a due refresh finds the parent closed or out of budget; so the child read after a refresh cannot fail |
| Connections.FailedReadChangesNothing | cmd/entropy-server/internal/drbg/connection.go:44-68 | After a failed read child, stored epoch and parent are what they were |
| Connections.ParentPaysPerRefresh | cmd/entropy-server/internal/drbg/connection.go:42-85 | A served read costs the parent 64 bytes if it refreshed and nothing otherwise, and leaves the stored epoch current |
| Connections.RefusalsAre | cmd/entropy-server/internal/drbg/connection.go:30-72 | Which refusal a read gives: closed, too long, or, if a refresh is due, the parent's own closed or exhausted budget; an empty read gives nothing and asks nothing |
| Connections.BytesServed | cmd/entropy-server/internal/drbg/connection.go:42-72 | Byte k of a served read is the child's keystream from where it had got to or, after a refresh, from zero under a key that is the digest of the previous key and the parent's next 64 keystream bytes |
| Connections.ReadsJoin | cmd/entropy-server/internal/drbg/connection.go:26-73 | Two reads that fit one key are one read of their total, with the same connection and parent left behind |
| Connections.ReadsFormOneStream | cmd/entropy-server/internal/drbg/connection.go:26-73 | Any sequence of reads that fits one key is one read of its total |
| Connections.OneMoreRead | cmd/entropy-server/internal/drbg/connection.go:26-73 | What a sequence of reads is: each read's bytes follow those before until one fails |
| Connections.ConnectionReader.Read | cmd/entropy-server/internal/drbg/connection.go:26-73 | The imperative read has the bytes, error, connection and parent of the sequential specification, its bytes are the child's keystream up to where the child got, a due refresh costs the parent 64 bytes, a failure leaves the buffer alone, and one instance is counted per child |
| Connections.ConnectionReader.RefreshChild | cmd/entropy-server/internal/drbg/connection.go:44-69 | Seed and epoch are taken from the parent together; a new child is created or the old one rekeyed, and a refusal changes nothing |
| Connections.ConnectionReader.Close | cmd/entropy-server/internal/drbg/connection.go:88-98 | Closed for good, the child retired and its instance given back once |
| Ledger.Append | cmd/entropy-server/internal/drbg/drbg.go:284-290 | A range that starts where its stream had got to keeps every stream tiled |
| Ledger.RangesDisjoint | cmd/entropy-server/internal/drbg/drbg.go:284-290 | No position of a stream lies in two ranges |
| Ledger.RangesCover | cmd/entropy-server/internal/drbg/drbg.go:284-290 | A position lies in some range if and only if it is below the total handed out |
| ReseedProtocol.StepKeepsInv | cmd/entropy-server/internal/drbg/connection.go:26-98 | Every step of every participant keeps the whole protocol invariant, one-shot children keyed from their own seed included |
| ReseedProtocol.ServedReadsAreFresh | cmd/entropy-server/internal/drbg/connection.go:42-85 | In every interleaving a read that started after a reseed returned is served under that generation or a later one, a reader's generations never go back, and each byte is the keystream, at the recorded position, of the digest of 64 bytes that are themselves keystream bytes of exactly that parent generation |
| ReseedProtocol.StoredEpochIsSeedGeneration | cmd/entropy-server/internal/drbg/connection.go:75-85 | The stored epoch is the number of reseeds behind the parent key whose keystream bytes are the child's seed, and the child's key is the digest of its previous key and that seed |
| ReseedProtocol.StreamsAreTiled | cmd/entropy-server/internal/drbg/drbg.go:160-175 | Over every run of direct reads, one-shot children, refreshes, reseeds and closes, the ranges handed out under each key of each instance, current or retired, tile exactly [0, generated): every position below that total lies in exactly one range, no other in any |
| ReseedProtocol.RetiredStaysRetired | cmd/entropy-server/internal/drbg/drbg.go:225-235 | A key that a reseed, refresh or close put out of use keeps the total it had; no step hands out another byte of its stream |
| ReseedProtocol.RetiredForEver | cmd/entropy-server/internal/drbg/drbg.go:225-235 | The same after any further interleaving |
| ReseedProtocol.SeedsNeverOverlap | cmd/entropy-server/internal/drbg/connection.go:75-85 | In every run no two 64-byte seeds ever drawn, for whatever children, dead or alive, overlap in the stream of one parent key |
| ReseedProtocol.LiveSeedsDoNotOverlap | cmd/entropy-server/internal/drbg/connection.go:51-67 | The seeds of any two children that exist together come from disjoint stretches of the parent's streams |
| ReseedProtocol.ServingNeverFails | cmd/entropy-server/internal/drbg/connection.go:69-72 | In every interleaving the child read of a reader that got past its refresh succeeds |
| ReseedProtocol.SoloIsSequential | cmd/entropy-server/internal/drbg/connection.go:26-73 | Without interference the steps of a read leave the connection and parent of the sequential read and give its answer, bytes or error |
| ReseedStreams.StepKeepsStreams | cmd/entropy-server/internal/drbg/drbg.go:160-175 | Every step keeps the ledger's bytes, the derivation of every child key and the keys in use |
| ReseedStreams.KeysStay | cmd/entropy-server/internal/drbg/connection.go:60-69 | No interleaving changes or forgets a key that the parent or a child has had |
| ReseedStreams.BytesAreTheStreams | cmd/entropy-server/internal/drbg/drbg.go:284-310 | In every run every byte handed out, direct, one-shot, connection or seed, is the keystream byte of its instance's key at the ledger's position |
| ReseedStreams.ChildKeysAreDerived | cmd/entropy-server/internal/drbg/drbg.go:160-175 | In every run every key a connection's or one-shot child ever had is bytes 0-31 and 32-47 of the digest of its previous key, if any, and 64 keystream bytes of one parent key that the ledger handed out for that child and key |
| ReseedStreams.SeedsServeOneKey | cmd/entropy-server/internal/drbg/connection.go:75-85 | In every run the seeds of any two child keys, of one child or of two, come from disjoint stretches of the parent's streams |
| ReseedStreams.KeysInUseAreNamed | cmd/entropy-server/entropy-server.go:738 | In every reachable state the parent, each connection's child and each one-shot child use the last key recorded for them, and a one-shot child's is the digest of its own 64-byte seed |
| ReseedFreshness.InstallIs | cmd/entropy-server/internal/drbg/drbg.go:190-235 | Under the lock: a reseed of an open parent with at least 32 bytes installs the digest of old key and seed before the epoch moves, any other gives the lock back and changes nothing |
| ReseedFreshness.ParentKeysAreDerived | cmd/entropy-server/internal/drbg/drbg.go:197-235 | In every run each parent key but the first is the digest of the key before it and the bytes some reseed of the run was called with |
| ReseedFreshness.LaterReadsAreFresh | cmd/entropy-server/internal/drbg/connection.go:42-72 | After any past and whatever follows, a read that has not begun is served under the parent's newest key or a later one; only while a reseed that installed its key has not returned may it be the key before |
| ReseedFreshness.SoloReseedIsReseed | cmd/entropy-server/internal/drbg/drbg.go:185-238 | Without interference the steps of a reseed leave the parent of the sequential reseed and nothing else changed but the record of keys |
| ReseedFreshness.ClosedForEver | cmd/entropy-server/internal/drbg/connection.go:88-98 | A closed connection stays closed through any interleaving, is served nothing, and answers every later read as closed |
| ReseedFreshness.ParentClosedForEver | cmd/entropy-server/internal/drbg/drbg.go:246-266 | Once the parent is closed no reseed gives it a key and no interleaving hands out another byte of its streams |
| InstanceCount.StepKeepsInv | cmd/entropy-server/internal/drbg/drbg.go:139-157 | Every step of concurrent constructors and closers keeps the counting invariant |
| InstanceCount.RunKeepsInv | cmd/entropy-server/internal/drbg/drbg.go:139-157 | The counting invariant holds after every interleaving |
| InstanceCount.ActiveCountsOpenInstances | cmd/entropy-server/internal/drbg/drbg.go:246-266 | In every run the gauge is the number of instances counted and not yet closed |
| InstanceCount.PeakIsHighWater | cmd/entropy-server/internal/drbg/drbg.go:139-146 | The published peak never exceeds the true high-water mark and equals it when no constructor is in its loop |
| InstanceCount.RetriesAreBounded | cmd/entropy-server/internal/drbg/drbg.go:141-146 | A failed swap shortens the distance to go, so each constructor's loop has a decreasing measure |
| InstanceCount.ReleasedOnce | cmd/entropy-server/internal/drbg/drbg.go:250-263 | A closed instance stays closed and closing it again changes nothing |
| InstanceCount.CloseGivesBackOne | cmd/entropy-server/internal/drbg/drbg.go:246-266 | Closing a usable instance takes exactly it out of the count and leaves the peak |
| InstanceCount.SoloIsRegister | cmd/entropy-server/internal/drbg/drbg.go:139-146 | The steps of one constructor, taken together, are that registration |
| ReseedRuns.FailureKeepsKey | cmd/entropy-server/internal/drbg/drbg.go:322-334 | A failed attempt changes only the failure count and the last error: not key, stream, budget or epoch |
| ReseedRuns.AttemptIs | cmd/entropy-server/entropy-server.go:336-350 | Over any attempts: a supplied open generator's key becomes the digest of its old key and the size source bytes from the attempt's start, a failed attempt notes its own error and keeps the key, and others are not touched |
| ReseedRuns.TickAttempts | cmd/entropy-server/entropy-server.go:315-334 | Turn i of a whole tick fails exactly if a source call up to its own stopped short, and else starts at i times the size behind the tick's start |
| ReseedRuns.TurnGoesAhead | cmd/entropy-server/entropy-server.go:316-338 | A turn goes ahead exactly if cancellation comes after the two polls of every turn up to and including it |
| ReseedRuns.EachAttemptCountsOnce | cmd/entropy-server/entropy-server.go:315-351 | Over any attempts each one counts once, as a success of an open supplied generator or else as a failure |
| ReseedRuns.CompleteTickReachesAll | cmd/entropy-server/entropy-server.go:315-334 | A completed tick makes as many attempts at a generator as the list names it |
| ReseedRuns.TickCountsOnce | cmd/entropy-server/entropy-server.go:315-351 | A whole tick, whatever its source calls do, raises successes and failures together by exactly that |
| ReseedRuns.SegmentsAreDisjoint | cmd/entropy-server/entropy-server.go:310-353 | Over a whole run no two successes, of whatever ticks and generators, share a source byte: each segment lies behind all earlier ones |
| ReseedRuns.TickOrdered | cmd/entropy-server/entropy-server.go:315-334 | The segments of a tick are consecutive between where the tick found the source and where it leaves it |
| ReseedRuns.TicksReachAll | cmd/entropy-server/entropy-server.go:310-353 | n whole ticks make n times as many attempts at a generator as the list names it |
| ReseedRuns.RunCountsOnce | cmd/entropy-server/entropy-server.go:310-353 | Over a whole run a generator's successes and failures together rise by the whole ticks times its multiplicity, plus its turns before the cut of a cancelled tick; without cancellation every scheduled tick is whole |
| ReseedRuns.SuccessesAreShared | cmd/entropy-server/entropy-server.go:350 | The global count of any attempts is the sum of the distinct open generators' successes |
| ReseedLoop.GlobalCountIsSum | cmd/entropy-server/entropy-server.go:340-350 | The global count is the sum of what the listed generators' own reseed counters rose by |
| ReseedLoop.ByteSource.ReadFull | cmd/entropy-server/entropy-server.go:320-321 | A full buffer is the next contiguous segment of the source; a short read is an error |
| ReseedLoop.RecordPending | cmd/entropy-server/entropy-server.go:329-333 | A source failure is charged once to each generator of the remaining suffix |
| ReseedLoop.Refresh | cmd/entropy-server/entropy-server.go:316-350 | One turn: cut off exactly when one of its two polls sees cancellation, failed exactly by a short source call; else an open generator's key is the digest of its old key and exactly the source's next bytes, the buffer is wiped afterwards and the global count rises by one, and a closed one notes the failure |
| ReseedLoop.RefreshListed | cmd/entropy-server/entropy-server.go:315-350 | Seen from the whole list, only that generator has one more attempt behind it |
| ReseedLoop.Tick | cmd/entropy-server/entropy-server.go:314-351 | A tick completes exactly if cancellation lets all its calls through; then it supplies consecutive segments up to the first short call, fails exactly the rest, leaves the source where those calls end and the buffer zero; a cut one makes exactly the turns before the cut |
| ReseedLoop.KeepTicking | cmd/entropy-server/entropy-server.go:310-353 | The select loop performs as many whole ticks as the schedule fires before cancellation, each from where the last left the source |
| ReseedLoop.Run | cmd/entropy-server/entropy-server.go:292-354 | For every schedule, source and cancellation point the attempts are exactly those of the run they determine, tick after tick; each generator is where its own attempts lead, the global count is the sum of the generators' rises, and a bad buffer size is charged to all before a byte is read |
| FrameLeases.FrameLease.Release | cmd/entropy-client/internal/client/stream_buffer.go:20-29 | The first release puts the buffer at the pool's end if that holds fewer than three, every later one does nothing |
| FrameLeases.ReadStreamFrame | cmd/entropy-client/internal/client/stream_buffer.go:56-103 | A sized frame is exactly one whole binary message in a pooled or new buffer, an unsized one a whole binary message in a buffer of its own; which error a failed read has depends on kind, length and clean end as listed, and a leased buffer is given back |
| FramePool.StepKeepsInv | cmd/entropy-client/internal/client/websockets.go:52-84 | Every step of producer and consumer keeps ownership, lease, data and capacity invariants |
| FramePool.RunKeepsInv | cmd/entropy-client/internal/client/websockets.go:52-84 | The pipeline invariant holds after every interleaving, for every consumer limit |
| FramePool.BuffersHaveOneOwner | cmd/entropy-client/internal/client/websockets.go:50-53 | In every run each buffer made is in exactly one place |
| FramePool.DeliveredDataIsStable | cmd/entropy-client/internal/client/websockets.go:50-53 | A queued or received frame keeps the payload it was completed with until it is released, and no frame with the consumer has a released lease |
| FramePool.FramesArriveInOrder | cmd/entropy-client/internal/client/websockets.go:50-84 | In every run the payloads the consumer takes, followed by the queued one, are exactly those the producer sent, in order: none is lost, repeated or overtaken |
| FramePool.ReleaseIsIdempotent | cmd/entropy-client/internal/client/websockets.go:23-27 | Releasing again, from any copy of the frame, changes nothing |
| FramePool.AllocationBound | cmd/entropy-client/internal/client/stream_buffer.go:75-80 | At most limit + 2 buffers are made besides replacements for dropped ones |
| FramePool.DropsExactlyAboveOne | cmd/entropy-client/internal/client/stream_buffer.go:22-25 | The drop branch is unreachable exactly for consumers holding at most one frame, and then at most three buffers are ever made |
| FramePool.ThreeBuffersAreUsed | cmd/entropy-client/internal/client/websockets.go:52-53 | Three is tight: some run of such a consumer makes three |
| FramePool.DroppingRun | cmd/entropy-client/internal/client/stream_buffer.go:22-25 | For every larger limit there is a run that drops a buffer |
| FrameStream.Receive | cmd/entropy-client/internal/client/websockets.go:60-67 | One sized read of the producer loop is the machine's acquire, fill and complete, or its failing steps: same pool, same buffer, same payload |
| FrameStream.GiveUp | cmd/entropy-client/internal/client/websockets.go:76-82 | Releasing a frame on a cancelled hand-over is the machine's cancelled send |
| FrameStream.ReleaseFrame | cmd/entropy-client/internal/client/stream_buffer.go:20-29 | Releasing through any copy of a frame is one release of the machine, the first time and every later time |
| Admission.Conservation | cmd/entropy-server/http_budget.go:66-103 | Over every run active is the number of open leases, reserved the sum of their sizes, both within limits, and admissions plus the three rejection counts are the attempts |
| Admission.DecisionFollowsLeases | cmd/entropy-server/http_budget.go:70-86 | The counters admit exactly what the open leases themselves leave room for |
| Admission.PeaksAreRunningMaxima | cmd/entropy-server/http_budget.go:88-91 | The peaks are the maxima of the gauges over the run |
| Admission.LeasesFitMemory | cmd/entropy-server/http_budget.go:82-89 | k open leases of at least s bytes each satisfy k s <= maxMemory |
| Admission.ReturnUndoesRequest | cmd/entropy-server/http_budget.go:88-102 | Returning a lease restores both gauges, and returning it twice is returning it once |
| Admission.HttpRequestBudget.TryReserve | cmd/entropy-server/http_budget.go:66-103 | 413, 503 or 0 by size, open requests and memory; exactly one of the three rejection counts rises on a refusal, gauges and peaks on a grant; counters and granted leases together make one step of the abstract machine |
| Admission.HttpRequestBudget.Admit | cmd/entropy-server/http_budget.go:45-64 | A cancelled request is refused without being counted |
| Admission.HttpLease.Release | cmd/entropy-server/http_budget.go:93-102 | One return step of the machine the budget and its leases amount to: only the first call gives anything back |
| Admission.WebSocketBudget.Reserve | cmd/entropy-server/ws_budget.go:77-98 | The switch under the lock: 413, 503 or 0, the one counter that rises, and the gauges and peaks of a grant |
| Admission.WebSocketBudget.Admit | cmd/entropy-server/ws_budget.go:70-120 | The WebSocket switch and its lease objects make the same steps of the same machine |
| Admission.WebSocketLease.Release | cmd/entropy-server/ws_budget.go:110-119 | One return step of that machine: only the first call gives anything back |
| Reservations.GuardIsExact | cmd/entropy-server/http_budget.go:38-40 | The comparison with a quotient lets through exactly the products that fit |
| Reservations.ReservationsAreExactOrSaturated | cmd/entropy-server/http_budget.go:37-43 | For every int64 input a reservation is 65536 + quantity x perItem when that fits and saturates otherwise; nothing wraps |
| Reservations.FrameReservations | cmd/entropy-server/ws_budget.go:51-68 | For every int64 quantity q a raw frame reserves 65536 + q and a JSON frame 65536 + 16 q, or the largest int64 if q is not positive or that does not fit |
| Reservations.WsByteReservationGrows | cmd/entropy-server/ws_budget.go:51-58 | Byte reservations grow with the size, and JSON never reserves less than raw bytes |
| Reservations.Config.ValidateTiming | cmd/entropy-server/internal/config/config.go:141-162 | Accepts exactly the five intervals inside their bounds in milliseconds and names one that is not |
| Reservations.Config.Validate | cmd/entropy-server/internal/config/config.go:166-208 | Accepts exactly the configurations within the listed bounds, names a bound that is violated, and resolves a zero readiness age, changing nothing else |
| Reservations.BudgetBytesFit | cmd/entropy-server/internal/config/config.go:191-197 | A validated MiB budget converts to bytes without wrapping and stays below the saturated reservation |
| Reservations.SaturatedIsTooLarge | cmd/entropy-server/entropy-server.go:1326-1328 | In any state of a validated budget a saturated reservation is refused as too large, and others exactly when they exceed it |
| Reservations.NewBudgets | cmd/entropy-server/entropy-server.go:1326-1328 | Both budgets of an acceptable configuration start with exactly the configured bytes, not wrapped |
| Reservations.ValidatedBudgets | cmd/entropy-server/entropy-server.go:1326-1328 | From an acceptable configuration, after any run of either budget, saturated reservations are refused as too large, others exactly when they exceed its memory, and k open leases of s bytes satisfy k s <= that memory |
| Reservations.OpenFramesFit | cmd/entropy-server/ws_budget.go:51-68 | From an acceptable configuration, after any run, k open JSON frames of q bytes satisfy k (65536 + 16 q) <= memory, and k raw ones k (65536 + q) <= memory |
| Lifecycle.StepKeepsInv | cmd/entropy-server/lifecycle.go:33-79 | Every step of handlers and Shutdown calls keeps the drain invariant |
| Lifecycle.RunKeepsInv | cmd/entropy-server/lifecycle.go:33-79 | The drain invariant holds after every interleaving |
| Lifecycle.WaitBeginsAfterStopping | cmd/entropy-server/lifecycle.go:55-71 | The wait begins only after admission was closed, and every later decision refuses |
| Lifecycle.DecisionIs | cmd/entropy-server/lifecycle.go:34-45 | The locked decision registers a handler if and only if no Shutdown has closed admission |
| Lifecycle.RefusedForEver | cmd/entropy-server/lifecycle.go:33-58 | Once any Shutdown is past setting the flag, a request that was not let in by then never is, in any continuation |
| Lifecycle.DoneClosedOnce | cmd/entropy-server/lifecycle.go:66-71 | However many Shutdown calls there are, done is closed at most once |
| Lifecycle.DrainedForEver | cmd/entropy-server/lifecycle.go:33-49 | Once done is closed no handler is registered or running, now or after any further steps |
| Lifecycle.CleanReturnMeansDrained | cmd/entropy-server/lifecycle.go:73-78 | A Shutdown that returns through done returns to a stopped, cancelled, drained server |
| Lifecycle.WaitersCanFinish | cmd/entropy-server/lifecycle.go:66-75 | A waiting Shutdown never lacks a waiter: with the handlers gone some finishing step is enabled |
| Lifecycle.LeaveNeverUnderflows | cmd/entropy-server/lifecycle.go:42-45 | The handler count is positive whenever a handler leaves |
| SerialCorrelation.CentredSums | cmd/entropy-client/internal/diag/diag.go:162-176 | Centred squares and neighbour products expand into the running sums, the count and the two ends |
| SerialCorrelation.FormulasRelate | cmd/entropy-client/internal/diag/diag.go:157-181 | Equal denominators, and batch numerator = streaming numerator + mean (first + last - mean), for every input |
| SerialCorrelation.QuotientsAgreeExactlyWhen | cmd/entropy-client/internal/stats/stream.go:138-150 | The two unclamped quotients agree if and only if the mean is zero or the ends add up to the mean |
| SerialCorrelation.ProductsStrictlyBelowSquares | cmd/entropy-client/internal/diag/diag.go:169-176 | Neighbour products stay strictly inside the squares unless every sample is zero |
| SerialCorrelation.BatchStaysInside | cmd/entropy-client/internal/diag/diag.go:181-190 | The batch quotient is strictly between -1 and 1 whenever it is formed |
| SerialCorrelation.StreamStaysBelowOne | cmd/entropy-client/internal/stats/stream.go:150-158 | The streaming quotient is below 1, and its lower clamp is taken exactly when n times the squares of the n + 1 neighbour sums stay within the square of their total |
| SerialCorrelation.NeighbourSquaresAre | cmd/entropy-client/internal/stats/stream.go:60-67 | The squares of the neighbour sums are twice the running products and squares together |
| SerialCorrelation.ClampedExample | cmd/entropy-client/internal/stats/stream.go:156-158 | The two formulas on samples 1, 0, 0, 1: -1 and -1/4 |
| SerialCorrelation.MeanOf | cmd/entropy-client/internal/diag/diag.go:157-162 | The first loop computes the mean |
| SerialCorrelation.CentredLoop | cmd/entropy-client/internal/diag/diag.go:164-176 | The second loop computes the centred products and squares, the last square included |
| SerialCorrelation.BatchCorrelation | cmd/entropy-client/internal/diag/diag.go:151-190 | The batch result: the clamped quotient or zero, where the clamp never changes it, strictly between -1 and 1 |
| CorrelationAgreement.ResultsAgreeExactlyWhen | cmd/entropy-client/internal/stats/stream.go:132-158 | For every input, with thresholds and clamps, the values returned by the two programs are equal if and only if: fewer than three bytes, or all equal, or at least four and, unclamped, the ends reach the mean or, clamped, the batch value is the clamp |
| CorrelationAgreement.ConstantExactlyWhen | cmd/entropy-client/internal/diag/diag.go:174-179 | The denominator is zero if and only if all bytes are equal |
| CorrelationAgreement.ThreeNeverCancel | cmd/entropy-client/internal/stats/stream.go:133-136 | Three bytes that differ have a nonzero streaming value, and the batch code returns zero for them |
| CorrelationAgreement.EndsReachMeanIs | cmd/entropy-client/internal/stats/stream.go:143-150 | Unclamped values of varying bytes agree if and only if n (first + last) is the sum |
| CorrelationAgreement.MeetsClampIs | cmd/entropy-client/internal/diag/diag.go:181-190 | The batch value is -999999/1000000 if and only if an equation on the sums holds |
| CorrelationAgreement.BatchStaysAbove | cmd/entropy-client/internal/diag/diag.go:181-190 | For n samples the batch quotient is at least -1 + 1/(n (n + 1)) |
| CorrelationAgreement.ClampNeedsLength | cmd/entropy-client/internal/diag/diag.go:181-190 | Below a thousand bytes the batch value is never -999999/1000000 |
| CorrelationAgreement.ShortResultsAgreeExactlyWhen | cmd/entropy-client/internal/stats/stream.go:132-158 | Below a thousand bytes a clamped streaming value never agrees, and otherwise the ends decide |
| CorrelationAgreement.ThresholdExample | cmd/entropy-client/internal/diag/diag.go:153-155 | Bytes 1, 2, 0: -1/2 from the stream, 0 from the batch |
| CorrelationAgreement.ClampExample | cmd/entropy-client/internal/stats/stream.go:156-158 | Bytes 1, 0, 0, 1: the clamp from the stream, -1/4 from the batch |
| CorrelationAgreement.CoincidenceExample | cmd/entropy-client/internal/stats/stream.go:156-158 | 0 and 2 repeated 500000 times: clamped, ends off the mean, and both values -0.999999 |
| StreamStatistics.StreamTester.Add | cmd/entropy-client/internal/stats/stream.go:47-74 | After any chunk all fields are those of the whole input so far |
| StreamStatistics.StreamTester.AddByte | cmd/entropy-client/internal/stats/stream.go:54-71 | One byte moves histogram, bit count and sums to those of the longer input |
| StreamStatistics.StreamTester.ComputeSerial | cmd/entropy-client/internal/stats/stream.go:132-158 | The streaming correlation of all bytes seen, threshold and clamps included |
| StreamStatistics.AddAll | cmd/entropy-client/internal/stats/stream.go:47-74 | Any chunks fed one by one leave the fields of their concatenation |
| StreamStatistics.StateIsDetermined | cmd/entropy-client/internal/stats/stream.go:22-38 | Two testers that saw the same bytes agree on every field, however the bytes were cut |
| StreamStatistics.OnesAreDigits | cmd/entropy-client/internal/stats/stream.go:57 | The bits counted for a byte are the sum of its eight binary digits |
| StreamStatistics.RunFromReader | cmd/entropy-client/internal/stats/stream.go:188-226 | The outcome, and exactly the periodic and final reports, for every sequence of reads, errors and cancellation |
| StreamStatistics.ChunksAre | cmd/entropy-client/internal/stats/stream.go:197-225 | Every read up to the one that ends the loop is taken, and that one's bytes too; a cancelled poll takes nothing more; each end has its outcome |
| StreamStatistics.WatchIs | cmd/entropy-client/internal/stats/stream.go:192-213 | A read is reported exactly if it brought bytes and the total has reached the first threshold plus one interval per earlier report; the report carries the total and correlation of everything up to that read |
| StreamStatistics.WatchKeepsPace | cmd/entropy-client/internal/stats/stream.go:203-210 | While no chunk exceeds the interval, n reports mean n interval <= total < (n + 1) interval |
| StreamStatistics.OnePerIntervalExactlyWhen | cmd/entropy-client/internal/stats/stream.go:186-210 | floor(total / interval) periodic callbacks for every reader if and only if chunkSize <= interval |
| StreamStatistics.FullChunksFallBehind | cmd/entropy-client/internal/stats/stream.go:203-210 | At most one report per read, so longer chunks fall behind |
| UploadAnalysis.AnalyzeRead | cmd/entropy-server/upload.go:127-141 | One read moves totals, histogram, set bits and preview to those of the longer input |
| UploadAnalysis.AnalyzeUpload | cmd/entropy-server/upload.go:111-166 | Each error in its own case; otherwise the result describes the concatenation: analysed = min(total, limit), preview = first min(2048, analysed), ones + zeros = 8 analysed, digest of everything |
| UploadAnalysis.DescriptionIs | cmd/entropy-server/upload.go:121-166 | Field by field: total and digest of all bytes, histogram, set and unset bits of the first limit bytes, a preview of at most 2048 of those |
| UploadAnalysis.CuttingDoesNotMatter | cmd/entropy-server/upload.go:121-144 | Any two analyses of the same bytes are equal, however they were cut into reads |
| UploadAnalysis.HistogramSums | cmd/entropy-server/upload.go:133-136 | Counting by value and counting byte by byte give the same sum for every weight |
| UploadAnalysis.HistogramExplainsCounts | cmd/entropy-server/upload.go:133-155 | The histogram alone gives back the analysed length and the set bits, which are at most eight per byte, so the zeros never wrap |
| ActivityPeaks.StoredIsEarliestLatest | cmd/entropy-server/activity_peaks.go:41-49 | The stored observation is the earliest among those with the latest time: non-advancing ones never replace it |
| ActivityPeaks.IntervalsJoin | cmd/entropy-server/activity_peaks.go:41-66 | Accepted intervals advance, join end to start and lead up to the stored observation |
| ActivityPeaks.IntervalsGrow | cmd/entropy-server/activity_peaks.go:41-66 | An accepted interval stays in the list of every longer history |
| ActivityPeaks.RecordsEndIntervals | cmd/entropy-server/activity_peaks.go:41-66 | Two observations, each later than all before it, with no such one in between, delimit an interval of every longer history |
| ActivityPeaks.IntervalsLieBetweenRecords | cmd/entropy-server/activity_peaks.go:41-66 | Conversely every interval lies between two such observations |
| ActivityPeaks.PeaksNeverFall | cmd/entropy-server/activity_peaks.go:56 | Further intervals never lower a peak |
| ActivityPeaks.LongerNeverFalls | cmd/entropy-server/activity_peaks.go:56 | A longer history never has a lower peak |
| ActivityPeaks.PeakIsUnique | cmd/entropy-server/activity_peaks.go:56 | The accepted intervals determine each peak |
| ActivityPeaks.MonitorsAgree | cmd/entropy-server/activity_peaks.go:37-67 | Two monitors with the same history agree on every field |
| ActivityPeaks.IncreaseFits | cmd/entropy-server/activity_peaks.go:51-66 | A never-falling counter's whole increase fits under its peak rate times the whole time |
| ActivityPeaks.PeakBoundsAverage | cmd/entropy-server/activity_peaks.go:51-66 | If a counter never falls, its peak is at least its scaled average from first to last accepted observation |
| ActivityPeaks.PeaksCoverHistory | cmd/entropy-server/activity_peaks.go:45-64 | After any history each of the five peaks is at least the rate, per second or per minute, between any two neighbouring stored observations whose counter did not fall |
| ActivityPeaks.ActivityPeakMonitor.Observe | cmd/entropy-server/activity_peaks.go:37-67 | Field by field: each peak becomes the larger of itself and the new interval's rate unless its counter fell, per second or per minute as listed; no peak falls, a non-advancing observation changes no field, and each peak is the maximum rate over the accepted intervals of the whole history |
| SeedMixer.WordIsItsBytes | cmd/entropy-server/internal/rdrand/rdrand.go:71-74 | The eight little-endian bytes taken by shifting are the whole word |
| SeedMixer.ByteIs | cmd/entropy-server/internal/rdrand/rdrand.go:71-74 | The byte after k shifts is word / 256^k mod 256, for each k below eight |
| SeedMixer.MixingIsAnInvolution | cmd/entropy-server/internal/rdrand/rdrand.go:71-74 | For fixed draws, mixing twice restores the source bytes |
| SeedMixer.MixingIsABijection | cmd/entropy-server/internal/rdrand/rdrand.go:55-74 | For fixed draws no two sources are merged and every result has a source |
| SeedMixer.FailureLeavesTheRest | cmd/entropy-server/internal/rdrand/rdrand.go:61-69 | From the first failed draw on the source bytes are untouched |
| SeedMixer.Mixer.Read | cmd/entropy-server/internal/rdrand/rdrand.go:57-78 | Byte i becomes source byte XOR byte i mod 8 of word i / 8 before the first failed draw, everything else is untouched, no draw follows a failure, and the callback has run at most once over all reads |

## Left out

- Generators.InstanceGauges.Register: speaks of a call that is not interfered with; constructors and closers running together are the subject of `InstanceCount`.
- ReseedLoop.Run: the schedule of ticker and cancellation signals is finite and no other goroutine uses the generators meanwhile; interleavings with readers are the subject of `ReseedProtocol`.
- ReseedLoop.ByteSource.ReadFull: a short read leaves the buffer's content open, as the `io.Reader` contract does.
- StreamStatistics.StreamTester.ComputeSerial: stops at r; the approximate p-value is floating-point analysis.
- StreamStatistics.RunFromReader: a report carries the total and r; entropy, chi-square and monobit values are left out with the p-values.
- UploadAnalysis.AnalyzeUpload: without the entropy, a floating-point logarithm, and without the hexadecimal form of the digest.
- ActivityPeaks.ActivityPeakMonitor.Observe: the clock is never before Go's zero time, monotonic readings are not told apart from wall time, and rates are exact.
- SeedMixer.Mixer.Read: the source's own read happens before; what it leaves in the buffer, its count and its error are inputs.
- Fft.Spectrum: exact real arithmetic instead of floating point; the power bars and their logarithms are left out.
- Fft.RenderSpectrum: exact real arithmetic; the plotting is left out.
- FrameStream.Receive: reads with a byte size only; a read without one leases nothing and does not touch the pool.
- FrameLeases.ReadStreamFrame: a whole message is one input value, and the data a failed unsized read returns beside its error is dropped.
- Cosine and sine are one function from turns to complex numbers of which only angle addition and the value at half a turn are used; the transform length is any power of two instead of 2048.
- Bit masks of the browser scripts are written as arithmetic on naturals.
- The ciphers, SHA-512 and SHA-256 themselves are library code and enter as parameters.
- Counters, the epoch and totals do not wrap at 2^64.
- Metadata, headers and reseed timestamps, and the erasure of key memory, which is no functional property.
- Sockets, HTTP and WebSocket handlers, TLS, devices, CPUID and the assembly of RDRAND.
- `computeHistogram`, the bit-count table, parsing of flags and queries, rendering and metrics text would only add easy members.
- Word sampling, whose rejection loop is in the standard library.
