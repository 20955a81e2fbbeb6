# KV-block residency pipeline

This project models the path of a KV block through SolidAttention and proves what the path promises. A
scheduler simulates moves between SSD, DRAM and VRAM; its timeline is compiled to an SSD-addressed movement
plan; the plan is exported as command lines; and three executors run the commands: a Python one, a C program
with a real backing file, and a C++ bridge inside llama.cpp. The bridge finally copies staged bytes into the
K and V tensors, and a gate tells attention which blocks are ready.

Code that changes state is modelled as classes and methods (`Bridge`, `Consumer`, `Scheduler`, `Residency`,
`SsdLayout`, `Prefetch`, `Selector`, `CommandParser`), each method proved against a function on values. The
theorems about whole runs are proved on those functions.

| modules | what they are about |
|---|---|
| `Kv`, `Blocks`, `Sorting`, `ByteCopies`, `ByteNumbers`, `Fnv`, `JsonText` | shared vocabulary and theory |
| `Timeline`, `Scheduler`, `SsdLayout`, `MovementPlan`, `Pipeline` | scheduler, SSD allocator, plan compiler, command validator |
| `JsonLine`, `CommandParser`, `CommandRoundTrip` | exported lines and the C field extractor |
| `Ledger`, `Residency`, `BufferContents`, `RuntimeCounters`, `ConsumerModel`, `ConsumerSafety`, `ConsumerLedger`, `ConsumerCounters`, `Patterns`, `Consumer` | the Python and C executors |
| `TensorLayout`, `TensorGate`, `ByteRanges`, `Overlap` | staging bytes and K/V tensors |
| `BridgeModel`, `StagingBooks`, `LayerLaws`, `GateCounters`, `GateSoundness`, `ShadowChains`, `GateCompleteness`, `BridgeLedger`, `BridgeCounters`, `Checksums`, `Bridge` | the llama.cpp bridge |
| `Prefetch`, `Selector`, `Intents` | prefetching, selection, exported movement intents |
| `Agreement`, `Guarantees`, `OverlapExample`, `RefusalExample` | the executors compared, the pipeline end to end, and two runs that show its limits |

What the proofs found:

- "Ready" at the attention gate says that a block was marked, not that the tensor holds its bytes. The marked
  blocks of a layer are all in place if and only if the gate accepts each of them and the backing file has
  the same bytes for every two of their tokens that fall on one cell (`GateSoundness.MarkedInPlaceIff`; with
  a condition known before the run, `GateCompleteness.ServedInPlaceIff`). Disjoint cells are enough for the
  second part, and since the mutation gate uses the block id as the first cell (patch lines 1069-1070), the
  cells of a compiled stream are disjoint exactly when the ids leave room for the tokens
  (`Guarantees.CellsApartIff`). Blocks with consecutive ids and more than one token overlap; unless their
  bytes happen to agree, two blocks are reported ready of which one has been overwritten
  (`Guarantees.ReadyButLost`, and a concrete run in `OverlapExample.ReadyAndLost`).
- The mutation gate accepts exactly the blocks that fit the tensors: one K row and one equal V row per token, of
  the tensors' row size, inside the cache (`LayerLaws.VerdictExact`).
- The C consumer's verification tells two blocks apart only by one byte of a mixed word. Blocks that differ in
  their layer, block, start, end or offset alone are told apart exactly when the difference is not a multiple
  of 256 (`Patterns.OneApart`), so block 0 and block 256 of one offset have the same bytes.
- Zero refusal counters mean that every marked block was copied for blocks below 2^19 tokens
  (`GateSoundness.ZeroRefusalsMeanCopied`), and not in general: the counters have 32 bits and each refused
  block adds twice its cells past the cache, so the bounds count is zero exactly when that sum is a multiple
  of 2^32 (`GateSoundness.RefusalCounters`; a run in `RefusalExample.RefusedUnseen`).
- The bridge and the Python executor agree on evicts exactly when each of them finds a buffer: the bridge
  counts a missing source where Python seeds a buffer and drops it (`Agreement.EvictsAgreeIff`).
- The exporter prints `metadata`, which may repeat `size_bytes`, before the top-level `size_bytes`, so the C
  extractor reads the metadata's copy. The round trip holds because every compiled operation repeats its own
  size (`CommandRoundTrip.CompiledExportable`). Layer and block ids above 2^31 - 1 are cut, not refused.
- The C++ bounds count of a block agrees with the Python one exactly when the cache is not empty and the count
  fits 32 bits (`ByteRanges.BoundsAgree`).
- A prefetch plan for DRAM that is evaluated after its blocks were scheduled counts only misses, because the
  scheduler has moved them on to VRAM (`Prefetch.LateEvaluationMisses`).

Assumptions of the model: the allocator, the file and the backing read of each command are parameters
(`Env`, `Io`) that may fail at any point; blocks given to the scheduler and the prefetcher are the store's
own objects; block scores and the printed form of times are parameters; times are exact reals.

## Model

| member | source | states |
|---|---|---|
| `Guarantees.ConsumerEndToEnd` | core/movement_plan.py:194-259 | From any block set and residency: the plan is built, exported and, when its numbers fit the C types, loaded as the very same commands; the consumer then succeeds (unless the list is empty) without a verification error, reads exactly the blocks that started on SSD, seeds exactly the others, and leaves exactly the scheduled blocks in VRAM |
| `Guarantees.GateEndToEnd` | integrations/llama_cpp/patches/solidattention_kv_trace.patch:1876-1938 | For a compiled stream, cut to the table or not, without failing reads or allocations: once every block with a cell in the view has had its event, each gate call counts exactly these blocks as required and all of them as ready; the blocks of a layer that have had their event are all in place if and only if the gate accepts them and their backing bytes agree on shared cells; when the ids leave room for the tokens, if and only if they fit the layer's tensors, a condition on sizes, shapes and cells |
| `Guarantees.PlainLayerInPlace` | integrations/llama_cpp/patches/solidattention_kv_trace.patch:1035-1175 | On a layer whose K and V tensors hold `ne0` elements of `el` bytes per cell, V transposed or not, and with ids that leave room: every block staged with those rows is in place once it has had its event |
| `Guarantees.CellsApartIff` | integrations/llama_cpp/patches/solidattention_kv_trace.patch:1069-1070 | The cells of a compiled stream are disjoint if and only if the block ids, which the gate uses as first cells, leave room for the tokens |
| `Guarantees.ReadyButLost` | integrations/llama_cpp/patches/solidattention_kv_trace.patch:1898-1918 | Two blocks that have had their event are reported ready whatever they hold; both are in place only if their bytes agree on shared cells, and exactly then when they are the only ones on the layer |
| `OverlapExample.ExampleReady` | integrations/llama_cpp/patches/solidattention_kv_trace.patch:1876-1938 | A concrete run with consecutive block ids of two tokens each: the gate reports two required blocks and both ready |
| `OverlapExample.ReadyAndLost` | integrations/llama_cpp/patches/solidattention_kv_trace.patch:1069-1070 | In that run the two blocks are not both in place |
| `RefusalExample.RefusedUnseen` | integrations/llama_cpp/patches/solidattention_kv_trace.patch:1077-1083 | A concrete run in which two blocks are refused for 2^30 cells past the cache each: every refusal counter reads zero, no block was copied, and the gate reports both required blocks ready |
| `Agreement.ConsumerAgreesWithPython` | io/runtime_kv_command_consumer.c:510-567 | On every consistent evict-free stream with disjoint ranges the C consumer and the seeding Python executor agree on reads, copies, computes and lazy seeds, in number and bytes, and on the blocks in DRAM and VRAM, with no error on either side |
| `Agreement.BridgeAgreesWithPython` | integrations/llama_cpp/patches/solidattention_kv_trace.patch:1376-1465 | After any events on an evict-free list, replaying the commands the bridge executed in the Python executor reproduces the bridge's counters and resident blocks |
| `Agreement.BuffersAgree` | integrations/llama_cpp/patches/solidattention_kv_trace.patch:1376-1484 | Evicts included, the bridge and the Python executor hold the same buffers for every block, with the same bytes |
| `Agreement.BridgeAgreesWithConsumer` | integrations/llama_cpp/patches/solidattention_kv_trace.patch:1416-1465 | The same for the C consumer |
| `Agreement.EvictsAgreeIff` | harness/runtime_residency_executor.py:189-202 | With evicts in the stream the bridge and the Python executor end with the same resident blocks; their counts agree, with no fault on the bridge, if and only if every executed evict finds a buffer: the bridge counts the others as missing sources, Python as seeds and evicts |
| `GateSoundness.RunIsSound` | integrations/llama_cpp/patches/solidattention_kv_trace.patch:1940-2056 | Over every run, with failures, reloads and evictions anywhere: buffers hold only backing bytes, the copied blocks of each layer are all in the tensors if and only if they agree on the cells they share, the counters are the counts of the marked blocks, and no verification error is ever counted |
| `GateSoundness.MarkedInPlaceIff` | integrations/llama_cpp/patches/solidattention_kv_trace.patch:1035-1175 | After any run the marked blocks of a layer are all in place if and only if the gate accepts each of them and they agree pairwise: a condition on commands, backing file and tensor shapes |
| `GateSoundness.ReadyMeansInPlace` | integrations/llama_cpp/patches/solidattention_kv_trace.patch:1035-1175 | On a layer whose accepted blocks agree, a block the gate reports ready has every row in the tensors if and only if the gate accepts it |
| `LayerLaws.CellsApartFit` | integrations/llama_cpp/patches/solidattention_kv_trace.patch:1069-1070 | Blocks on disjoint cells agree, whatever the backing file holds |
| `LayerLaws.VerdictExact` | integrations/llama_cpp/patches/solidattention_kv_trace.patch:1054-1112 | The gate accepts a staged block if and only if it fits the tensors: both present, one K row and one equal V row per token, of the tensors' row size in either V layout, and its cells inside the cache |
| `TensorGate.PlainTensorsFit` | integrations/llama_cpp/patches/solidattention_kv_trace.patch:1092-1112 | Tensors of `ne0` elements of `el` bytes per cell take every block staged with their rows inside the cache, in both V layouts |
| `LayerLaws.InPlaceBytes` | integrations/llama_cpp/patches/solidattention_kv_trace.patch:1121-1133 | A block in place, byte by byte from the backing file: the K and V rows of token `t` are `size / (2 * tokens)` bytes at cell `block + t` |
| `LayerLaws.InPlaceElements` | integrations/llama_cpp/patches/solidattention_kv_trace.patch:1137-1146 | The same for the elements of a transposed V tensor |
| `LayerLaws.CopyKeepsLaw` | integrations/llama_cpp/patches/solidattention_kv_trace.patch:1121-1147 | Copying one more block keeps the law of its layer: in place if and only if in agreement |
| `GateSoundness.RefusalCounters` | integrations/llama_cpp/patches/solidattention_kv_trace.patch:1054-1112 | Exactly when each refusal counter is zero: no marked block unsupported, none of the wrong size, and for bounds a number of ranges past the cache that is a multiple of 2^32; every attempt copied if and only if none was refused |
| `GateSoundness.ZeroRefusalsMeanCopied` | integrations/llama_cpp/patches/solidattention_kv_trace.patch:1054-1112 | For blocks below 2^19 tokens: a zero bounds count means exactly that no marked block was refused for its bounds, and three zero counts exactly that every attempt copied |
| `GateSoundness.VolumeCounters` | integrations/llama_cpp/patches/solidattention_kv_trace.patch:1150-1157 | Over every run with failures: attempts are the marked blocks; each copied block counts two ranges per token, half of its bytes as K and half as V bytes, and four checksums; both combined checksums are the xor of the copied blocks' checksums in the backing file |
| `GateCompleteness.GateCounts` | integrations/llama_cpp/patches/solidattention_kv_trace.patch:1898-1918 | required = ready + missing + pending, each the number of distinct block keys of that kind; for valid commands the required keys are exactly those of the commands to VRAM whose block has a cell in the view |
| `GateCompleteness.RequiredAreNeeded` | integrations/llama_cpp/patches/solidattention_kv_trace.patch:1768-1787 | The gate's comparison of block id, token interval and view size means that a cell of the block is a cell of the view |
| `GateCompleteness.ServedAreReached` | integrations/llama_cpp/patches/solidattention_kv_trace.patch:631-640 | The match test of an event means that the command's block and the event share a token; the blocks that have had their event are exactly those that share a token with one |
| `GateCompleteness.GateCompletes` | integrations/llama_cpp/patches/solidattention_kv_trace.patch:1876-1938 | On an evict-free stream without failures, once each required block has had an event, nothing is missing or pending on any later call |
| `GateCompleteness.MarkedAreServed` | integrations/llama_cpp/patches/solidattention_kv_trace.patch:2006-2011 | On such a stream exactly the blocks that have had their event are marked |
| `GateCompleteness.ServedInPlaceIff` | integrations/llama_cpp/patches/solidattention_kv_trace.patch:1940-2056 | The exact law with a condition known before the run: the blocks that have had their event are all in place if and only if they are accepted and agree on shared cells |
| `GateCompleteness.StagingHasRoom` | integrations/llama_cpp/patches/solidattention_kv_trace.patch:720-744 | A list of at most 4096 commands never overflows the staging table |
| `ShadowChains.EventMismatches` | integrations/llama_cpp/patches/solidattention_kv_trace.patch:1962-2005 | The number of source mismatches one event adds is exactly the number of breaks in the chain of its matched commands |
| `ShadowChains.NoMismatchEver` | integrations/llama_cpp/patches/solidattention_kv_trace.patch:519-578 | Lists whose matched chains are unbroken show no mismatch over any run; transitions = matches = matched; the tier counts sum to the record count |
| `BridgeCounters.RunCounted` | integrations/llama_cpp/patches/solidattention_kv_trace.patch:1962-2054 | Over every run: events, unmatched events and matched commands are counted once each, transitions = matches + mismatches = matched, and each tier count is the number of records on that tier |
| `BridgeCounters.RunWorks` | integrations/llama_cpp/patches/solidattention_kv_trace.patch:1416-1508 | Over every run with failures: each read intent is one attempt that succeeds or counts one read error, other intents succeed at most once each, and nothing is seeded when seeding is off |
| `BridgeCounters.RunWeighed` | integrations/llama_cpp/patches/solidattention_kv_trace.patch:1416-1508 | When all commands have one size, with failures anywhere, every byte counter is that size times its count |
| `BridgeCounters.RunSwitchedOff` | integrations/llama_cpp/patches/solidattention_kv_trace.patch:1035-1047 | Without the executor nothing is staged or counted; without the executor or the gate no tensor changes |
| `Pipeline.CompiledNeverMismatches` | integrations/llama_cpp/patches/solidattention_kv_trace.patch:491-578 | The same for every scheduler-derived list, cut to its first 4096 commands or not |
| `BridgeLedger.BridgeKeepsLedger` | integrations/llama_cpp/patches/solidattention_kv_trace.patch:1416-1465 | Without evicts, the staging executor keeps the common ledger of the commands its events executed, with no fault counted |
| `BridgeLedger.BridgeKeepsAccount` | integrations/llama_cpp/patches/solidattention_kv_trace.patch:1467-1508 | With evicts it keeps the account of what was executed, and the only faults it counts are the evicts that found no buffer |
| `Overlap.BlockSurvivesIff` | integrations/llama_cpp/patches/solidattention_kv_trace.patch:1121-1147 | A copied block survives the copy of another block of the layer if and only if they have the same bytes for every token on a shared cell, in both V layouts |
| `Overlap.SharedAgreeIff` | integrations/llama_cpp/patches/solidattention_kv_trace.patch:1121-1147 | Two blocks bring the same bytes to every tensor slot that both fill, row or transposed element, if and only if their tokens on shared cells are equal |
| `Overlap.BothLandedAgree` | integrations/llama_cpp/patches/solidattention_kv_trace.patch:1121-1147 | Two blocks are both in place only if they agree on shared cells |
| `Bridge.CommandBridge.FindOrCreateShadowRecord` | integrations/llama_cpp/patches/solidattention_kv_trace.patch:519-546 | Returns the first record of the key, appends one, or gives up on a full table; other records unchanged |
| `Bridge.CommandBridge.ResetShadowRecord` | integrations/llama_cpp/patches/solidattention_kv_trace.patch:548-560 | Sets the event's record to its first command's source |
| `Bridge.CommandBridge.RefreshShadowCounts` | integrations/llama_cpp/patches/solidattention_kv_trace.patch:562-578 | The three tier counts are those of the table |
| `Bridge.CommandBridge.ShadowTransition` | integrations/llama_cpp/patches/solidattention_kv_trace.patch:1983-2005 | One matched command moves the record and counts a match or a mismatch |
| `Bridge.CommandBridge.FindOrCreateStagingRecord` | integrations/llama_cpp/patches/solidattention_kv_trace.patch:720-744 | Finds by key, refuses a different size, appends, or counts an overflow |
| `Bridge.CommandBridge.AllocAndReadBacking` | integrations/llama_cpp/patches/solidattention_kv_trace.patch:1298-1339 | Each failure, of size, allocation, opening, seeking, the liburing backend or length, adds to its own counter; success returns the file's bytes of the range |
| `Bridge.CommandBridge.AssignDramBuffer` | integrations/llama_cpp/patches/solidattention_kv_trace.patch:1341-1356 | Replaces the block's DRAM buffer and resolves its row sizes once |
| `Bridge.CommandBridge.AssignVramBuffer` | integrations/llama_cpp/patches/solidattention_kv_trace.patch:1358-1374 | The same for VRAM |
| `Bridge.CommandBridge.EnsureDramSource` | integrations/llama_cpp/patches/solidattention_kv_trace.patch:1376-1394 | Uses the resident buffer, seeds a missing one when allowed, or counts a missing source |
| `Bridge.CommandBridge.EnsureVramSource` | integrations/llama_cpp/patches/solidattention_kv_trace.patch:1396-1414 | The same for VRAM |
| `Bridge.CommandBridge.ExecuteSsdReadIntent` | integrations/llama_cpp/patches/solidattention_kv_trace.patch:1416-1429 | The whole new table and counters of a read intent, for every outcome of allocation and file |
| `Bridge.CommandBridge.ExecuteDramToVramIntent` | integrations/llama_cpp/patches/solidattention_kv_trace.patch:1431-1451 | The same for a DRAM to VRAM copy |
| `Bridge.CommandBridge.ExecuteComputeIntent` | integrations/llama_cpp/patches/solidattention_kv_trace.patch:1453-1465 | The same for a compute |
| `Bridge.CommandBridge.ExecuteEvictIntent` | integrations/llama_cpp/patches/solidattention_kv_trace.patch:1467-1484 | Frees VRAM before DRAM, or counts a missing source |
| `Bridge.CommandBridge.MutationGate` | integrations/llama_cpp/patches/solidattention_kv_trace.patch:1035-1175 | Marks a record once; a refused block changes one 32-bit counter, an accepted one the tensors; staging and read-back checksums are equal, so the error count never moves |
| `Bridge.CommandBridge.BridgeApply` | integrations/llama_cpp/patches/solidattention_kv_trace.patch:1940-2056 | One runtime event refines the event function on which the run theorems are proved |
| `Bridge.CommandBridge.CommandKeySeen` | integrations/llama_cpp/patches/solidattention_kv_trace.patch:1789-1807 | Whether an earlier overlapping command has the same block key |
| `Bridge.CommandBridge.AttentionResidencyGate` | integrations/llama_cpp/patches/solidattention_kv_trace.patch:1876-1938 | The gate's four counts are those of the counting function characterised by `GateCounts` |
| `TensorGate.CopyRows` | integrations/llama_cpp/patches/solidattention_kv_trace.patch:1121-1147 | The copy loop leaves the tensors as the specified scatter in both V layouts, and the two read-back folds equal the folds of the staging rows |
| `TensorGate.CopyElements` | integrations/llama_cpp/patches/solidattention_kv_trace.patch:1137-1146 | The transposed write of one V row, element by element, folds to the same checksum as the whole row |
| `TensorGate.StagingChecksum` | integrations/llama_cpp/patches/solidattention_kv_trace.patch:796-819 | The fold over the K rows or over the V rows of the staged block |
| `TensorGate.ScatterLands` | integrations/llama_cpp/patches/solidattention_kv_trace.patch:1121-1147 | After the scatter every K row and V row is in place |
| `TensorGate.LandedBytes` | integrations/llama_cpp/patches/solidattention_kv_trace.patch:1122-1133 | Byte by byte: row `cell` of K and row `cell` of a row-major V hold the staged token |
| `TensorGate.LandedElements` | integrations/llama_cpp/patches/solidattention_kv_trace.patch:1138-1141 | Byte by byte for a transposed V: element `j` at `(cell + j * cache) * el` |
| `TensorGate.ScatterKeepsOthers` | integrations/llama_cpp/patches/solidattention_kv_trace.patch:1121-1147 | Writing a block on disjoint cells leaves the other blocks of the layer in place |
| `ByteCopies.ApplyFrame` | integrations/llama_cpp/patches/solidattention_kv_trace.patch:1121-1147 | Bytes outside the written ranges are unchanged |
| `TensorLayout.ElementCopiesApart` | integrations/llama_cpp/patches/solidattention_kv_trace.patch:1140-1140 | No two transposed element writes of a block touch a common byte |
| `TensorLayout.KeyCopiesApart` | integrations/llama_cpp/patches/solidattention_kv_trace.patch:1125-1125 | No two row writes of a block touch a common byte |
| `Fnv.Update` | integrations/llama_cpp/patches/solidattention_kv_trace.patch:784-794 | The byte loop computes the fold |
| `Fnv.HashConcat` | integrations/llama_cpp/patches/solidattention_kv_trace.patch:784-794 | Folding chunk by chunk is folding the concatenation |
| `Checksums.OneByteChangesHash` | integrations/llama_cpp/patches/solidattention_kv_trace.patch:784-794 | Changing one byte of the data changes the fold |
| `Checksums.OneByteChangesChecksum` | integrations/llama_cpp/patches/solidattention_kv_trace.patch:796-819 | Changing any one byte of a staged block changes its checksum |
| `Checksums.HashExample` | integrations/llama_cpp/patches/solidattention_kv_trace.patch:784-794 | The fold of two given bytes |
| `ConsumerSafety.ConsumeIsSafe` | io/runtime_kv_command_consumer.c:459-581 | Whatever the allocator and the file do, seeding and execution report no verification error, buffers and seeded or evicted ranges hold their own block's pattern, and a non-empty run succeeds when the environment does |
| `ConsumerSafety.RunGood` | io/runtime_kv_command_consumer.c:639-647 | The same at every step of the command loop |
| `ConsumerSafety.SeedGood` | io/runtime_kv_command_consumer.c:459-496 | The same at every step of seeding: what was seeded stays right |
| `ConsumerSafety.WriteHolds` | io/runtime_kv_command_consumer.c:443-457 | Writing a block's pattern makes its range right and no other range wrong |
| `ConsumerLedger.ConsumerKeepsLedger` | io/runtime_kv_command_consumer.c:510-567 | On evict-free streams the consumer succeeds and keeps the common ledger |
| `Consumer.FillPattern` | io/runtime_kv_command_consumer.c:96-100 | The fill loop writes the block's pattern, which `OneApart` and `ExampleBytes` tell apart from other blocks' patterns |
| `Consumer.VerifyPattern` | io/runtime_kv_command_consumer.c:102-109 | True exactly when the buffer starts with the pattern; `ForeignVerifiesIff` says when another block's bytes pass |
| `Patterns.TagDecides` | io/runtime_kv_command_consumer.c:86-100 | Two patterns agree at every index or at none, as one byte computed from key and offset decides |
| `Patterns.OneApart` | io/runtime_kv_command_consumer.c:86-100 | Keys and offsets that differ in one component have patterns that differ at every index if and only if the difference is not a multiple of 256 |
| `Patterns.ForeignVerifiesIff` | io/runtime_kv_command_consumer.c:102-109 | A block of the same size verifies as another exactly when their deciding bytes are equal |
| `Patterns.OtherBlockFails` | io/runtime_kv_command_consumer.c:102-109 | A non-empty block with another block id, the ids not differing by a multiple of 256, fails the verification |
| `Patterns.ForeignReadFails` | io/runtime_kv_command_consumer.c:524-536 | A read from a file that holds such another block's pattern fails and counts one verification error |
| `Patterns.ExampleBytes` | io/runtime_kv_command_consumer.c:86-100 | The first pattern bytes of two given blocks are 18 and 163 |
| `ConsumerCounters.ConsumeCounts` | io/runtime_kv_command_consumer.c:459-581 | After a successful run each counter is a number of commands, every compute was verified, every evict written, and each distinct range that is read was seeded once |
| `ConsumerCounters.ConsumeWeighed` | io/runtime_kv_command_consumer.c:459-581 | When all commands have one size, whatever fails, every byte counter is that size times its count |
| `Consumer.KvConsumer.FindOrAddSlot` | io/runtime_kv_command_consumer.c:305-323 | The first slot of the block, or a new empty one |
| `Consumer.KvConsumer.EnsureBufferAt` | io/runtime_kv_command_consumer.c:345-360 | A missing buffer is filled with the pattern and counted; an existing one is kept |
| `Consumer.KvConsumer.AllocTargetAt` | io/runtime_kv_command_consumer.c:362-375 | A missing target is allocated with arbitrary contents; an existing one is kept |
| `Consumer.KvConsumer.SeedSsdReads` | io/runtime_kv_command_consumer.c:459-496 | The seeding loop writes each SSD source range once |
| `Consumer.KvConsumer.ExecuteCommand` | io/runtime_kv_command_consumer.c:510-581 | One command changes slots, buffers, file and counters exactly as the step function the theorems are about |
| `Consumer.KvConsumer.RunCommands` | io/runtime_kv_command_consumer.c:639-647 | The loop stops at the first failing command |
| `Consumer.ConsumeCommands` | io/runtime_kv_command_consumer.c:591-654 | Refuse an empty list; otherwise size the file, seed it and run |
| `CommandRoundTrip.CompiledFileRoundTrip` | integrations/llama_cpp/runtime_commands.py:135-157 | Exporting the plan of any scheduler timeline and loading the file gives back the very command stream, if and only if its numbers fit the consumer's types |
| `CommandRoundTrip.FileRoundTrip` | io/runtime_kv_command_consumer.c:264-289 | For any exportable operations: the file loads as exactly these commands if and only if every line fits |
| `CommandRoundTrip.RoundTrip` | integrations/llama_cpp/runtime_commands.py:66-81 | One line gives back its command if and only if layer and block fit 32 bits, the other numbers fit 64, and the metadata repeats the size |
| `CommandRoundTrip.ParseOfLine` | io/runtime_kv_command_consumer.c:240-262 | What any exported line parses to: ids cut to `int`, the size taken from the metadata; out-of-range numbers refuse the line |
| `CommandRoundTrip.CompiledExportable` | core/movement_plan.py:217-259 | Every operation of a compiled plan repeats its own size in its metadata |
| `JsonLine.FirstOccurrence` | io/runtime_kv_command_consumer.c:144-163 | The first textual occurrence of a quoted key is the first member with that key: no value, gap or longer key can be mistaken for it |
| `JsonLine.LineIsOneLine` | integrations/llama_cpp/runtime_commands.py:150-150 | An exported command contains one line end, its last character |
| `JsonText.StrtollOfDecimal` | io/runtime_kv_command_consumer.c:186-199 | A printed integer is read back exactly when it fits `long long` |
| `JsonText.StrtollSigned` | io/runtime_kv_command_consumer.c:186-199 | Leading spaces and either sign are read; out-of-range numbers are refused |
| `CommandParser.FieldSpaced` | io/runtime_kv_command_consumer.c:144-163 | Blanks on either side of the colon are allowed and not needed |
| `CommandRoundTrip.LabelFound` | io/runtime_kv_command_consumer.c:165-184 | A quoted text is read back exactly when it and its terminator fit the buffer |
| `CommandParser.LoadedExact` | io/runtime_kv_command_consumer.c:240-289 | A file loads exactly when each line is skipped or parsed, and whatever the file says every loaded command has a non-empty token interval, a positive size, a non-negative offset and 32-bit ids |
| `CommandParser.EmptyLine` | io/runtime_kv_command_consumer.c:264-289 | An empty line changes nothing |
| `CommandParser.FindField` | io/runtime_kv_command_consumer.c:144-163 | The pointer walk lands after the colon of the first quoted occurrence |
| `CommandParser.ParseStringField` | io/runtime_kv_command_consumer.c:165-184 | The text up to the closing quote; escapes, missing quotes and small buffers are refused |
| `CommandParser.ParseCommandLine` | io/runtime_kv_command_consumer.c:240-262 | All ten fields or a refusal |
| `CommandParser.ReadLine` | io/runtime_kv_command_consumer.c:111-142 | The text up to and including the next line end |
| `CommandParser.LoadCommands` | io/runtime_kv_command_consumer.c:264-289 | All lines or a refusal; blank lines are skipped |
| `ByteRanges.BuildExact` | integrations/llama_cpp/kv_byte_ranges.py:410-454 | The mapper accepts a block exactly when it has no tokens or valid numbers, and lists one K and one V range per token |
| `ByteRanges.BuildBlockRanges` | integrations/llama_cpp/kv_byte_ranges.py:410-454 | The building loop stops at the first invalid range |
| `ByteRanges.CoverageExact` | integrations/llama_cpp/kv_byte_ranges.py:457-463 | For any positive ranges: no coverage error if and only if each byte of the block is in exactly one range and none reaches outside |
| `ByteRanges.BuiltCoverage` | integrations/llama_cpp/kv_byte_ranges.py:410-463 | Generated ranges tile `[0, tokens * (k + v))`; coverage is 0 if and only if that is the block size |
| `ByteRanges.CountCoverageErrors` | integrations/llama_cpp/kv_byte_ranges.py:457-463 | The scan over the sorted ranges |
| `ByteRanges.BoundsClosedForm` | integrations/llama_cpp/kv_byte_ranges.py:466-479 | The bounds count is `2 * max(0, min(tokens, block + tokens - cache))` for every cache size |
| `ByteRanges.CountTensorBoundsErrors` | integrations/llama_cpp/kv_byte_ranges.py:466-479 | The counting loop |
| `ByteRanges.GateCount` | integrations/llama_cpp/patches/solidattention_kv_trace.patch:1077-1083 | The C++ count is the same closed form in 32-bit arithmetic, and zero for an empty cache |
| `ByteRanges.BoundsAgree` | integrations/llama_cpp/kv_byte_ranges.py:466-479 | The two counts are equal if and only if the cache is positive and the count fits 32 bits, or there is nothing to count |
| `ByteRanges.ScatterGather` | integrations/llama_cpp/kv_byte_ranges.py:410-454 | Scattering along the ranges that the mapper builds and gathering back restores the staging bytes |
| `ByteRanges.BackingBytes` | integrations/llama_cpp/kv_byte_ranges.py:410-454 | A range names its bytes in the backing file and in the staged block: they are the same bytes, and lie in its token's stride |
| `ByteRanges.DefaultRows` | integrations/llama_cpp/kv_byte_ranges.py:384-407 | With no row sizes given, the mapper infers two equal rows, the row size that the bridge infers, and exactly for the blocks for which the bridge does |
| `ByteRanges.ResolveRefuses` | integrations/llama_cpp/kv_byte_ranges.py:384-407 | Row sizes are refused exactly for a given size that is not positive, or none given and an odd number of bytes per token |
| `ByteRanges.MapperDescribesGate` | integrations/llama_cpp/kv_byte_ranges.py:384-454 | For a block the gate copies with a row-major V tensor, the rows the mapper infers are the gate's, it reports no error, and its ranges write exactly what the gate writes |
| `ByteRanges.RowsDescribeGate` | integrations/llama_cpp/kv_byte_ranges.py:410-454 | The same for any row sizes with which the gate copies |
| `ByteRanges.ResolveFits` | integrations/llama_cpp/kv_byte_ranges.py:384-407 | Inferred rows always match the size, and unmatched sizes are never reported as inferred |
| `ByteRanges.VerifyBlock` | integrations/llama_cpp/kv_byte_ranges.py:234-262 | For one block with tokens: size mismatch, coverage error and exact coverage always agree; inferred rows have neither error |
| `ByteRanges.UniqueBlocks` | integrations/llama_cpp/kv_byte_ranges.py:361-381 | Succeeds exactly when each key has one range; then lists every block once, in key order |
| `Timeline.TimelineLaw` | core/scheduler.py:78-82 | Operations are gap-free and their total latency is the metrics increment and the sum over the tiers |
| `Timeline.CostsByTier` | core/scheduler.py:110-211 | Every metric from how many blocks start on which tier |
| `Timeline.SecondRunComputes` | core/scheduler.py:110-132 | A second run only computes |
| `Scheduler.SSDAwareScheduler.Schedule` | core/scheduler.py:103-132 | Success exactly for an empty list or compute location VRAM; then the timeline, the moved blocks and the metrics, everything else unchanged; on failure what has already moved |
| `Scheduler.SSDAwareScheduler.ScheduleBlock` | core/scheduler.py:115-130 | One block's operations, move and cost |
| `Blocks.BlockStore.AddBlock` | core/block_store.py:35-38 | Refuses a known key and changes nothing else |
| `Blocks.BlockStore.MoveBlock` | core/block_store.py:54-62 | Moves the store's own object or refuses an unknown key |
| `Blocks.DedupeBlocks` | core/scheduler.py:244-253 | Keeps the first block of each key |
| `Blocks.DedupeFirsts` | core/scheduler.py:244-253 | Every kept block is the first of its key, and they come in the order in which their keys first come |
| `SsdLayout.AddKeeps` | core/movement_plan.py:65-108 | An added range is aligned, starts at the least aligned offset not below the last end, and moves no other range |
| `SsdLayout.AlignIsLeast` | core/movement_plan.py:104-108 | The aligned offset is the least multiple not below the offset |
| `SsdLayout.RangesDisjoint` | core/movement_plan.py:99-108 | Ranges of a layout are disjoint and in order |
| `SsdLayout.SizeBound` | core/movement_plan.py:88-91 | The total size is at most the sizes plus `n * (alignment - 1)` |
| `SsdLayout.AddAllInvariant` | core/movement_plan.py:65-108 | A list of blocks is accepted exactly when its keys are distinct and its sizes positive; it gets one aligned range each, in order, within the size bound |
| `SsdLayout.SSDFileLayout.AddBlock` | core/movement_plan.py:65-78 | The new layout, or the refusal of a repeated or empty block |
| `MovementPlan.BuildMovementPlan` | core/movement_plan.py:194-214 | Distinct blocks laid out in key order, then every operation translated, or the first error |
| `MovementPlan.CommandsFromMovementPlan` | integrations/llama_cpp/runtime_commands.py:110-132 | Validated commands one for one, or the first error |
| `MovementPlan.RoutesMean` | core/movement_plan.py:217-259 | What each operation name becomes as a command: the block's own range and the move the executors dispatch on, with the metadata's tiers in place of the usual ones |
| `Pipeline.CompileSucceeds` | core/movement_plan.py:194-270 | Every timeline over non-empty blocks compiles, operation by operation, to the chains of its blocks, with offsets in key order |
| `Pipeline.LayoutInOrder` | core/movement_plan.py:194-270 | The ranges of any plan lie in the file by layer and then by block, and have the size of the first block of their key |
| `Pipeline.CompiledIsConsistent` | integrations/llama_cpp/runtime_commands.py:32-56 | Every compiled command passes the validator, and a block is described one way |
| `Pipeline.CompiledRangesApart` | core/movement_plan.py:65-108 | Blocks of a compiled stream have disjoint ranges |
| `Sorting.SortCanonical` | core/movement_plan.py:270-270 | Sorting does not depend on the input order when no keys tie |
| `Ledger.TimelineMeaning` | core/scheduler.py:103-132 | On the ledger, a timeline's stream leaves exactly the scheduled blocks in VRAM and counts reads, copies, computes and seeds by initial tier |
| `Residency.SeedingMeaning` | harness/runtime_residency_executor.py:143-252 | Seeding mode: zero errors, lazy seeds = blocks initially in DRAM and VRAM, final DRAM = blocks initially in SSD and DRAM |
| `Residency.StrictMeaning` | harness/runtime_residency_executor.py:143-187 | Strict mode: missing sources = 2 per block initially in DRAM and 1 per block initially in VRAM |
| `Residency.SeedingRunIsLedger` | harness/runtime_residency_executor.py:117-252 | Any consistent evict-free stream: no error, and the common ledger |
| `Residency.SeedingRunIsAccount` | harness/runtime_residency_executor.py:189-202 | Any consistent stream with evicts: no error; every evict counts as one, and one that finds no buffer also as a seed that leaves nothing behind |
| `Residency.ReadBytes` | harness/runtime_residency_executor.py:204-221 | A read returns the file's bytes from the offset, zero past the end, and is short exactly when the range reaches past the end |
| `BufferContents.RunHoldsRange` | harness/runtime_residency_executor.py:117-221 | After any consistent stream on a long enough file, evicts included, every buffer holds its command's own range of the file |
| `BufferContents.RunHoldsBytes` | harness/runtime_residency_executor.py:117-221 | For any file, long enough or not, and without one: every buffer holds what a read of its command's range returns |
| `BufferContents.PatternsApart` | harness/runtime_residency_executor.py:204-221 | Without a file, the made-up patterns of two blocks are equal or differ at every byte, as their keys decide modulo 256 |
| `RuntimeCounters.RunConserves` | harness/runtime_residency_executor.py:117-252 | Over every operation list and setup: allocations = reads + copies + seeds, every operation is counted, seeding leaves no source missing and its absence seeds nothing |
| `RuntimeCounters.RunWeighed` | harness/runtime_residency_executor.py:117-252 | When all operations have one size, every byte counter is that size times its count |
| `Residency.RuntimeResidencyExecutor.ReadBackingOrPattern` | harness/runtime_residency_executor.py:204-221 | The file's bytes from the offset on, zero past its end, with short reads counted exactly, or the made-up pattern |
| `Residency.RuntimeResidencyExecutor.ExecuteSsdToDram` | harness/runtime_residency_executor.py:143-149 | The new DRAM entry and counters |
| `Residency.RuntimeResidencyExecutor.ExecuteDramToVram` | harness/runtime_residency_executor.py:151-173 | Copy, seed, missing source or size mismatch |
| `Residency.RuntimeResidencyExecutor.ExecuteCompute` | harness/runtime_residency_executor.py:175-187 | Compute, seed, missing source or size mismatch |
| `Residency.RuntimeResidencyExecutor.ExecuteEvictToSsd` | harness/runtime_residency_executor.py:189-202 | The new buffers and counters of an evict: VRAM before DRAM, else seeded and dropped; `SeedingRunIsAccount` and `EvictsAgreeIff` say what that means |
| `Residency.RuntimeResidencyExecutor.Execute` | harness/runtime_residency_executor.py:117-135 | The operation loop |
| `Intents.ExportSays` | integrations/llama_cpp/movement_intents.py:83-188 | The export succeeds exactly when every intent line names bytes and a token interval, its own if the command's is missing, and the lines give each block one range; the plan repeats the intent lines in order and the rest are counted as skipped |
| `Intents.ExportExact` | integrations/llama_cpp/movement_intents.py:83-97 | The plan charts exactly the ranges of its operations |
| `Intents.TraceExports` | integrations/llama_cpp/patches/solidattention_kv_trace.patch:2012-2047 | The bridge's own trace exports without conflict and gives back exactly the executed commands |
| `Intents.ReplayIntents` | integrations/llama_cpp/movement_intents.py:119-188 | Replaying the exported plan of a scheduler-derived stream: zero errors, the touched blocks in VRAM, and one lazy seed for each touched block whose chain does not start on SSD |
| `Intents.ExportMovementIntentPlan` | integrations/llama_cpp/movement_intents.py:83-97 | The export loop stops at the first bad line |
| `Prefetch.PrefetchThenSchedule` | core/prefetcher.py:121-143 | The prefetcher and the scheduler on one store and one metrics object: the timeline, the final tiers, every SSD block of the two lists read once, and the wait less by what the plan saves |
| `Prefetch.ReadsConserved` | core/prefetcher.py:121-143 | Prefetching P and then scheduling B reads each block of the two that started on SSD once |
| `Prefetch.PrefetchReads` | core/prefetcher.py:121-143 | Prefetching reads each of its SSD blocks once, at one latency each, and waits for nothing |
| `Prefetch.WaitConserved` | core/prefetcher.py:121-143 | The prefetch changes the GPU wait by minus the SSD latency per common block on SSD plus the DRAM latency per common block in VRAM |
| `Prefetch.EvaluationPartitions` | core/prefetcher.py:154-170 | Hits and misses partition the required blocks, used and wrong the planned; right after execution the hits are the planned required blocks |
| `Prefetch.LateEvaluationMisses` | core/prefetcher.py:158-167 | Evaluated after scheduling, a DRAM plan scores only misses |
| `Prefetch.SpeculativePrefetcher.Plan` | core/prefetcher.py:92-119 | The first distinct blocks, marked; other roles unchanged |
| `Prefetch.SpeculativePrefetcher.Execute` | core/prefetcher.py:121-143 | Moves exactly the planned blocks and counts each move from SSD, for plans with repeats too |
| `Prefetch.RepeatsCostNothing` | core/prefetcher.py:121-143 | A repeated block costs nothing unless the target is the SSD |
| `Prefetch.SpeculativePrefetcher.PlannedByKey` | core/prefetcher.py:155-155 | The planned blocks by key: first place, last block |
| `Prefetch.SpeculativePrefetcher.Evaluate` | core/prefetcher.py:145-195 | The three groups, with a repeated planned key counted once, and the metrics increment |
| `Selector.SelectGroups` | core/block_selector.py:83-102 | Init, middle and local make up the sorted eligible list; the selected come from the middle |
| `Selector.SelectedAreTop` | core/block_selector.py:102-103 | The selected are the top of the middle under (-score, start, id) |
| `Selector.SelectionMeans` | core/block_selector.py:74-118 | The groups without naming a sort order: of the layer's blocks that end before the token, init starts before all others, local after all others, and selected has the highest scores of the rest, the earlier block winning a tie |
| `Selector.GroupsDisjoint` | core/block_selector.py:42-51 | The groups are disjoint and together have `min(n, i + l + s)` blocks |
| `Selector.SelectCanonical` | core/block_selector.py:74-118 | The result does not depend on the input order |
| `Selector.BlockSelector.SelectBlocks` | core/block_selector.py:74-118 | The three groups on block objects, and every block's role |

## Left out

- Bridge.CommandBridge.AssignDramBuffer: a staging buffer is a byte sequence in its record, so the moment at which the old allocation is freed is not visible.
- Bridge.CommandBridge.BridgeApply: the counters of events, shadow transitions, executor actions and gate views are unbounded, while the patch keeps 32-bit and 64-bit ones (the mutation gate's own counters do wrap); the bridge trace, the summary file and the byte-range and dry-run counters are not written; byte ranges are modelled as far as they fix the row sizes.
- Consumer.KvConsumer.ExecuteCommand: a command whose size exceeds an existing buffer ends the run, where the C code would access memory outside the buffer.
- Consumer.ConsumeCommands: reading the file name arguments, opening and sizing the file, liburing and the latency clocks are not part of the model; the loaded list is the argument.
- Selector.SelectedAreTop: the score is an abstract total function to the reals; the cosine similarity and its rounding are not modelled.
- Timeline.TimelineLaw: times are reals, so floating-point rounding is not modelled.
- ByteRanges.VerifyBlock: leaves out the comparison with the layout's size, the alignment check, short reads and the digests, which the verifier counts beside these errors.
- Intents.ExportMovementIntentPlan: keeps the ranges as a map; the sorted layout list, its total size and the summary counts are not built.
- CommandRoundTrip.RoundTrip: covers lines of scheduler moves and computes, whose metadata keys are known; plans derived from bridge traces carry a nested `source` key and are outside it.
- The command parser inside the patch, which reads the same lines with the same first-occurrence search.
- llama.cpp and ggml themselves: cache slots, graph building, quantised types; a tensor is a byte array with set and get.
- `core/kv_layout.py` and the adapter's ingest loop: sums of earlier sizes and a fold over store updates, with no harder property than those proved here.
- Trace recording, manifests, digests, CI profiles and the subprocess wrappers.
