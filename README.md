# sample-toy core, modelled in Dafny

This project models the audio core of sample-toy, a small browser sampler:

- **Granulator** (`granulator.dfy`): a decoded multichannel buffer is cut
  into `numChunks` chunks of equal duration. Each chunk gets a new buffer,
  filled channel by channel from the source while the source index is in
  range and left at zero otherwise. `playChunk` replaces the single current
  buffer source by a new one.
- **Effects** (`effects.dfy`): `AudioEffect` owns four Tone nodes (bit
  crusher, feedback delay, reverb, gain) and an ordering of them.
  `buildEffectChain` disconnects every listed node, connects neighbours and
  sends the last node to the destination. The audio graph is a set of
  directed connections.
- **State** (`state.dfy`): the initial effect metadata of the UI and the
  lookup from a metadata tag to a node.
- **Envelope** (`envelope.dfy`): `EnvelopeParams`, four numbers with
  defaults, setters and getters.

Times and samples are exact reals. A decoded buffer follows the Web Audio
definition: its duration is `length / sampleRate` and every channel holds
`length` samples. Under exact arithmetic the model shows that chunk `i`
covers samples `[i*length/n, i*length/n + length/n)` (rounded down). These
ranges never overlap and always lie inside the buffer, so the zero-fill
branch of the copy loop only matters for the rounding of doubles.

The model follows the code as written; in particular:

- `reorderEffects` stores its argument without validating it.
- `buildEffectChain` disconnects only the listed nodes, so a node left out
  of a reorder keeps its outgoing connections (`UnlistedKeepsConnections`).
- The envelope setters store any value; they do not clamp.
- `sliceIntoChunks` with a buffer loaded and `numChunks <= 0` empties the
  chunk table.
- `getEffectChainInput` returns the bit crusher whatever the ordering
  (see Findings).
- `playChunk` stops the previous source at once and connects the new one
  straight to the context's destination, with no envelope and no effect chain.

Web Audio's `createBuffer` refuses a length of 0 with a NotSupportedError.
So slicing into more chunks than there are samples throws after the table
was emptied. `SliceIntoChunks` returns `ok == false` in that case, and
`SliceSucceedsIff` shows that it happens exactly when `numChunks > length`.

## Model

| member | source | states |
|---|---|---|
| `Effects.AudioEffect.constructor` | src/lib/effects.ts:11-31 | the ordering starts as bitCrusher, feedbackDelay, reverb, gain, and the graph holds exactly that chain ending at the destination |
| `Effects.AudioEffect.BuildEffectChain` | src/lib/effects.ts:33-40 | for a non-empty ordering, the new graph keeps the old connections of unlisted nodes and adds exactly the neighbour links plus last → destination; for an empty ordering it fails and the graph is unchanged; the ordering is unchanged |
| `Effects.AudioEffect.ReorderEffects` | src/lib/effects.ts:42-45 | the ordering becomes the argument as given, and the graph is rebuilt over it, or left alone when the argument is empty (the rebuild then fails) |
| `Effects.AudioEffect.GetEffectChainInput` | src/lib/effects.ts:55-57 | the chain input is the bit crusher; it reads no state, so the ordering cannot change it |
| `Effects.AudioEffect.ChainHead` | src/lib/effects.ts:55-57 | corrected input: the first node of the current ordering, none when the ordering is empty |
| `Effects.RebuildIdempotent` | src/lib/effects.ts:33-45 | rebuilding twice over the same ordering yields the same graph as rebuilding once |
| `Effects.UnlistedKeepsConnections` | src/lib/effects.ts:34 | a node outside the ordering has, after a rebuild, exactly the outgoing connections it had before |
| `Effects.ListedHasOnlySuccessor` | src/lib/effects.ts:36-39 | for an ordering without repeats, a listed node's only outgoing connection goes to the next node, or to the destination for the last node |
| `Effects.ChainLeavesListed` | src/lib/effects.ts:36-39 | every connection the rebuild adds starts at a listed node |
| `Effects.EveryNodeListedForgetsPast` | src/lib/effects.ts:33-39 | when all four nodes are listed, the rebuilt graph is exactly the new chain, whatever the old graph was |
| `Effects.HeadFeedsWholeChain` | src/lib/effects.ts:36-39 | after a rebuild the ordering is a signal path from its first node, and the last node reaches the destination |
| `Effects.InputSkipsReorderedHead` | src/lib/effects.ts:55-57 | with the reverb moved to the front, no signal path from the input the code reports ever passes through the reverb |
| `Effects.ReorderedHeadFeedsReverb` | src/lib/effects.ts:42-45 | after reordering to reverb, bit crusher, feedback delay, gain, the corrected input is the reverb and the whole ordering is a signal path from it to the destination |
| `State.InitialEffectsMeta` | src/lib/state.ts:31-35 | three entries with the given ids, tagged bitCrusher, feedbackDelay, reverb in that order, none tagged gain |
| `State.GetNodeByType` | src/lib/state.ts:46-53 | null when no effects object is set; a node only for the three known tags, and then the node carrying that tag; never the gain node |
| `State.TagLookupRoundTrip` | src/lib/state.ts:49-52 | looking up a node's own tag finds that node, except gain, which yields null |
| `State.InitialMetaResolvesToOrder` | src/lib/state.ts:31-52 | the initial metadata resolves, in order, to the first three nodes of the initial chain ordering, and no entry resolves to its final gain node |
| `Envelope.EnvelopeParams.constructor` | src/lib/envelope.ts:7-12 | a new envelope has attack 0, decay 0, sustain 1, release 0 |
| `Envelope.EnvelopeParams.SetAttack` | src/lib/envelope.ts:15-17 | stores the value unclamped; the other three fields are unchanged |
| `Envelope.EnvelopeParams.SetDecay` | src/lib/envelope.ts:19-21 | stores the value unclamped; the other three fields are unchanged |
| `Envelope.EnvelopeParams.SetSustain` | src/lib/envelope.ts:23-25 | stores the value unclamped, even outside [0, 1]; the other three fields are unchanged |
| `Envelope.EnvelopeParams.SetRelease` | src/lib/envelope.ts:27-29 | stores the value unclamped; the other three fields are unchanged |
| `Envelope.EnvelopeParams.GetAttack` | src/lib/envelope.ts:32-34 | returns the stored attack and changes nothing |
| `Envelope.EnvelopeParams.GetDecay` | src/lib/envelope.ts:36-38 | returns the stored decay and changes nothing |
| `Envelope.EnvelopeParams.GetSustain` | src/lib/envelope.ts:40-42 | returns the stored sustain and changes nothing |
| `Envelope.EnvelopeParams.GetRelease` | src/lib/envelope.ts:44-46 | returns the stored release and changes nothing |
| `Envelope.SetThenGet` | src/lib/envelope.ts:15-46 | setting all four fields and reading them back returns exactly the values set, for any values |
| `Granulator.Granulator.constructor` | src/lib/granulator.ts:9-17 | no buffer, an empty chunk table, no current source |
| `Granulator.Granulator.LoadAudio` | src/lib/granulator.ts:19-28 | a rejected decode fails and changes nothing; otherwise the buffer is stored and the table is the 200-chunk slice, or empty when that slice throws |
| `Granulator.Granulator.SliceIntoChunks` | src/lib/granulator.ts:30-69 | without a buffer the table is unchanged; with one, the table is replaced by the full slice, or emptied when createBuffer throws; the buffer and the current source are untouched |
| `Granulator.CopyChannel` | src/lib/granulator.ts:56-60 | each target sample takes the source sample at `startSample + j` when that index is in range and keeps its previous value otherwise |
| `Granulator.CopyIntoChunk` | src/lib/granulator.ts:46-61 | the chunk buffer has the source's sample rate and channel count and the requested length; each sample is copied from the source when in range and 0 otherwise |
| `Granulator.Granulator.GetChunks` | src/lib/granulator.ts:71-73 | returns the current table as stored |
| `Granulator.Granulator.PlayChunk` | src/lib/granulator.ts:75-87 | the previous source is stopped and disconnected and keeps its buffer and started flag; a fresh source bound to the chunk's buffer is connected and started; afterwards it is the only sounding source the player ever created |
| `Granulator.StartSample` | src/lib/granulator.ts:41-42 | `floor(i * chunkDuration * sampleRate)` equals `i * length / n` rounded down |
| `Granulator.ChunkSamples` | src/lib/granulator.ts:43 | `floor(chunkDuration * sampleRate)` equals `length / n` rounded down, the same for every chunk |
| `Granulator.ScaledTimeIsExact` | src/lib/granulator.ts:41-43 | the chunk start and chunk duration, scaled by the sample rate, equal `i * length / n` and `length / n` |
| `Granulator.SliceSucceedsIff` | src/lib/granulator.ts:43-50 | slicing a loaded buffer into `n > 0` chunks succeeds exactly when `n <= length` |
| `Granulator.ChunkTableShape` | src/lib/granulator.ts:38-67 | the table has `max(n, 0)` chunks in index order; chunk `i` starts at `i * (duration / n)`; all chunks last `duration / n` and have the source's sample rate, channel count and one common length |
| `Granulator.ChunkContents` | src/lib/granulator.ts:53-61 | each chunk buffer is well formed, and its sample `j` of channel `c` is the source sample at `start + j` when in range, 0 otherwise |
| `Granulator.ChunksTile` | src/lib/granulator.ts:41-43 | each chunk ends no later than the next one starts, and inside the buffer |
| `Granulator.ChunksDisjoint` | src/lib/granulator.ts:41-43 | two different chunks never cover the same source sample |
| `Granulator.ChunkIsExactSlice` | src/lib/granulator.ts:53-61 | every channel of a chunk is exactly the contiguous slice of the source it covers |
| `Granulator.DurationsSumToWhole` | src/lib/granulator.ts:34-66 | the chunk durations add up to the buffer's duration |
| `Granulator.FourSecondsInto200` | src/lib/granulator.ts:23-41 | slicing a 4 s decoded buffer into 200 succeeds (createBuffer never sees a length of 0), and the table holds 200 chunks of 0.02 s, the first at 0 s and the last at 3.98 s |

## Left out

- File reading and decoding in `loadAudio` (src/lib/granulator.ts:19-28) are asynchronous browser I/O. `LoadAudio` takes the decoder's result as a parameter; the console logging is not modelled.
- The `AudioContext` and the rendering of `createBufferSource`, `start`, `stop` and `connect` are Web Audio calls. A source is modelled by its started, stopped and connected flags and its buffer.
- `createBuffer`'s other refusals cannot occur. A decoded buffer has at least one channel. `decodeAudioData` resamples it to the context's rate, and `createBuffer` accepts that rate. `AudioBuffer.Valid()` stands in for "the rate is the context's rate" with the bound 3000 Hz to 768000 Hz (`MinSampleRate`, `MaxSampleRate`). Any implementation whose contexts run inside that range is covered; a decoded rate outside it is not modelled.
- Tone node construction and signal processing (src/lib/effects.ts:12-15) are library internals.
- `AudioEffect.connect` (src/lib/effects.ts:47-53) is not modelled, and the model holds no `effectChain` field. Only connections between the four nodes and the destination are modelled, not connections into them from sources. `effectChain` holds what `bitCrusher.chain(...)` returns (src/lib/effects.ts:16-21). Tone's `chain` returns the node it is called on, so `effectChain` is the bit crusher. Like `getEffectChainInput`, `connect` therefore feeds the bit crusher whatever the ordering (see Findings).
- `getEffectParameters` (src/lib/effects.ts:59-69) only reads Tone's floating-point parameters.
- Effects.AudioEffect.ReorderEffects: the source accepts `any`, and the model takes only the four nodes. In the source, an element that is not a node, such as the `null` that `getNodeByType` returns for "gain" or an unknown tag, makes `effect.disconnect()` throw a TypeError inside the `forEach` (src/lib/effects.ts:34). By then the new list is already stored (line 43) and the nodes before that element are already disconnected, so the graph is left partly torn down. The model does not capture this partial state.
- IEEE double rounding of `duration / numChunks` and `Math.floor(t * sampleRate)` is replaced by exact reals. With doubles, the zero-fill branch can be taken at the tail.
- Svelte stores, `nanoid` (its ids are a parameter of `InitialEffectsMeta`), drag-and-drop, `Tone.start()` and the `State` constructor are UI glue.
- Scheduling on the audio clock, envelope ramps and concurrency with the rendering thread do not exist in the code.

## Findings

| source | as written | input that shows it | evidently intended | confidence | as-written member | corrected member |
|---|---|---|---|---|---|---|
| src/lib/effects.ts:55-57 | `getEffectChainInput` returns the bit crusher whatever the current ordering; so does `connect` (lines 49 and 51), through `effectChain`, which is the bit crusher | `reorderEffects([reverb, bitCrusher, feedbackDelay, gain])`: the reverb sits upstream of the reported input and never receives its signal | the input is the first node of the current ordering | medium, not executed | `Effects.InputSkipsReorderedHead` | `Effects.AudioEffect.ChainHead` |
