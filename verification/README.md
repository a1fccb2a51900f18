# A verified model of the K3 inference engine

The engine claims that the same tokens come out whichever fast path ran: streamed or resident
experts, batched or serial prefill, speculative or plain decoding, vector or scalar kernels,
a fresh conversation or a resumed one. This project models the code that decides those claims
and proves them. `dafny verify dfyconfig.toml` checks everything.

## What is modelled

**Decoding** (`Machines`, `ShortConv`, `Kda`, `Mla`, `Moe`, `Layer`, `Forward`, `Residual`, `Mixing`, `Greedy`,
`Draft`, `DecodeLoop`, `Session`, `Scratch`). The model is defined once as a machine that consumes one token at a
time (`Forward.ModelM`), and `Greedy.Decode` is what it would emit. Every batched loop of the
source is a method proved to agree with that machine: convolution with carried history
(channels outer), the KDA recurrence (heads outer), attention over a KV cache, the expert-major
MoE prefill, the per-token residual stack, the layer sweep, and the decode loop with snapshot,
batched verification, restore and replay. Arithmetic is uninterpreted: equal results are the
same operations in the same order. What the machine computes is stated apart from it: the windows
the convolutions see, the rows the residual stream carries from layer to layer (`Residual`), and, over
the reals, attention as a softmax mean and the experts as a gated sum (`Mixing`). The drafter is arbitrary. Expert fetches may fail; a failed
fetch is counted in `drops`, and the exactness theorems are about runs whose count stays zero,
because the source leaves that contribution unwritten (src/core/k3_ops.c:738-743) and reports the
run as failed.

**Expert-cache replay** (`CachePolicy`, `Lru`). Belady with bypass, LRU and pinned LRU over an
arbitrary trace: optimality, inclusion, reuse distance, compulsory misses and cyclic scans.

**Containers and layout** (`GgufSpec`, `Gguf`, `GgufRoundTrip`, `GgufBounds`, `Json`, `JsonScan`, `JsonText`,
`JsonRoundTrip`, `StBounds`, `NameIndex`, `Reader`, `Spans`, `ExpertLoad`, `Pack`, `Bind`, `WidenArea`). The GGUF
header grammar, its latching-cursor reader and growing-prefix loop, the safetensors header
scanner, the open-addressed name index, reads that may return short, the expert loader, the trunk
packer and the two weight binders.

**Packed-weight dot products** (`Dot`, `Mxfp4`, `Q4K`, `Half`). Scalar and vector kernels build one
operation tree for every length; over the reals the fused dots equal dequantise-then-dot; half precision widens exactly.

`Ints`, `Bits`, `Bytes`, `Numerics` and `Wrappers` hold arithmetic facts and shared types.

## Results that differ from what the source says

- `Lru.HottestBestExactly`: the docstring at tools/sim_cache.py:82-88 calls pinning the hottest keys
  of the very trace an upper bound on what pinning can deliver. Over the traces on given keys it is
  one if and only if the number of pins, once capped, is zero or the cache holds all the keys. For
  every other number of pins and room, `Lru.HottestNotBest` gives a trace without ties on which
  another set of as many keys does better: the pinned keys three times over, then two rounds over
  one key more than the room. For a single trace, `Lru.HottestBestIfRoomy`: having no more distinct keys
  than slots is enough. What holds for every trace is `Lru.HottestGainsMost`: no set of that size
  gains more hits on the pinned keys themselves.
- `Mxfp4.FusedExactlyWhen`: `eng_mxfp4_dot_row_g` expands a group into 64 floats and finds it by whole
  bytes, and both row functions form `n + group - 1` as an int. The fused dot stays in its buffer and
  agrees with `eng_mxfp4_dequant_row_g` on every row of length `n` if and only if the smaller of `n`
  and the group is at most 64, the group is even or `n` does not exceed it, and `n + group - 1` is
  below 2^31. `Mxfp4.BufferExceeded`: at group 128 and `n` 128 the buffer is overrun;
  `Mxfp4.OddGroupDiffers`: for odd groups the two address different nibbles from the second group
  on. The engine calls them with 32.
- `Spans.LengthTestFooled`: comparing the extent of a set of ranges with the sum of their lengths
  (src/io/k3_load.c:76-85, tools/pack_trunk.py:85-91) does not by itself mean that they tile it.
  `Spans.Tiling`: given equal lengths, they tile it if and only if they do not overlap.
- `WidenArea.AreaExactly`: `k3_bind_widen_bytes` does not count the KDA convolutions, decay, bias and
  output norm or the router bias. The area it reserves is enough for a layer however its tensors
  are stored if and only if it holds all the vectors read as float32, each rounded up to eight
  bytes but the last; `WidenArea.AreaShort` is a layer for which it is not, and `WidenArea.AreaSuffices`
  the case where the uncounted vectors are float32. Where it is short, binding is refused, not
  overrun (`WidenArea.BindReserved`).
- `Bind.TagExactly`: src/model/k3_bind.c:434-436 takes it for granted that a packed layer does not mix
  int8 and bf16 matrices. The binder accepts such a layer and tags it int8 (`Bind.MixedAccepted`);
  one tag describes every large matrix if and only if the two are not mixed. `WidenArea.MixedLayer`
  is such a layer for every configuration and kind.
- The comment at src/core/k3_ops.c:1064 speaks of multiply then add; the code uses a fused
  multiply-add, and so do `Dot.RefDot` and `Dot.VecDot`.
- `GgufBounds.ArraysIn`: src/formats/gguf.c:308 multiplies an array's length by its element size modulo
  2^64, so 2^61 eight-byte elements are accepted with no bytes behind them, under any key and
  anywhere (`GgufBounds.HollowArray`). An accepted scalar array lies in the header if and only if its
  byte count is below 2^64.
- `GgufBounds.TensorsIn`: src/formats/gguf.c:387-393 checks where a tensor ends but not where it starts,
  reads its offset as signed, and adds in 64 bits. An accepted tensor lies in the data section if and
  only if its stored offset is below 2^63 and so is the sum of the section's start, the offset and
  the size. `GgufBounds.BeforeTheFile` and `GgufBounds.PastTheFile` are headers, byte for byte, whose
  tensor fails each half. The size itself is any 64-bit value here; `eng_tensor_nbytes` multiplies the
  dimensions without an overflow test (src/tensor/tensor.c:72-74).
- `StBounds.EntriesIn`: src/io/k3_st.c:319-330 checks a safetensors entry's size and end but not its
  start. A tensor of an accepted header lies in the data section if and only if its two offsets are
  in order, not negative, and its end is below 2^63; `StBounds.NegativeOffset`, `StBounds.NegativeSize`
  and `StBounds.EndWraps` are headers, byte for byte, that fail each part.
- `Scratch.DenseExactly`: `k3_layer_scratch` does not count the activated row a dense layer keeps in the
  shared part (src/core/k3_ops.c:1008). Every layer of a run stays inside what the run allocates, except
  that a dense one does if and only if that row fits the shared part and the rows its batch leaves
  free; `Scratch.DenseOverruns` is a configuration where it does not.

Where C leaves signed overflow undefined, the model wraps around in two's complement.

## Model

| member | source | states |
|---|---|---|
| `Machines.SweepOuts` | src/cli/k3_run.c:470-552 | running a batch layer by layer gives every token the output of running the tokens one by one through all layers |
| `Machines.SweepState` | src/cli/k3_run.c:488-531 | after a layer-by-layer sweep each layer's carried state is that of the token-by-token run |
| `ShortConv.ConvColumn` | src/core/k3_ops.c:126-158 | channels are independent: the token-major run restricted to one channel is that channel's own run over its column |
| `ShortConv.Apply` | src/core/k3_ops.c:126-158 | the channel-outer in-place convolution leaves the outputs and histories of as many single-token calls: every channel's outputs are its windows and its history its last inputs |
| `ShortConv.HistoryIsLast` | src/core/k3_ops.c:149-152 | a channel's carried history is the last of what it held and was fed, oldest first |
| `ShortConv.ConvIsWindow` | src/core/k3_ops.c:137-155 | output t sums each tap times the input it lies over, the newest first and then oldest to newest, and applies SiLU |
| `Kda.HeadAfter` | src/core/k3_ops.c:866-886 | running heads outermost gives each head the matrix a token-outer run would |
| `Kda.KdaOutAt` | src/core/k3_ops.c:811-898 | the output at each position is the serial machine's at that position |
| `Kda.HeadFed` | src/core/k3_ops.c:828-886 | what a head is fed at a position, spelled out: query and key convolved from their own projections, taps and histories and normalised, only the query scaled, the value as convolved, decay and strength from the token |
| `Kda.HistoriesAre` | src/core/k3_ops.c:811-848 | the three histories after a batch are the last rows of their own projections |
| `Kda.KdaLayer` | src/core/k3_ops.c:811-898 | a KDA layer on a batch equals single-token calls in outputs, recurrent matrices and all three histories, for every batch length |
| `Mla.SeenRows` | src/core/k3_ops.c:333-375 | when token t attends, the rows up to its position are those of the serial run, whatever stale rows lie beyond |
| `Mla.Causal` | src/core/k3_ops.c:333-388 | token t attends, with its own query, to the rows from before the batch and to one row of each token up to and including itself |
| `Mla.MlaCached` | src/core/k3_ops.c:299-388 | attention over a KV cache on a batch equals single-token calls whatever the slice held at or past `cached`; rows below are untouched |
| `Mixing.TopScore` | src/core/k3_ops.c:347-361 | no score exceeds the maximum taken off, which is one of them unless none was above where the search began |
| `Mixing.Softmax` | src/core/k3_ops.c:363-371 | over the reals a position's weight is its score's exponential over the sum of all of them, and positive: the maximum taken off first cancels |
| `Mixing.SumToOne` | src/core/k3_ops.c:363-371 | and the weights add up to one |
| `Mixing.AttendIsMean` | src/core/k3_ops.c:340-376 | over the reals each component of what a head attends to is the mean of that component of the values it may see, weighted so |
| `Moe.PickInRange` | src/core/k3_ops.c:397-456 | every routed index is an expert |
| `Moe.Router` | src/core/k3_ops.c:397-456 | the selection and weighting loops give the indices of repeated selection and its weights, divided by their sum in slot order where asked for, then scaled |
| `Moe.TopK` | src/core/k3_ops.c:433-445 | with comparable scores the slots hold different experts in order of rank, first index on ties, none left out ranks before one chosen, and each weight starts from the unbiased score |
| `Mixing.GateIs` | src/core/k3_ops.c:447-453 | over the reals every gate is its raw score times one factor, so ratios are kept: the scale over the sum where weights are renormalised, the scale alone where not or for a single weight |
| `Mixing.GatesSum` | src/core/k3_ops.c:447-453 | renormalised gates add up to the scale, but for the constant that keeps the sum off zero |
| `Mixing.MoeIsWeighted` | src/core/k3_ops.c:534-634 | over the reals a token gets the tail of its routed experts' outputs weighted by their slots' gates |
| `Moe.MoeToken` | src/core/k3_ops.c:534-634 | one token's output is the top-k aggregate when no fetch failed; otherwise the failure is counted |
| `Moe.ExpertMajor` | src/core/k3_ops.c:729-756 | each listed expert is fetched once, and every (token, slot) is written exactly once when no fetch failed and never twice |
| `Moe.PrefillChunk` | src/core/k3_ops.c:695-786 | expert-major order equals the per-token path when no fetch failed, each (token, slot) summed in top-k order, and the fetches are exactly the distinct routed experts, each once |
| `Moe.Prefill` | src/core/k3_ops.c:667-693 | for every length, chunk split and routing the batch equals the per-token path when no fetch failed |
| `Layer.DecoderLayer` | src/core/k3_ops.c:925-1015 | a whole layer on a batch after `cached` tokens equals single-token calls in rows, block stacks, recurrent state and KV rows |
| `Residual.LayerConserves` | src/core/k3_ops.c:951-1014 | boundary or not, what a token holds after a layer measures what it held before, plus its attention's output, plus its MLP's, each once; the MLP is fed from what it holds by then |
| `Residual.TowerConserves` | src/cli/k3_run.c:488-531 | after any number of layers a token's row and stack measure its embedding and every sublayer output, each once |
| `Residual.Stream` | src/core/k3_ops.c:945-1014 | before every layer a token's stack and row are its embedding and the sums of all sublayer outputs so far, one sum for every block of layers, each added up in order |
| `Residual.Predicted` | src/cli/k3_run.c:525-552 | a token's prediction is picked from the aggregate of its embedding and all block sums |
| `Residual.CarriedOn` | src/core/k3_ops.c:951-1014 | every layer's carried state moves on by what those sums feed its attention |
| `Forward.RoomForBlock` | src/core/k3_ops.c:966-972 | the block stack always has room in the residual buffer's row for the block about to be pushed |
| `Forward.TrailIsSweep` | src/cli/k3_run.c:488-531 | the rows after each layer of the pass are those of the layer sweep of machines |
| `Forward.FinishedOuts` | src/cli/k3_run.c:533-552 | the predictions of a finished pass are the serial machine's at every position |
| `Forward.FinishedCarries` | src/cli/k3_run.c:488-531 | the buffers of a finished pass carry the serial machine's state |
| `Forward.Pass` | src/cli/k3_run.c:470-552 | `forward` is a fold of the single-token step: predictions, recurrent state, histories and KV rows, unless it aborts or drops an expert |
| `Scratch.DenseExactly` | src/core/k3_ops.c:901-1011 | every layer stays inside the scratch a run allocates, a dense one exactly when its activated row fits |
| `Scratch.DenseOverruns` | src/core/k3_ops.c:901-1011 | a configuration whose dense layers do not |
| `Greedy.DecodeSplit` | src/cli/k3_run.c:1193-1349 | decoding a + b tokens is decoding a, appending, and decoding b more |
| `Greedy.Accepted` | src/cli/k3_run.c:1245-1261 | the accepted drafts and the prediction after them are exactly the next greedy tokens, whatever the rejected ones were |
| `Greedy.LastOut` | src/cli/k3_run.c:1199-1208 | the last prediction of a pass over what is not yet consumed is the next token, wherever the consumed part ended |
| `Greedy.VerifiedBatch` | src/cli/k3_run.c:1245-1293 | what a verification round emits, and which positions it has then consumed |
| `Draft.SpecDraft` | src/cli/k3_run.c:270-304 | the draft is what the last four tokens call for if that is anything, otherwise what the last three do: the longest stretch, up to `cap` and eight, that followed their most recent earlier occurrence, as far as the occurrence before it agrees |
| `Draft.OneProposal` | src/cli/k3_run.c:270-304 | for every sequence, match length and cap there is exactly one such stretch |
| `DecodeLoop.Restore` | src/cli/k3_run.c:1260-1269 | putting back the recurrent blocks alone restores the whole carried state below `cached` |
| `DecodeLoop.FeedExact` | src/cli/k3_run.c:1199-1208 | an exact pass over the rest of a sequence brings the state forward and predicts from it |
| `DecodeLoop.Engine.VerifyBatch` | src/cli/k3_run.c:1245-1269 | after snapshot, verify, restore and replay the state has consumed exactly the accepted prefix |
| `DecodeLoop.Engine.SpecStep` | src/cli/k3_run.c:1245-1293 | a speculative round delivers the next greedy tokens for any drafts |
| `DecodeLoop.Engine.Round` | src/cli/k3_run.c:1199-1308 | every completed round restores `cached == T - 1` and a true state; its guard keeps batches within Tmax, the KV cache and the tokens wanted |
| `DecodeLoop.Engine.Emit` | src/cli/k3_run.c:1344-1348 | the emission loop never drops an accepted token and keeps the sequence within its buffer |
| `DecodeLoop.Engine.Generate` | src/cli/k3_run.c:1193-1349 | full recompute, incremental and speculative runs with any drafter all emit the same `gen` greedy tokens |
| `Session.SaveState` | src/cli/k3_run.c:235-268 | the file holds every recurrent block and the first `cached` rows of every KV slice |
| `Session.LoadState` | src/cli/k3_run.c:188-233 | a file is restored if and only if it is of this architecture and layer split, its positions fit and nothing is cut off; what is restored is its own sections, under any capacity |
| `Session.CompleteExactly` | src/cli/k3_run.c:214-232 | nothing is cut off exactly when the token list, the blocks and both row streams are as long as the header counts call for |
| `Session.SavedSections` | src/cli/k3_run.c:188-268 | what was saved is complete, and its sections are the state that was saved |
| `Session.RunProgram` | src/cli/k3_run.c:982-1361 | saving and resuming with a new prompt emits what a fresh run on the concatenation emits, and the file written is again true and never ahead of the sequence |
| `CachePolicy.Exchange` | tools/sim_cache.py:51-76 | holding a key needed no later instead of another never costs a hit |
| `CachePolicy.BeladyBest` | tools/sim_cache.py:51-76 | from any shared state no schedule of the same capacity, with or without bypass, beats furthest-in-future |
| `CachePolicy.NextUses` | tools/sim_cache.py:54-60 | the backward pass gives the position of every key's next request |
| `CachePolicy.BeladyOptimal` | tools/sim_cache.py:51-76 | a complete run of the policy is legal and unbeaten |
| `CachePolicy.Belady` | tools/sim_cache.py:51-76 | the replay's count is achieved by a legal schedule and no legal schedule achieves more |
| `CachePolicy.Compulsory` | tools/sim_cache.py:170-173 | no schedule of any capacity hits more than requests minus distinct keys |
| `Lru.LruReplay` | tools/sim_cache.py:36-48 | the replay counts the hits of the LRU definition |
| `Lru.LruIsNewest` | tools/sim_cache.py:36-48 | an LRU cache of any size holds exactly the most recently used keys, in order |
| `Lru.LruInclusion` | tools/sim_cache.py:36-48 | at every point the larger cache contains the smaller, so hits never fall as capacity grows |
| `Lru.LruHolds` | tools/sim_cache.py:36-48 | a request hits exactly when the key was seen and fewer than `cap` distinct keys came since |
| `Lru.LruLegal` | tools/sim_cache.py:36-48 | LRU is one of the schedules the optimum is over |
| `Lru.MostCommon` | tools/sim_cache.py:89-91 | the hot set has the size asked for and no outside key is requested more often |
| `Lru.PinnedReplay` | tools/sim_cache.py:79-110 | pinned keys hit on all requests but their first, the rest as an LRU of the remaining capacity on the other requests alone |
| `Lru.PinnedLegal` | tools/sim_cache.py:79-110 | pinned LRU, for any pinned set, is a legal schedule of pins plus room |
| `Lru.Compare` | tools/sim_cache.py:150-163 | in every row of the report LRU and pinned LRU are at most Belady, and Belady at most requests minus distinct keys |
| `Lru.HottestGainsMost` | tools/sim_cache.py:79-110 | of all sets of its size the hottest keys gain the most hits on themselves |
| `Lru.HottestNotBest` | tools/sim_cache.py:82-88 | for every number of pins from one on, every room and enough keys there is a trace on which another set of as many pins gives more hits in total |
| `Lru.HottestBestIfRoomy` | tools/sim_cache.py:82-88 | on a trace with no more distinct keys than slots no pinned set beats the hottest |
| `Lru.HottestBestExactly` | tools/sim_cache.py:79-110 | over the traces on given keys the hottest are an upper bound for every set of as many pins if and only if nothing is pinned or all the keys fit |
| `Lru.CyclicScan` | tools/sim_cache.py:36-110 | on a cyclic scan larger than the cache LRU never hits while pinning any set hits on it in every round but the first |
| `Lru.ScanReplay` | tools/sim_cache.py:36-110 | the script's own replays on such a scan report 0 and npin * (R - 1), npin capped at cap - 1 |
| `GgufSpec.EntryStable` | src/formats/gguf.c:265-329 | a metadata entry accepted or refused on a prefix is so on every longer one |
| `GgufSpec.HeaderStable` | src/formats/gguf.c:228-398 | once a prefix is accepted or malformed every longer prefix gives the same verdict and tables |
| `Gguf.Cur.Rd` | src/formats/gguf.c:25-36 | a failed read latches and yields zero; otherwise the little-endian value |
| `Gguf.ReadEntry` | src/formats/gguf.c:265-329 | one entry agrees with the grammar, and the name pool keeps enough room for the rest |
| `Gguf.ParseHeader` | src/formats/gguf.c:228-398 | the cursor parse gives the grammar's verdict: the pool sized up front never runs out |
| `Gguf.Open` | src/formats/gguf.c:162-224 | the growing-prefix loop ends and agrees with one parse of the largest allowed prefix |
| `GgufRoundTrip.HeaderRoundTrip` | src/formats/gguf.c:265-365 | parsing the version 2 or 3 encoding of any well-formed list, whatever follows it, yields the tables of that list, value by value as each wire type means it, and ends at the last header byte; the writer has its own width, code and meaning for each of the eleven scalar types |
| `GgufRoundTrip.EncodedHeader` | src/formats/gguf.c:228-398 | the same with the alignment and file-size checks that close the parse |
| `GgufRoundTrip.ItemsBack` | src/formats/gguf.c:286-329 | every scalar, string and array element comes back from the row its entry left, a boolean as far as it is zero or not |
| `GgufRoundTrip.Accepted` | src/formats/gguf.c:232-261 | an accepted header opens with the magic, is of version 2 or 3, keeps to the table limits and has a power of two for its alignment |
| `GgufRoundTrip.UnknownType` | src/formats/gguf.c:323-326 | a metadata type the format does not have is refused |
| `GgufRoundTrip.UnknownElements` | src/formats/gguf.c:298-320 | so is an array of arrays or of such a type |
| `GgufRoundTrip.UnknownTensor` | src/formats/gguf.c:342-364 | every tensor accepted has one to four dimensions and a type the engine maps |
| `GgufRoundTrip.AlignmentIs` | src/formats/gguf.c:367-372 | the first entry named general.alignment gives the alignment if it is positive; otherwise it is 32 |
| `GgufRoundTrip.LargestEnd` | src/formats/gguf.c:394-395 | `data_bytes` is the largest end of a tensor in the section, or zero |
| `GgufRoundTrip.DataSection` | src/formats/gguf.c:367-398 | `data_start` is the least aligned offset at or after the header, and the end computed in 64 bits for every accepted tensor is inside the file |
| `GgufBounds.HollowArray` | src/formats/gguf.c:298-312 | an array entry of 2^61 eight-byte elements is accepted with no payload |
| `GgufBounds.ArraysIn` | src/formats/gguf.c:298-312 | a scalar array of an accepted header lies in the header if and only if its byte count does not wrap around |
| `GgufBounds.TensorsIn` | src/formats/gguf.c:342-393 | a tensor of an accepted header lies in the data section if and only if its stored offset, and the sum of start, offset and size, are below 2^63 |
| `GgufBounds.BeforeTheFile` | src/formats/gguf.c:350-393 | the header of one tensor stored at 2^64 - 1000000 is accepted, a million bytes before the data section |
| `GgufBounds.PastTheFile` | src/formats/gguf.c:350-393 | the header of one tensor stored at 2^63 - 1 is accepted: its end wraps around |
| `Bits.RoundUp` | src/formats/gguf.c:374-381 | for a value passing the power-of-two test, adding and clearing low bits gives the least multiple not below |
| `JsonScan.Scan.ReadStr` | src/io/k3_st.c:82-117 | the string scanner, escapes and capacity included, agrees with the character-by-character definition and always ends |
| `JsonScan.Scan.SkipValue` | src/io/k3_st.c:135-162 | skipping agrees with its definition for quoted, nested and bare values |
| `JsonScan.Scan.ReadHeader` | src/io/k3_st.c:231-335 | the in-place scan gives the list, or the refusal, of the header definition and always ends |
| `JsonRoundTrip.CharsBack` | src/io/k3_st.c:82-117 | every ASCII string comes back from its escaped form |
| `JsonRoundTrip.OverValue` | src/io/k3_st.c:146-158 | inside brackets any printed JSON value, nested and with any strings, is stepped over whole |
| `JsonRoundTrip.SkipBack` | src/io/k3_st.c:135-162 | skipping a printed value of any shape steps over exactly that value |
| `JsonRoundTrip.HeaderRoundTrip` | src/io/k3_st.c:231-335 | the header printed for any list of lines is read back line by line |
| `JsonRoundTrip.ShardRoundTrip` | tools/make_st_fixture.py:40-56 | scanning the header written for any tensors, with or without metadata and whatever integers are in it, recovers every name, dtype, shape and offset as far as 64 bits hold them |
| `StBounds.SaneRoundTrip` | tools/make_st_fixture.py:40-56 | tensors written in the data section come back unchanged, each at 8 + N + start and inside the file |
| `StBounds.EntriesIn` | src/io/k3_st.c:316-330 | a tensor of an accepted header lies in the data section if and only if 0 <= o0 <= o1 and 8 + N + o1 is below 2^63 |
| `StBounds.NegativeOffset` | src/io/k3_st.c:316-330 | the header of one tensor at offsets -1000000 and -999996 is accepted |
| `StBounds.NegativeSize` | src/io/k3_st.c:316-330 | so is one of shape [-1] at offsets 4 and 0 |
| `StBounds.EndWraps` | src/io/k3_st.c:316-330 | and one ending at 2^63 - 1 of the data section, whose end wraps around |
| `StBounds.RecordOf` | src/io/k3_st.c:316-334 | a tensor in the data section is a record the expert loader can read, ending inside the file |
| `StBounds.PackInput` | tools/pack_trunk.py:73-91 | tensors in their data sections are what the packer may be given; one that starts before its file is not |
| `StBounds.BinderInput` | src/io/k3_st.c:316-330 | a tensor in the data section is one the binder may be given, of as many elements as its shape says, if and only if they take fewer than 2^63 bytes |
| `NameIndex.Insert` | src/io/k3_st.c:417-429 | taking the slot a walk ended at keeps every entry reachable |
| `NameIndex.Absent` | src/io/k3_st.c:442-453 | an empty slot on the walk means the name is nowhere in the table |
| `NameIndex.Index.Probe` | src/io/k3_st.c:417-453 | every probe ends, wrapping included, at the name or at an empty slot |
| `NameIndex.Index.Build` | src/io/k3_st.c:411-429 | opening fails on a repeated name exactly when there is one |
| `NameIndex.Index.Find` | src/io/k3_st.c:442-453 | for every name and hash function the index answers what a linear search would |
| `Reader.Window` | src/io/k3_st.c:477-481 | the aligned window covers the range and exceeds it by at most two blocks |
| `Reader.ReadLoop` | src/io/k3_st.c:497-512 | whatever the device returns, the bytes counted are the file's, nothing else is touched, and a device that keeps going delivers all |
| `Reader.ReadAligned` | src/io/k3_st.c:457-495 | direct or buffered, the bytes reported lie at the payload offset |
| `Spans.ByteCount` | src/io/k3_load.c:76-85 | ranges cover as many bytes as their lengths exactly when they do not overlap |
| `Spans.Tiling` | tools/pack_trunk.py:85-91 | with extent equal to total length, no overlap and no foreign byte are equivalent |
| `Spans.LengthTestFooled` | src/io/k3_load.c:76-85 | the length test alone accepts overlap beside a gap |
| `ExpertLoad.Resolve` | src/io/k3_load.c:14-105 | resolving fails exactly when a tensor is missing, misshapen or in another shard; otherwise the run and the six slots are as recorded |
| `ExpertLoad.PairGroups` | src/io/k3_load.c:28-62 | packed and scale tensors are taken as a pair exactly when every row has one scale for each whole group of 32 elements |
| `ExpertLoad.PairRows` | src/io/k3_load.c:28-62 | so any of its rows is one the row kernels accept at group 32, within their buffer |
| `ExpertLoad.WholeRun` | src/io/k3_load.c:87-94 | one contiguous read puts every tensor at its slot |
| `ExpertLoad.LoadScattered` | src/io/k3_load.c:122-136 | six reads whose counts sum to the total put every tensor at its slot |
| `ExpertLoad.LoadDirect` | src/io/k3_load.c:107-147 | under any short reads a full-length return means all six tensors sit at their offsets past the payload offset |
| `Pack.PackTrunk` | tools/pack_trunk.py:73-141 | packing succeeds if and only if every layer has tensors, in one shard, contiguous and ending inside it; then every manifest row is aligned, inside the file, apart from the others, and leads to the shard's bytes |
| `Pack.NothingForeign` | tools/pack_trunk.py:85-91 | a packed run holds only bytes of its own tensors exactly when they do not overlap |
| `Pack.PackedForBinding` | tools/pack_trunk.py:120-137 | a name looked up in the packed run or in the shard leads to the same bytes |
| `Bind.Regions` | src/model/k3_bind.c:71-126 | blob regions are 8-aligned, in order, disjoint and in bounds |
| `Bind.Resolve` | src/model/k3_bind.c:71-126 | the plan resolves exactly when every request fits, with offsets, size and demotions as laid out |
| `Bind.BindLayer` | src/model/k3_bind.c:249-291 | every region of the blob holds its tensor, bf16 throughout or float32 throughout: its own words, or each element as float32 at its place |
| `Bind.WidenedShows` | src/io/k3_st.c:533-585 | element k of a widened tensor is the same word for float32, 65536 times the word for bf16, and the word or byte converted otherwise |
| `Bind.BoundView` | src/model/k3_bind.c:401-424 | a field bound from the run shows its tensor in the form the kernels read |
| `Bind.BoundReads` | src/model/k3_bind.c:401-424 | through a bound field a kernel reads the run's own bytes, or every element as float32: for bf16 the little-endian word in the upper half |
| `Bind.WidenRegions` | src/model/k3_bind.c:406-425 | widened regions are 8-aligned, in order, disjoint and in bounds |
| `Bind.DequantisedAt` | src/model/k3_bind.c:348-386 | a per-row int8 tensor read elementwise is, value by value, its row's own scale times its own byte |
| `Bind.BindMem` | src/model/k3_bind.c:320-443 | binding from memory, per-row int8 tensors included, succeeds exactly when every tensor is usable and the widen area is large enough, and tags the layer int8 exactly when a large matrix is; then every field reads so |
| `Bind.TagExactly` | src/model/k3_bind.c:427-437 | the tag of a bound layer describes all its large matrices if and only if int8 and bf16 are not mixed |
| `Bind.MixedAccepted` | src/model/k3_bind.c:427-437 | a layer that mixes them is accepted and tagged int8 |
| `WidenArea.MixedLayer` | src/model/k3_bind.c:163-245 | every layer plan can be so mixed |
| `Bind.SameTag` | src/model/k3_bind.c:427-437 | both binders can succeed only with the same storage tag |
| `Bind.BindBoth` | src/model/k3_bind.c:249-443 | when both binders succeed the tag is the same and every field shows the same bytes |
| `WidenArea.AreaSuffices` | src/model/k3_bind.c:307-318 | the reserved widen area is enough for every layer and configuration when the uncounted vectors are float32 |
| `WidenArea.UsedIs` | src/model/k3_bind.c:406-425 | what a layer uses of the area is the bytes of the vectors it widens, each rounded up to eight but the last |
| `WidenArea.BindReserved` | src/model/k3_bind.c:307-443 | binding with the reserved area succeeds exactly when the tensors are usable and that sum is within it |
| `WidenArea.AreaExactly` | src/model/k3_bind.c:307-318 | the area is enough for a layer however it is stored if and only if it holds all its float32 vectors widened |
| `WidenArea.AreaShort` | src/model/k3_bind.c:307-318 | a usable layer that needs 213552 bytes of the 4120 reserved |
| `Dot.RefDot` | src/kernels/kernel.c:85-132 | the 16-lane scalar dot, f32 or bf16, builds the operation tree, tail included, for every length |
| `Dot.VecDot` | src/kernels/kernel_avx2.c:64-148 | the four-register vector dot builds the same tree |
| `Dot.RefGroupDot` | src/quant/mxfp4.c:84-96 | the 8-lane scalar group dot builds its tree for every length |
| `Dot.VecGroupDot` | src/quant/mxfp4.c:98-118 | the two-register vector group dot builds the same tree |
| `Dot.Matmul` | src/kernels/kernel.c:158-197 | a row loop gives the same vector whichever kernel runs |
| `Dot.TreesAreSums` | src/kernels/kernel.c:85-132 | with exact arithmetic each tree is the dot product |
| `Mxfp4.E2M1IsFormat` | src/quant/mxfp4.c:47-50 | the element table is the E2M1 format of section 5.3.3 of the OCP Microscaling specification |
| `Mxfp4.E8M0IsFormat` | src/quant/mxfp4.c:55-67 | the scale table is the E8M0 format of section 5.4.1 of the same: one at 127, doubling with every step, and its NaN code zero |
| `Mxfp4.CountIs` | src/quant/mxfp4.c:137-138 | how many groups are visited in 32-bit arithmetic: none where n + group - 1 overflows |
| `Mxfp4.DotRow` | src/quant/mxfp4.c:130-169 | for every row whose expanded groups fit the 64-float buffer, the fused row dot builds one tree with either group kernel, NaN scales passed over, short last group included |
| `Mxfp4.DequantRow` | src/quant/mxfp4.c:177-202 | the dequantised row, group by group, low nibble first; nothing is written where n + group - 1 overflows |
| `Mxfp4.ElementAt` | src/quant/mxfp4.c:177-202 | element k of a dequantised row is its own half of its byte, even elements low, times the scale of group k / group |
| `Mxfp4.ScaleUpRow` | src/quant/mxfp4.c:177-202 | raising a group's scale byte by one doubles that group's elements and no others |
| `Mxfp4.ScaleUpDot` | src/quant/mxfp4.c:130-169 | and doubles that group's share of the fused dot |
| `Mxfp4.FusedIsDequantDot` | src/quant/mxfp4.c:130-202 | over the reals the fused dot equals the dot with the dequantised row when groups hold whole bytes or there is only one, within the buffer when the longest group is at most 64 |
| `Mxfp4.OddGroupDiffers` | src/quant/mxfp4.c:130-202 | for every odd group and longer row there is a row on which they differ, read within the buffer exactly when the group is at most 64 |
| `Mxfp4.BufferExceeded` | src/quant/mxfp4.c:153-160 | at group 128 and 128 elements the expanded group exceeds the buffer |
| `Mxfp4.FusedExactlyWhen` | src/quant/mxfp4.c:130-202 | the fused dot stays in its buffer and agrees with dequantise-then-dot on all rows of a length if and only if the longest group is at most 64, the group is even or covers the row, and an int holds n + group - 1 |
| `Half.Widen` | src/quant/q8_0.c:44-68 | the field-by-field conversion, normalising loop included, builds the word whose fields are the rebiased ones |
| `Half.ValueKept` | src/quant/q8_0.c:44-68 | half to single is exact for every finite half, zeros and subnormals included; infinities stay infinite and NaNs keep their bits |
| `Half.HalfShown` | src/io/k3_st.c:558-577 | a field stored in half precision and bound as float32 shows, element by element, those words |
| `Q4K.ScalesRoundTrip` | src/quant/q4_k.c:52-64 | unpacking inverts packing for all six-bit scales and mins |
| `Q4K.ScalesUseEveryBit` | src/quant/q4_k.c:52-64 | and packing inverts unpacking: no bit is unused or shared |
| `Q4K.RowBack` | src/quant/q4_k.c:52-99 | element i of a packed block is its own quant times its own sub-block's scale, less that sub-block's min |
| `Q4K.RowDot` | src/quant/kquant_avx2.c:85-135 | at the format's own scales and mins the row dot builds one tree with the scalar or the vector lanes |
| `Q4K.Dequant` | src/quant/q4_k.c:66-99 | every element is written in its place: the two f16 factors times the split six-bit scale and min, low nibbles for even sub-blocks and high for odd |
| `Q4K.ElementsOfFormat` | src/quant/q4_k.c:52-99 | the elements the kernels work with are, index by index, those of the format |
| `Q4K.SubTermIsSum` | src/quant/q4_k.c:101-177 | a sub-block's share is the dot with its dequantised elements, min term included |
| `Q4K.FusedIsFormatDot` | src/quant/q4_k.c:52-177 | over the reals the fused dot is the dot with the elements the format spells out |

## Left out

- The interiors of a token's matrix products, norms, l2norm, rope, decay and the KDA head update: each is one uninterpreted operation of its inputs, so nothing is claimed about what it computes, only what it is applied to and in which order.
- KV slices, recurrent blocks and convolution histories are values the loop replaces; the flat memory they share and its addressing are not modelled.
- `Forward.Pass`: gives every stage scratch of its own; that the shared scratch is large enough is `Scratch.DenseExactly`, stated apart from it.
- The draft model's own forward passes and snapshots: its proposals are arbitrary tokens; a failure of its passes aborts the run.
- Cache-only routing of the draft model (src/core/k3_ops.c:562-582) and the int8 matrix kernels.
- The logits dump at src/cli/k3_run.c:1322: `lg` may hold the draft's logits by then; exactness is stated about emitted tokens.
- Integer widths: indices, sizes and offsets are unbounded except in the GGUF reader and in the safetensors scanner, where they are wrapped; `eng_tensor_nbytes` is a parameter.
- `JsonRoundTrip.ShardRoundTrip`: names with zero or non-ASCII characters, which the scanner cuts short or replaces by question marks (src/io/k3_st.c:96-108), are not covered; nor are names of 512 bytes or more, which it refuses.
- `ExpertLoad.Resolve`, `Pack.PackTrunk`: work from tensors that lie in their data sections (`StBounds.EntriesIn` says which do).
- Sorting the shard files by name, and the tensor list's growth by doubling.
- Q6_K, and the `fast` kernels, which make no exactness claim.
- Floating-point rounding: the fused-equals-dequantised theorems, and those of `Mixing` and of conservation in `Residual`, are about real numbers.
- The streamer, the resident expert cache, the planner, the tokenizer and the command line.
