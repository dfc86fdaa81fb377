# sound-shader core, modelled in Dafny

sound-shader renders audio on the GPU: a user writes a GLSL function
`mainSound(idx, time)` and the program runs it as a compute shader, one
invocation per stereo frame, with any number of WAV files available to it as
"sound textures". This project models the two pieces of the repository that do
the bookkeeping around that call, and proves what they promise.

- **The audio-asset queue** (`src/hound_wrapper.rs`). `WrapperSamples` decodes a
  WAV payload through one of three iterators: 16-bit integer, 32-bit integer or
  32-bit float. Each has its own normalization. `WavTextureMaker` holds two FIFO
  queues:
  - `buffer`: the decoded samples;
  - `fft_buffer`: their short-time spectrum, made in whole windows of
    `sample_rate / 10` frames.

  `reserve(n)` appends `n` samples (zeros once the file is exhausted), then
  analyses the new frames. `next_buffer(len)` tops the queue up, splits `len`
  frames off the front of both queues and packs them into `[f32; 4]` texels.
  Module `HoundWrapper` (`hound_wrapper.dfy`):
  - the decoder and its selection are pure functions;
  - the reference behaviour of `reserve` and `next_buffer` is given by the pure
    functions `ReserveSpec` and `NextBufferSpec`;
  - `WavTextureMaker` is a class whose methods update its fields in place. Each
    method is proved equal to its reference function.
- **The frame cursor and program/binding assembly** (`src/wgpu_wrapper.rs`).
  - Module `ShaderText` (`shader_text.dfy`) models the generated GLSL text:
    - the fixed prefix and suffix;
    - the per-asset binding blocks and fetch-function blocks;
    - `read_source`'s two appending loops, proved to build `ProgramText`.

    A small declaration reader reads the binding blocks back, to show which
    bindings they declare.
  - Module `Bindings` (`bindings.dfy`) models:
    - the bind-group layout entries;
    - `buffers_to_entries`;
    - the per-asset sample count;
    - `sound_storage_buffers`, as a method over the `WavTextureMaker` objects.

    It proves that asset `k`'s storage buffer and uniform land on bindings `2k`
    and `2k+1`, both in the layout and in the shader text.
  - Module `Director` (`director.dfy`) models `GPUDirector`. It is a class with
    the `u32` frame cursor and a ghost history of `render` calls.
    - `render` uploads the cursor's old value, advances it by `buffer_length / 2`
      and produces the sound buffers.
    - It then returns what the GPU writes. The GPU is a caller-supplied `Kernel`
      that computes one invocation's `vec2`.

Shared pieces:
- `wrappers.dfy`: `Option`, `Result`, and `Outcome`, where `Panicked` stands for
  a Rust panic.
- `formatting.dfy`: the decimal text that `format!("{}")` writes for an unsigned
  integer, and reading it back.
- `arithmetic.dfy`: small facts about integer division and remainder.

Panics are modelled as outcomes, not as preconditions. The model covers each
of these panics:
- a zero channel count (the division at `src/hound_wrapper.rs:90`);
- a zero analysis window with pending frames (`% 0` at `:92`);
- a channel count other than 1 or 2;
- an out-of-range `split_off`;
- a failed mapping of the staging buffer.

After a panic, the state is whatever the source had changed up to that point.

The per-asset sample count is truncated by `as usize`
(`src/wgpu_wrapper.rs:333-334`), not rounded, and the model truncates too.

The model also keeps one behaviour of the code as written. For a stereo file,
the top-up in `next_buffer` fills the sample queue to `len` samples, not `len`
frames (`src/hound_wrapper.rs:112-113`), while the split at `:115` needs
`len * channels`. No other code shown tops the queue up: the only caller of
`reserve` is `next_buffer`. So a stereo request whose queue holds fewer than
`len` samples always panics in `split_off` (`StereoTopUpPanics`). More
generally, `NextBufferSplits` states exactly when `next_buffer` panics.

## Model

| member | source | states |
|---|---|---|
| HoundWrapper.TestDivisors | tests/tests.rs:96-102 | the divisor for 16-bit samples is 2^15 and for 32-bit samples 2^31, the values the tests normalize by |
| HoundWrapper.NormalizedRange | src/hound_wrapper.rs:19-26 | a sample within the signed range of its bit depth normalizes into [-1, 1) |
| HoundWrapper.Decoded | src/hound_wrapper.rs:16-27 | the normalized stream a decoder still yields has one value per remaining raw sample |
| HoundWrapper.Next | src/hound_wrapper.rs:16-27 | `next` gives `None` exactly when the decoder is exhausted, and then changes nothing; otherwise it gives the first normalized value and leaves a decoder of the same variant and bit depth that yields the rest |
| HoundWrapper.Advance | src/hound_wrapper.rs:85-88 | pulling `n` samples keeps the decoder variant and leaves `max(remaining - n, 0)` samples |
| HoundWrapper.AdvanceDecoded | src/hound_wrapper.rs:85-88 | after pulling `n <= remaining` samples, the decoder yields exactly the old stream without its first `n` values |
| HoundWrapper.NextAfterAdvance | src/hound_wrapper.rs:85-88 | the `i`-th pull yields the `i`-th decoded value, or `None` past the end, and advances by exactly one |
| HoundWrapper.Padded | src/hound_wrapper.rs:85-88 | the `n` values `reserve` appends: entry `i` is the `i`-th decoded sample while the file lasts, and 0.0 after it |
| HoundWrapper.PaddedStep | src/hound_wrapper.rs:85-88 | the padded stream grows one pull at a time, as the `map` over `0..len` does |
| HoundWrapper.SelectDecoder | src/hound_wrapper.rs:52-61 | `F32` exactly for float files, `I32` exactly for integer files of more than 16 bits, and `I16` exactly for other integer files; integer decoders keep the bit depth and all samples |
| HoundWrapper.NormalizationRule | src/hound_wrapper.rs:16-27 | for the selected decoder, integer sample `i` decodes to `x / 2^(bps-1)` and float sample `i` passes through unchanged |
| HoundWrapper.Process | src/hound_wrapper.rs:93-106 | the forward transform of a whole number of windows preserves length |
| HoundWrapper.ProcessChunk | src/hound_wrapper.rs:93-106 | window `c` of the output is the transform of window `c` of the input alone |
| HoundWrapper.PairUp | src/hound_wrapper.rs:100-103 | stereo samples chunked in twos become `(left, right)` complex values, one per frame |
| HoundWrapper.MonoUp | src/hound_wrapper.rs:96-99 | mono samples as `(x, 0)` complex values; its meaning for the frames after those already analysed is stated by `SpectralInput` and used in `SpectralGrowth` |
| HoundWrapper.SpectralInvariant | src/hound_wrapper.rs:90 | the queue invariant: no more spectral entries than whole frames queued, so the subtraction at `:90` cannot underflow. `ReserveSpec`, `SpectralUpdate`, `SplitKeepsInvariant` and `NextBufferSpec` prove that `reserve` and `next_buffer` keep it |
| HoundWrapper.SpectralInput | src/hound_wrapper.rs:95-105 | the transform input for frames `from..from+count`: mono frame `x` as `(x, 0)`, stereo frame as `(left, right)` |
| HoundWrapper.SpectralUpdate | src/hound_wrapper.rs:89-107 | the spectral step panics on a zero channel count, keeps the queue invariant, and only appends to the spectral queue |
| HoundWrapper.SpectralGrowth | src/hound_wrapper.rs:89-107 | with `delta` = frames queued minus spectral entries and `unit` = `sample_rate / 10`: the step panics exactly when `delta > unit` and the window is zero or there are more than two channels. The queue is unchanged when `delta <= unit`. Otherwise it grows by `delta - delta % unit`, a positive multiple of `unit`, and the new entries are the windowed transform of exactly the frames following those already analysed |
| HoundWrapper.SpectralLag | src/hound_wrapper.rs:89-92 | after a step that returns, at most one window of queued frames is left unanalysed |
| HoundWrapper.ReserveSpec | src/hound_wrapper.rs:78-109 | `reserve(len)` grows the sample queue by exactly `len` entries, keeping the old ones as a prefix. Each new entry is the next decoded sample, or 0.0 once the file is exhausted. The decoder advances by `len`. The spectral queue becomes the spectral step's result, or is unchanged on a panic. The invariant holds afterwards |
| HoundWrapper.TopUp | src/hound_wrapper.rs:112-114 | no change when at least `len` samples are queued; otherwise the queue is topped up to exactly `len` samples. The invariant and both prefixes are kept |
| HoundWrapper.PackMono | src/hound_wrapper.rs:122-126 | zip length `min`, texel `i` is `[x_i, 0, re_i, im_i]` |
| HoundWrapper.PackStereo | src/hound_wrapper.rs:127-131 | zip length `min(frames, entries)`, texel `i` is `[l_i, r_i, re_i, im_i]` |
| HoundWrapper.NextBufferSpec | src/hound_wrapper.rs:111-134 | when `next_buffer(len)` returns, it yields exactly `len` texels and leaves queues that keep the invariant |
| HoundWrapper.SplitSpec | src/hound_wrapper.rs:115-134 | when the split and packing return, they yield exactly `len` texels and keep the invariant |
| HoundWrapper.Pack | src/hound_wrapper.rs:121-133 | packing returns exactly for one or two channels, and then has one texel per spectral entry when the halves match |
| HoundWrapper.SplitKeepsInvariant | src/hound_wrapper.rs:115-120 | removing `len` frames and `len` spectral entries keeps the invariant and the number of unanalysed frames |
| HoundWrapper.NextBufferSplits | src/hound_wrapper.rs:111-134 | `next_buffer` panics exactly when the top-up panics, fewer than `len*channels` samples or fewer than `len` spectral entries remain after it, or the channel count is not 1 or 2. Otherwise the remaining queues are exactly the suffixes of the topped-up queues, the decoder is unchanged by the split, and mono texel `i` is `[x_i, 0, re_i, im_i]` while stereo texel `i` is `[l_i, r_i, re_i, im_i]` |
| HoundWrapper.NextBufferReturns | src/hound_wrapper.rs:111-134 | with one or two channels and enough queued samples and spectral entries, `next_buffer` does not panic |
| HoundWrapper.StereoTopUpPanics | src/hound_wrapper.rs:112-120 | a stereo request that needs the top-up always panics, because the top-up reaches only `len` samples and the split needs `2*len` |
| HoundWrapper.ReserveLag | src/hound_wrapper.rs:89-92 | after a `reserve` that returns, at most one window of frames is unanalysed |
| HoundWrapper.NextBufferLag | src/hound_wrapper.rs:111-120 | `next_buffer` preserves the bound of at most one window of unanalysed frames |
| HoundWrapper.WavTextureMaker.constructor | src/hound_wrapper.rs:62-67 | a new maker has the file's header, the selected decoder and two empty queues |
| HoundWrapper.WavTextureMaker.TryNew | src/hound_wrapper.rs:48-68 | an error opening the file is returned as its message; otherwise a fresh maker as above |
| HoundWrapper.WavTextureMaker.Reserve | src/hound_wrapper.rs:78-109 | the fields after the call, and whether it panicked, are exactly `ReserveSpec`; the invariant is kept |
| HoundWrapper.WavTextureMaker.Extend | src/hound_wrapper.rs:85-88 | the sample queue gains exactly the padded stream, the decoder advances by `len`, and the spectral queue is untouched |
| HoundWrapper.WavTextureMaker.NextBuffer | src/hound_wrapper.rs:111-134 | the result and the fields after the call are exactly `NextBufferSpec`; the invariant is kept when it returns |
| HoundWrapper.WavTextureMaker.SplitOff | src/hound_wrapper.rs:115-133 | the result and the fields after the call are exactly `SplitSpec` |
| Formatting.Decimal | src/wgpu_wrapper.rs:252-266 | `{}` of an unsigned integer is a non-empty run of digits without a leading zero |
| Formatting.DecimalRoundTrip | src/wgpu_wrapper.rs:252-266 | reading the decimal text back gives the number |
| Formatting.DecimalInjective | src/wgpu_wrapper.rs:252-266 | different indices give different decimal texts |
| Formatting.ParseNatDecimal | src/wgpu_wrapper.rs:252-266 | a number written in decimal and followed by non-digits is read back, leaving that text |
| ShaderText.BindingShader | src/wgpu_wrapper.rs:252-266 | the exact `format!` text of asset `k`'s binding blocks; `BindingShaderDeclares` reads it back |
| ShaderText.FetchFunction | src/wgpu_wrapper.rs:268-287 | the exact `format!` text of asset `k`'s fetch functions; `FetchFunctionAccessors` splits it into its three accessors |
| ShaderText.ProgramText | src/wgpu_wrapper.rs:187-190 | the program text: prefix, binding blocks `0..n-1`, fetch blocks `0..n-1`, user code, suffix. `ReadSource` builds it, and `AssemblyEnds`, `AssemblyFirstPass` and `AssemblySecondPass` locate each part in it |
| ShaderText.ParseDeclarationText | src/wgpu_wrapper.rs:252-266 | the declaration reader recovers any readable `layout(set, binding) kind Name { ... };` declaration and the text after it |
| ShaderText.DeclarationsReadable | src/wgpu_wrapper.rs:252-266 | the two blocks of asset `k` have names without spaces and member lists without braces |
| ShaderText.BindingShaderText | src/wgpu_wrapper.rs:252-266 | `sound_storage_bindingshader(k)` is the buffer declaration of asset `k` followed by its uniform declaration and a tab |
| ShaderText.BindingShaderDeclares | src/wgpu_wrapper.rs:252-266 | that text declares buffer `AudioTexture{k}` at set 1, binding `2k`, then uniform `AudioTextureInfo{k}` at set 1, binding `2k+1`, and nothing else |
| ShaderText.BindingShaderInjective | src/wgpu_wrapper.rs:252-266 | different assets get different binding blocks |
| ShaderText.SoundTextureText | src/wgpu_wrapper.rs:270-275 | the first function is `soundTexture{k}`, interpolating between the `.xy` halves of `iAudioTexture{k}` at rate `iChannelSampleRate{k}` |
| ShaderText.TexelFetchText | src/wgpu_wrapper.rs:276-279 | the second function is `soundTexelFetch{k}`, returning the `.xy` half of a texel of `iAudioTexture{k}` |
| ShaderText.DFTFetchText | src/wgpu_wrapper.rs:280-283 | the third function is `soundDFTFetch{k}`, returning the `.zw` half |
| ShaderText.FetchFunctionAccessors | src/wgpu_wrapper.rs:268-287 | `sound_storage_fetchfunction(k)` is exactly those three accessors, in that order, each reading only asset `k`'s texture and rate |
| ShaderText.BlockAt | src/wgpu_wrapper.rs:188-189 | in the concatenation of blocks `0..n-1`, block `k` sits right after blocks `0..k-1` |
| ShaderText.AppendBlocks | src/wgpu_wrapper.rs:188-189 | one `for_each` pass appends blocks `0..n-1` to its start text, in order |
| ShaderText.ReadSource | src/wgpu_wrapper.rs:187-190 | the text `read_source` builds with its loops is `ProgramText`: prefix, binding blocks, fetch blocks, user code, suffix |
| ShaderText.AssemblyEnds | src/wgpu_wrapper.rs:187-190 | the program text begins with the prefix and ends with the user code followed by the suffix |
| ShaderText.AssemblyFirstPass | src/wgpu_wrapper.rs:188 | the binding block of asset `k` sits right after the prefix and the binding blocks of the assets before it |
| ShaderText.AssemblySecondPass | src/wgpu_wrapper.rs:189 | the fetch block of asset `k` sits right after all binding blocks and the fetch blocks before it |
| Bindings.LayoutEntries | src/wgpu_wrapper.rs:289-316 | `2n` entries; entry `2i` is Storage at binding `2i` and entry `2i+1` is Uniform at binding `2i+1`, with `u32` arithmetic |
| Bindings.LayoutNumbering | src/wgpu_wrapper.rs:289-316 | for counts that do not wrap, entry `j` has binding `j`, so the bindings are distinct and cover `0..2n-1` |
| Bindings.CreateBindGroupLayouts | src/wgpu_wrapper.rs:148-179 | exactly two layouts: group 0 is output storage at 0 and device info at 1, and group 1 holds two entries per asset (count cast to `u32`) |
| Bindings.BuffersToEntries | src/wgpu_wrapper.rs:355-366 | one entry per buffer, in order; buffer `i` at binding `i as u32` |
| Bindings.SampleCount | src/wgpu_wrapper.rs:333-334 | the number of samples pulled is the truncated quotient `floor(frames * asset_rate / device_rate)`, saturating at `usize::MAX`, with the float cast's result for a zero device rate |
| Bindings.SampleCountSameRate | src/wgpu_wrapper.rs:333-334 | an asset at the device's rate pulls exactly `frames` samples |
| Bindings.SampleCountMonotone | src/wgpu_wrapper.rs:333-334 | a longer render never pulls fewer samples |
| Bindings.AssetBuffers | src/wgpu_wrapper.rs:327-350 | for one asset: a storage buffer of `SampleCount` texels, then the uniform `[sample_rate, channels]`; the asset's queues keep their invariant |
| Bindings.AssetBuffersPull | src/wgpu_wrapper.rs:338 | the storage buffer is exactly what `next_buffer(SampleCount)` returns, and panics exactly when it does |
| Bindings.CollectUpTo | src/wgpu_wrapper.rs:324-352 | collecting over the first `i` assets touches `i` states and, when it returns, yields two buffers per asset |
| Bindings.Collect | src/wgpu_wrapper.rs:324-352 | the same over all assets |
| Bindings.CollectReturns | src/wgpu_wrapper.rs:324-352 | the collection returns exactly when no asset before the end panicked |
| Bindings.CollectStateAt | src/wgpu_wrapper.rs:324-352 | asset `k` ends in its served state if every asset before it returned, and otherwise is untouched |
| Bindings.CollectOrder | src/wgpu_wrapper.rs:324-352 | in a returned collection, buffers `2k` and `2k+1` are asset `k`'s storage and uniform, in asset order |
| Bindings.CollectPanicked | src/wgpu_wrapper.rs:324-352 | after the first panic, the remaining assets keep their states |
| Bindings.ServeAll | src/wgpu_wrapper.rs:324-352 | one serving step per asset, each returning two buffers |
| Bindings.BuffersSpec | src/wgpu_wrapper.rs:318-353 | `sound_storage_buffers` updates one state per asset, and when it returns yields two buffers per asset |
| Bindings.BuffersKeepValid | src/wgpu_wrapper.rs:318-353 | a returning production leaves every asset's queues satisfying the invariant |
| Bindings.BindingAgreement | src/wgpu_wrapper.rs:252-366 | for asset `k`, the agreement across all four numberings. Bind entry `2k` is its storage buffer, with exactly the `next_buffer(SampleCount)` texels, at binding `2k`, where the layout has Storage and the shader text declares buffer `AudioTexture{k}`. Entry `2k+1` is its `[sample_rate, channels]` uniform at binding `2k+1`, where the layout has Uniform and the text declares uniform `AudioTextureInfo{k}` |
| Bindings.AssetsOf | src/wgpu_wrapper.rs:324-332 | the header and queues of each asset object, in order |
| Bindings.CollectAdvances | src/wgpu_wrapper.rs:324-352 | a returning asset appends its two buffers and its new state |
| Bindings.CollectStops | src/wgpu_wrapper.rs:324-352 | a panicking asset ends the collection: the assets before it keep their served states, it keeps the state reached at the panic, and those after it are untouched |
| Bindings.ServeAsset | src/wgpu_wrapper.rs:326-350 | serving one object gives exactly `AssetBuffers` and its new queues |
| Bindings.SoundStorageBuffers | src/wgpu_wrapper.rs:318-353 | the buffers returned and every asset's new queues are exactly `BuffersSpec` of the assets' old states |
| Bindings.ServesCollect | src/wgpu_wrapper.rs:324-352 | steps described one asset at a time are the whole serving sequence, and collecting them is `BuffersSpec` |
| Bindings.ServeAllServes | src/wgpu_wrapper.rs:324-352 | the serving sequence is described one asset at a time |
| Bindings.ServeInOrder | src/wgpu_wrapper.rs:324-352 | the loop over the objects returns exactly the collection of the serving steps and leaves every object in the collected state |
| Bindings.ServeStep | src/wgpu_wrapper.rs:326-350 | serving object `i` performs exactly step `i` |
| Director.Timeline | src/wgpu_wrapper.rs:80 | the exact cursor after a history of calls; `TimelineAppend` adds each call's half length, and `GPUDirector.Render` keeps `base_frame` equal to it modulo 2^32 |
| Director.TimelineAppend | src/wgpu_wrapper.rs:80 | each call moves the cursor on by `buffer_length / 2`, so from 0 it is the sum of the halves |
| Director.FramesContiguous | src/wgpu_wrapper.rs:77-80 | consecutive calls render adjacent frame ranges: one ends where the next begins |
| Director.TimelineMonotone | src/wgpu_wrapper.rs:80 | the cursor never moves backwards over a history |
| Director.FramesDisjoint | src/wgpu_wrapper.rs:77-80 | the frame ranges of two different calls do not overlap, and the earlier call's comes first |
| Director.Output | src/wgpu_wrapper.rs:18-24 | the `buffer_length` floats read back: floats `2i` and `2i+1` are the left and right value of invocation `i`, at frame `(base + i) mod 2^32`; an odd last float stays 0 |
| Director.OutputWrapsBase | src/wgpu_wrapper.rs:21 | only the cursor modulo 2^32 matters to what the shader renders |
| Director.Submit | src/wgpu_wrapper.rs:95-129 | the GPU half of one call, given the uniform and the produced buffers; `SubmitOutcome` states what it returns and when it panics |
| Director.SubmitOutcome | src/wgpu_wrapper.rs:95-129 | a call fails exactly when producing the sound buffers or mapping the staging buffer fails. Otherwise it uploads `[sample_rate, cursor]`, binds the sound buffers at `0, 1, 2, ...` in production order, dispatches `buffer_length / 2` invocations, copies `4 * buffer_length` bytes and returns the floats the kernel writes from the cursor on |
| Director.GPUDirector.constructor | src/wgpu_wrapper.rs:36-52 | a new director has the given assets and code, an empty history and `base_frame` 0 |
| Director.GPUDirector.Render | src/wgpu_wrapper.rs:65-130 | `render` records the call in the history and advances `base_frame` by `buffer_length / 2` modulo 2^32, to the sum of the halves of all calls. Its uniform carries the value before the call. It serves the assets exactly as `sound_storage_buffers` does and leaves them in the collected states. Its result is `Submit` of those. The invariant is kept when it returns |
| Director.GPUDirector.Produce | src/wgpu_wrapper.rs:95-97 | the sound buffers and the assets' new states are the collection of the serving steps |
| Director.GPUDirector.Advance | src/wgpu_wrapper.rs:80 | the cursor moves on by `buffer_length / 2` in `u32` arithmetic and still equals the history's total modulo 2^32 |
| Director.GPUDirector.RenderKeepsValid | src/wgpu_wrapper.rs:95-96 | after a returning production, every asset still satisfies its invariant |

## Left out

- GPU plumbing is left out because it is foreign API. This covers:
  - device and queue creation (`init_device`, `from_default_device`);
  - `create_output_buffers`, the bind groups and the command encoder;
  - `map_async` and `poll`;
  - pipeline creation.

  The compute pass is the `Kernel` parameter. The outcome of mapping the staging
  buffer is the `mapOk` parameter.
- `glsl_to_wgsl` and the naga compiler's parse, validation and write panics are
  left out. Only the program text and its indices are modelled, not the meaning
  of the GLSL.
- The Fourier transform's numerics are left out. `Transform` is a
  length-preserving function supplied by the caller and applied window by window.
- `f32` and `f64` rounding is left out. Samples, the normalization division and
  the resampling quotient are exact reals and rationals.
  - `SampleCount` is exact only while the f64 product is exact, so above 2^53
    the model can differ from the program.
- WAV I/O is left out: opening the file, the header print at
  `src/hound_wrapper.rs:51`, and hound's own decoding and its `unwrap` on decode
  errors. A file is an already-decoded header plus raw samples.
- `WrapperSamples::size_hint`: the iterator's length is `Remaining`, and nothing
  else uses the hint.
- Locking is left out: `Mutex`, `Arc`, poisoning and concurrent access. The
  access is sequential.
  - Bindings.SoundStorageBuffers: requires the asset objects to be distinct,
    because the source's `Arc`s could alias the same maker. Two entries sharing
    one maker would be served twice in turn, and that aliasing is not modelled.
  - Director.GPUDirector.constructor: requires the same distinctness, for the
    same reason.
  - Director.GPUDirector.Render: requires the same distinctness, for the same
    reason.
- Director.GPUDirector.Render: the source advances `base_frame` before it
  produces the sound buffers. The model produces first. The two steps touch
  disjoint state, so the order does not matter.
- Director.GPUDirector.Render: `base_frame += buffer_length / 2` wraps modulo
  2^32, as a release build does. A debug build would panic on overflow, and that
  panic is not modelled.
- Director.GPUDirector.Render: a panic in the middle of a call leaves the
  director as the source leaves it. `Valid` is promised only when the call
  returns.
- Director.GPUDirector.constructor: the compiled pipeline is left out. The model
  keeps `program`, defined as `ProgramText(code, |assets|)`, which
  `ShaderText.ReadSource` is proved to build. It likewise keeps `layouts`,
  defined as `CreateBindGroupLayouts(|assets|)`.
- Bindings.LayoutEntries: `i * 2` and `i * 2 + 1` (`src/wgpu_wrapper.rs:294`,
  `:304`) wrap modulo 2^32, as a release build does. A debug build would panic on
  that overflow, and that panic is not modelled.
- HoundWrapper.SplitSpec: `len * channels` (`src/hound_wrapper.rs:115`) is
  unbounded in the model. The source's `usize` product would panic on overflow in
  a debug build, or wrap in a release build. Neither is modelled.
- HoundWrapper.NextBufferSpec: the same `len * channels` product is unbounded, for
  the same reason.
- Bindings.LayoutNumbering: the ordered numbering is proved only up to 2^31
  assets. The larger counts where the `u32` binding numbers wrap are described by
  `LayoutEntries` but not by this lemma.
- The `println!("not enough textures!")` at `src/wgpu_wrapper.rs:335-337` is
  output only and is left out.
- `WavTextureMaker::spec` is the const field `spec`. `buffer_len` is the
  function `BufferLen`. Neither needs a contract of its own.
- `src/cpal_wrapper.rs` (audio-device negotiation) is not part of this model.
- `src/lib.rs` (`play`, threads and streaming; it calls an older
  `GPUDirector::new`) is not part of this model.
- `src/main.rs`, `examples/*.rs` and `tests/tests.rs` are drivers. The tests are
  cited only for the two divisors.
