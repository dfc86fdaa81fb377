/**
 * `GPUDirector` (src/wgpu_wrapper.rs): the object that owns the compiled compute
 * pipeline, the two bind-group layouts, the sound assets and the running frame
 * cursor, and whose `render` call produces one block of interleaved stereo
 * samples.  The GPU itself is a parameter: `Kernel` is what one invocation of the
 * user's `mainSound` writes, given everything the generated shader hands it.
 */
module Director {
  import opened Wrappers
  import opened Arithmetic
  import opened HoundWrapper
  import opened ShaderText
  import opened Bindings

  // ------------------------------------------------------------------
  // The frame cursor
  // ------------------------------------------------------------------

  /** Frames consumed by a history of `render(_, buffer_length)` calls: `buffer_length / 2` each. */
  function Timeline(lengths: seq<nat>): nat
    decreases |lengths|
  {
    if lengths == [] then 0 else Timeline(lengths[..|lengths| - 1]) + lengths[|lengths| - 1] / 2
  }

  /** One more call moves the cursor on by half its buffer length. */
  lemma TimelineAppend(lengths: seq<nat>, len: nat)
    ensures Timeline(lengths + [len]) == Timeline(lengths) + len / 2
  {
    assert (lengths + [len])[..|lengths|] == lengths;
  }

  /** The frame range `[start, end)` that call `c` of a history renders (before the 32-bit wrap). */
  function Frames(lengths: seq<nat>, c: nat): (r: (nat, nat))
    requires c < |lengths|
  {
    (Timeline(lengths[..c]), Timeline(lengths[..c]) + lengths[c] / 2)
  }

  /** A call ends exactly where the next one starts: no frame is skipped. */
  lemma FramesContiguous(lengths: seq<nat>, c: nat)
    requires c + 1 < |lengths|
    ensures Frames(lengths, c).1 == Frames(lengths, c + 1).0
    ensures Frames(lengths, c).0 <= Frames(lengths, c).1
  {
    assert lengths[..c + 1] == lengths[..c] + [lengths[c]];
    TimelineAppend(lengths[..c], lengths[c]);
  }

  lemma {:induction false} TimelineMonotone(lengths: seq<nat>, c: nat, d: nat)
    requires c <= d <= |lengths|
    ensures Timeline(lengths[..c]) <= Timeline(lengths[..d])
    decreases d - c
  {
    if c < d {
      TimelineMonotone(lengths, c, d - 1);
      assert lengths[..d] == lengths[..d - 1] + [lengths[d - 1]];
      TimelineAppend(lengths[..d - 1], lengths[d - 1]);
    }
  }

  /** Earlier calls render earlier frames: the ranges of two different calls do not overlap. */
  lemma FramesDisjoint(lengths: seq<nat>, c: nat, d: nat)
    requires c < d < |lengths|
    ensures Frames(lengths, c).1 <= Frames(lengths, d).0
  {
    assert lengths[..c + 1] == lengths[..c] + [lengths[c]];
    TimelineAppend(lengths[..c], lengths[c]);
    TimelineMonotone(lengths, c + 1, d);
  }

  // ------------------------------------------------------------------
  // What the compute pass writes
  // ------------------------------------------------------------------

  /**
   * What invocation `index` of the shader's `main` passes on: its index, the frame
   * `iBaseFrame + idx` (a wrapping `uint` sum), the uniform sample rate, and the
   * sound bindings of this call.
   */
  datatype Invocation = Invocation(index: nat, frame: nat, sampleRate: nat, sound: seq<BindEntry>)

  /** One execution of `mainSound`: the `vec2` it stores at `output[idx]`. */
  type Kernel = Invocation -> (real, real)

  /** Invocation `i` of a pass that starts at frame `base`. */
  function Sample(kernel: Kernel, sampleRate: nat, base: nat, sound: seq<BindEntry>, i: nat): (real, real) {
    kernel(Invocation(i, (base + i) % U32_MODULUS, sampleRate, sound))
  }

  /**
   * The `len` floats copied back from the zero-initialised storage buffer after
   * `len / 2` invocations each stored one `vec2` (left then right).
   */
  function Output(kernel: Kernel, sampleRate: nat, base: nat, sound: seq<BindEntry>, len: nat): (r: seq<real>)
    ensures |r| == len
    ensures forall i :: 0 <= i < len / 2 ==>
      r[2 * i] == Sample(kernel, sampleRate, base, sound, i).0
      && r[2 * i + 1] == Sample(kernel, sampleRate, base, sound, i).1
    ensures len % 2 == 1 ==> r[len - 1] == 0.0
  {
    seq(len, j requires 0 <= j < len =>
      if j / 2 < len / 2 then
        (if j % 2 == 0 then Sample(kernel, sampleRate, base, sound, j / 2).0
         else Sample(kernel, sampleRate, base, sound, j / 2).1)
      else 0.0)
  }

  /** Only the cursor's residue modulo 2^32 matters: the uniform may carry the wrapped value. */
  lemma OutputWrapsBase(kernel: Kernel, sampleRate: nat, base: nat, sound: seq<BindEntry>, len: nat)
    ensures Output(kernel, sampleRate, base % U32_MODULUS, sound, len) == Output(kernel, sampleRate, base, sound, len)
  {
    forall i | 0 <= i < len / 2
      ensures Sample(kernel, sampleRate, base % U32_MODULUS, sound, i) == Sample(kernel, sampleRate, base, sound, i)
    {
      ModAdd(base, i, U32_MODULUS);
    }
    var r, r' := Output(kernel, sampleRate, base % U32_MODULUS, sound, len), Output(kernel, sampleRate, base, sound, len);
    forall j | 0 <= j < len
      ensures r[j] == r'[j]
    {
      if j / 2 < len / 2 {
        assert j == 2 * (j / 2) || j == 2 * (j / 2) + 1;
      }
    }
  }

  /** What one `render` call submits and returns. */
  datatype Rendered = Rendered(
    deviceInfo: seq<nat>,          // the `DeviceInfo` uniform: `[sample_rate, base_frame]`
    soundEntries: seq<BindEntry>,  // bind group 1
    workgroups: nat,               // `dispatch(buffer_length / 2, 1, 1)`
    copyBytes: nat,                // bytes copied to the staging buffer
    output: seq<real>)             // the returned `Vec<f32>`

  /**
   * The GPU half of `render`, once the uniform and the sound buffers are known:
   * a panic while producing the buffers, or a failed mapping of the staging
   * buffer, ends the call; otherwise `buffer_length / 2` invocations run on the
   * uniform's frame and the whole output buffer is read back.
   */
  function Submit(deviceInfo: seq<nat>, sound: Outcome<seq<GpuBuffer>>, bufferLength: nat, kernel: Kernel, mapOk: bool): Outcome<Rendered>
    requires |deviceInfo| == 2
  {
    if sound.Panicked? || !mapOk then Panicked
    else
      var entries := BuffersToEntries(sound.value);
      Returned(Rendered(deviceInfo, entries, bufferLength / 2, bufferLength * 4,
        Output(kernel, deviceInfo[0], deviceInfo[1], entries, bufferLength)))
  }

  /**
   * What a call whose uniform carries the wrapped cursor `start % 2^32` returns:
   * it fails exactly when the production or the mapping fails, and otherwise
   * invocation `i` renders frame `(start + i) mod 2^32` with this call's sound
   * entries, numbered from 0 in production order.
   */
  lemma SubmitOutcome(sampleRate: nat, start: nat, sound: Outcome<seq<GpuBuffer>>, bufferLength: nat, kernel: Kernel, mapOk: bool)
    ensures var r := Submit([sampleRate, start % U32_MODULUS], sound, bufferLength, kernel, mapOk);
      && (r.Returned? <==> sound.Returned? && mapOk)
      && (r.Returned? ==>
        && r.value.deviceInfo == [sampleRate, start % U32_MODULUS]
        && r.value.soundEntries == BuffersToEntries(sound.value)
        && (forall k :: 0 <= k < |sound.value| ==> r.value.soundEntries[k] == BindEntry(k % U32_MODULUS, sound.value[k]))
        && r.value.workgroups == bufferLength / 2
        && r.value.copyBytes == 4 * bufferLength
        && r.value.output == Output(kernel, sampleRate, start, r.value.soundEntries, bufferLength))
  {
    if sound.Returned? && mapOk {
      OutputWrapsBase(kernel, sampleRate, start, BuffersToEntries(sound.value), bufferLength);
    }
  }

  class GPUDirector {
    const assets: seq<WavTextureMaker>
    /** The user's `mainSound` source the pipeline was built from. */
    const code: string
    /** `create_bind_group_layouts(device, sound_storages.len())`. */
    const layouts: seq<seq<LayoutEntry>> := CreateBindGroupLayouts(|assets|)
    /** The text `read_source` compiles into the pipeline (`ShaderText.ReadSource` builds exactly it). */
    const program: string := ProgramText(code, |assets|)
    var baseFrame: nat
    /** Buffer lengths of every `render` call so far. */
    ghost var requested: seq<nat>

    /** The cursor is the (wrapped) number of frames rendered so far; the assets are sound. */
    ghost predicate Valid()
      reads this, assets
    {
      baseFrame == Timeline(requested) % U32_MODULUS && AssetsSound()
    }

    /** Distinct asset objects, each with its queues consistent. */
    ghost predicate AssetsSound()
      reads assets
    {
      && (forall i, j :: 0 <= i < j < |assets| ==> assets[i] != assets[j])
      && (forall i :: 0 <= i < |assets| ==> assets[i].Valid())
    }

    /** `GPUDirector::new`: layouts for the assets, the pipeline's shader text, cursor at frame 0. */
    constructor(code: string, assets: seq<WavTextureMaker>)
      requires forall i, j :: 0 <= i < j < |assets| ==> assets[i] != assets[j]
      requires forall i :: 0 <= i < |assets| ==> assets[i].Valid()
      ensures this.assets == assets && this.code == code
      ensures baseFrame == 0 && requested == []
      ensures Valid()
    {
      this.assets := assets;
      this.code := code;
      baseFrame := 0;
      requested := [];
    }

    /**
     * `render(sample_rate, buffer_length)`.  The uniform carries the cursor as it
     * was; the cursor moves on by `buffer_length / 2` before the assets are read, so
     * a panic while producing their buffers leaves it moved.  `mapOk` is whether
     * mapping the staging buffer succeeded.
     */
    method Render(sampleRate: nat, bufferLength: nat, kernel: Kernel, mapOk: bool)
      returns (r: Outcome<Rendered>, ghost steps: seq<Served>)
      requires Valid()
      requires sampleRate < U32_MODULUS && bufferLength < U32_MODULUS
      modifies this, assets
      ensures requested == old(requested) + [bufferLength]
      ensures baseFrame == (old(baseFrame) + bufferLength / 2) % U32_MODULUS
      ensures baseFrame == Timeline(requested) % U32_MODULUS
      ensures Serves(old(AssetsOf(assets)), steps, bufferLength / 2, sampleRate) && Paired(steps)
      ensures forall i :: 0 <= i < |assets| ==>
        assets[i].State() == Collect(steps, StatesOf(old(AssetsOf(assets)))).1[i]
      ensures r == Submit([sampleRate, Timeline(old(requested)) % U32_MODULUS],
        Collect(steps, StatesOf(old(AssetsOf(assets)))).0, bufferLength, kernel, mapOk)
      ensures r.Returned? ==> Valid()
    {
      var deviceInfo := [sampleRate, baseFrame];
      var frames := bufferLength / 2;
      // The cursor is advanced before the assets are read; the two touch disjoint
      // state, so producing first and advancing second has the same effect.
      ghost var A := AssetsOf(assets);
      var sound;
      sound, steps := Produce(frames, sampleRate, A);
      Advance(frames, bufferLength);
      r := Submit(deviceInfo, sound, bufferLength, kernel, mapOk);
    }

    /**
     * `sound_storage_buffers(device, sound_storages, buffer_length as usize / 2, sample_rate)`,
     * with `steps` what each asset's `next_buffer` and uniform gave (see `Bindings.ServesCollect`).
     */
    method Produce(frames: nat, sampleRate: nat, ghost A: seq<Asset>)
      returns (sound: Outcome<seq<GpuBuffer>>, ghost steps: seq<Served>)
      requires AssetsSound() && A == AssetsOf(assets)
      modifies assets
      ensures forall i :: 0 <= i < |A| ==> AssetValid(A[i])
      ensures Serves(A, steps, frames, sampleRate) && Paired(steps)
      ensures sound == Collect(steps, StatesOf(A)).0
      ensures forall i :: 0 <= i < |assets| ==> assets[i].State() == Collect(steps, StatesOf(A)).1[i]
      ensures sound.Returned? ==> AssetsSound()
    {
      sound := SoundStorageBuffers(assets, frames, sampleRate);
      steps := ServeAll(A, frames, sampleRate);
      ServeAllServes(A, frames, sampleRate);
      if sound.Returned? {
        RenderKeepsValid(A, frames, sampleRate);
      }
    }

    /** `*base_frame += buffer_length / 2`, wrapping at 2^32, with the history extended. */
    method Advance(frames: nat, bufferLength: nat)
      requires baseFrame == Timeline(requested) % U32_MODULUS && frames == bufferLength / 2
      modifies this
      ensures requested == old(requested) + [bufferLength]
      ensures baseFrame == (old(baseFrame) + frames) % U32_MODULUS
      ensures baseFrame == Timeline(requested) % U32_MODULUS
    {
      ModAdd(Timeline(requested), frames, U32_MODULUS);
      TimelineAppend(requested, bufferLength);
      baseFrame := (baseFrame + frames) % U32_MODULUS;
      requested := requested + [bufferLength];
    }

    /** After a production that returned, every asset is valid again. */
    lemma RenderKeepsValid(A: seq<Asset>, frames: nat, sampleRate: nat)
      requires forall i :: 0 <= i < |A| ==> AssetValid(A[i])
      requires |A| == |assets|
      requires forall i :: 0 <= i < |A| ==> A[i].spec == assets[i].spec
      requires BuffersSpec(A, frames, sampleRate).0.Returned?
      requires forall i :: 0 <= i < |A| ==> assets[i].State() == BuffersSpec(A, frames, sampleRate).1[i]
      ensures forall i :: 0 <= i < |assets| ==> assets[i].Valid()
    {
      BuffersKeepValid(A, frames, sampleRate);
      forall k | 0 <= k < |A|
        ensures assets[k].Valid()
      {
        assert AssetValid(A[k].(state := BuffersSpec(A, frames, sampleRate).1[k]));
      }
    }
  }
}
