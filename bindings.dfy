/**
 * The binding scheme that ties the audio assets to the compute shader: the
 * layout entries of bind group 1, the buffers produced for one render (a
 * storage buffer of texels and a uniform of rate and channel count per asset,
 * in asset order), the bind-group entries numbering those buffers, and the
 * per-asset sample count.  Asset `k` uses binding `2k` for its storage and
 * `2k+1` for its uniform in all of them, which is the numbering the binding
 * text of the shader declares.
 */
module Bindings {
  import opened Wrappers
  import opened Arithmetic
  import opened HoundWrapper
  import opened Formatting
  import opened ShaderText

  /** Values of a Rust `u32` are kept modulo this. */
  const U32_MODULUS: nat := 0x1_0000_0000

  /** `usize::MAX` on a 64-bit target. */
  const USIZE_MAX: nat := 0xFFFF_FFFF_FFFF_FFFF

  /** A value below `2^32` is its own `u32` representative. */
  lemma U32Small(x: nat)
    requires x < U32_MODULUS
    ensures x % U32_MODULUS == x
  {
  }

  // ------------------------------------------------------------------
  // Layouts
  // ------------------------------------------------------------------

  /** The buffer binding types the layouts use. */
  datatype BufferBindingType = Storage | Uniform

  /** A `BindGroupLayoutEntry` with compute visibility: its binding number and buffer type. */
  datatype LayoutEntry = LayoutEntry(binding: nat, ty: BufferBindingType)

  /**
   * `sound_storage_bind_group_layout_entries(len)`: for each `i` in `0..len`, a
   * storage entry at binding `i * 2` and a uniform entry at `i * 2 + 1`, computed
   * in `u32` arithmetic (wrapping).
   */
  function LayoutEntries(len: nat): (r: seq<LayoutEntry>)
    ensures |r| == 2 * len
    ensures forall i :: 0 <= i < len ==>
      r[2 * i] == LayoutEntry((2 * i) % U32_MODULUS, Storage) && r[2 * i + 1] == LayoutEntry((2 * i + 1) % U32_MODULUS, Uniform)
    decreases len
  {
    if len == 0 then []
    else
      var i := len - 1;
      var prev := LayoutEntries(i);
      var r := prev + [LayoutEntry((2 * i) % U32_MODULUS, Storage), LayoutEntry((2 * i + 1) % U32_MODULUS, Uniform)];
      assert forall j :: 0 <= j < i ==> r[2 * j] == prev[2 * j] && r[2 * j + 1] == prev[2 * j + 1];
      r
  }

  /**
   * With at most `2^31` assets no binding number wraps: entry `j` has binding `j`,
   * storage at even and uniform at odd positions, so the bindings are distinct
   * and are exactly `0..2n-1`.
   */
  lemma LayoutNumbering(n: nat)
    requires n <= U32_MODULUS / 2
    ensures var r := LayoutEntries(n);
      && (forall j :: 0 <= j < |r| ==> r[j].binding == j && r[j].ty == (if j % 2 == 0 then Storage else Uniform))
      && (forall i, j :: 0 <= i < j < |r| ==> r[i].binding != r[j].binding)
  {
    var r := LayoutEntries(n);
    forall j | 0 <= j < |r|
      ensures r[j].binding == j && r[j].ty == (if j % 2 == 0 then Storage else Uniform)
    {
      var i := j / 2;
      DivMod(j, 2);
      U32Small(j);
      if j % 2 == 0 {
        assert j == 2 * i;
        assert r[2 * i].binding == (2 * i) % U32_MODULUS;
      } else {
        assert j == 2 * i + 1;
        assert r[2 * i + 1].binding == (2 * i + 1) % U32_MODULUS;
      }
    }
  }

  /**
   * `create_bind_group_layouts(len)`: always two layouts.  Group 0 holds the
   * output storage at binding 0 and the device uniform at binding 1; group 1
   * holds the asset entries for `len as u32` assets.
   */
  function CreateBindGroupLayouts(len: nat): (r: seq<seq<LayoutEntry>>)
    ensures |r| == 2
    ensures r[0] == [LayoutEntry(0, Storage), LayoutEntry(1, Uniform)]
    ensures |r[1]| == 2 * (len % U32_MODULUS)
    ensures len < U32_MODULUS ==> |r[1]| == 2 * len
    ensures forall i :: 0 <= i < len % U32_MODULUS ==> r[1][2 * i].ty == Storage && r[1][2 * i + 1].ty == Uniform
  {
    [[LayoutEntry(0, Storage), LayoutEntry(1, Uniform)], LayoutEntries(len % U32_MODULUS)]
  }

  // ------------------------------------------------------------------
  // Buffers and entries
  // ------------------------------------------------------------------

  /** The contents of a GPU buffer: texels for a storage buffer, `u32` words for a uniform. */
  datatype GpuBuffer = StorageBuffer(texels: seq<Texel>) | UniformBuffer(words: seq<nat>)

  /** A `BindGroupEntry`: a binding number and the buffer bound there. */
  datatype BindEntry = BindEntry(binding: nat, buffer: GpuBuffer)

  /** `buffers_to_entries`: the `i`-th buffer is bound at `i as u32`. */
  function BuffersToEntries(buffers: seq<GpuBuffer>): (r: seq<BindEntry>)
    ensures |r| == |buffers|
    ensures forall i :: 0 <= i < |r| ==> r[i] == BindEntry(i % U32_MODULUS, buffers[i])
    decreases |buffers|
  {
    if buffers == [] then []
    else
      var i := |buffers| - 1;
      var prev := BuffersToEntries(buffers[..i]);
      var r := prev + [BindEntry(i % U32_MODULUS, buffers[i])];
      assert forall j :: 0 <= j < i ==> r[j] == prev[j];
      r
  }

  /**
   * The number of frames requested from an asset recorded at `assetRate` when the
   * device plays `frames` frames at `devRate`:
   * `(frames as f64 * assetRate as f64 / devRate as f64) as usize`, taken exactly.
   * A zero device rate divides by zero in floating point: `0 / 0` is NaN, which
   * the cast turns into 0, and a positive product over 0 is infinite, which the
   * cast saturates to `usize::MAX`.
   */
  function SampleCount(frames: nat, assetRate: nat, devRate: nat): (c: nat)
    ensures devRate > 0 && frames * assetRate / devRate <= USIZE_MAX ==>
      c * devRate <= frames * assetRate < (c + 1) * devRate
    ensures devRate > 0 && frames * assetRate / devRate > USIZE_MAX ==> c == USIZE_MAX
    ensures devRate == 0 ==> c == (if frames * assetRate == 0 then 0 else USIZE_MAX)
    ensures c <= USIZE_MAX
  {
    var product := frames * assetRate;
    if devRate == 0 then
      if product == 0 then 0 else USIZE_MAX
    else
      var q := product / devRate;
      DivMod(product, devRate);
      assert (q + 1) * devRate == q * devRate + devRate;
      if q > USIZE_MAX then USIZE_MAX else q
  }

  /** An asset recorded at the device rate is asked for exactly the device's frame count. */
  lemma SampleCountSameRate(frames: nat, rate: nat)
    requires rate > 0 && frames <= USIZE_MAX
    ensures SampleCount(frames, rate, rate) == frames
  {
    var c := SampleCount(frames, rate, rate);
    DivUnique(frames * rate, rate, frames, 0);
  }

  /** More device frames never ask for fewer asset frames. */
  lemma SampleCountMonotone(f1: nat, f2: nat, assetRate: nat, devRate: nat)
    requires f1 <= f2
    ensures SampleCount(f1, assetRate, devRate) <= SampleCount(f2, assetRate, devRate)
  {
    assert f1 * assetRate <= f2 * assetRate;
    if devRate > 0 {
      DivMonotone(f1 * assetRate, f2 * assetRate, devRate);
    }
  }

  // ------------------------------------------------------------------
  // `sound_storage_buffers`
  // ------------------------------------------------------------------

  /** An asset as the buffer production sees it: its header, its transform, its queues. */
  datatype Asset = Asset(spec: WavSpec, window: Transform, state: Maker)

  ghost predicate AssetValid(a: Asset) {
    SpectralInvariant(a.spec, a.state.buffer, a.state.fftBuffer)
  }

  /**
   * The two buffers of one asset: pull `SampleCount` texels with `next_buffer`,
   * then the uniform `[sample_rate, channels as u32]`.  A panic in `next_buffer`
   * ends the whole production.
   */
  function AssetBuffers(a: Asset, frames: nat, devRate: nat): (r: (Outcome<seq<GpuBuffer>>, Maker))
    requires AssetValid(a)
    ensures r.0.Returned? ==>
      && |r.0.value| == 2
      && r.0.value[0].StorageBuffer? && |r.0.value[0].texels| == SampleCount(frames, a.spec.sampleRate, devRate)
      && r.0.value[1] == UniformBuffer([a.spec.sampleRate, a.spec.channels])
      && SpectralInvariant(a.spec, r.1.buffer, r.1.fftBuffer)
  {
    var n := SampleCount(frames, a.spec.sampleRate, devRate);
    var s := NextBufferSpec(a.spec, a.window, a.state, n);
    match s.0
    case Panicked => (Panicked, s.1)
    case Returned(texels) => (Returned([StorageBuffer(texels), UniformBuffer([a.spec.sampleRate, a.spec.channels])]), s.1)
  }

  /**
   * The storage buffer holds exactly what `next_buffer` returns for the asset's
   * sample count, the asset is left as `next_buffer` leaves it, and the
   * production panics for this asset exactly when `next_buffer` does.
   */
  lemma AssetBuffersPull(a: Asset, frames: nat, devRate: nat)
    requires AssetValid(a)
    ensures var n := SampleCount(frames, a.spec.sampleRate, devRate);
      var s := NextBufferSpec(a.spec, a.window, a.state, n);
      var r := AssetBuffers(a, frames, devRate);
      && r.1 == s.1
      && (r.0.Panicked? <==> s.0.Panicked?)
      && (r.0.Returned? ==> s.0 == Returned(r.0.value[0].texels))
  {
  }

  /** What serving one asset gives: its buffers (or a panic), and its queues afterwards. */
  type Served = (Outcome<seq<GpuBuffer>>, Maker)

  /** Every served asset that returns gives exactly two buffers. */
  predicate Paired(steps: seq<Served>) {
    forall i :: 0 <= i < |steps| ==> steps[i].0.Returned? ==> |steps[i].0.value| == 2
  }

  /**
   * The `flat_map(..).collect()` over the first `i` assets, in order: `steps[j]`
   * is what serving asset `j` gives and `before[j]` its queues beforehand.  The
   * first panic ends the collection, and the assets after it keep their queues.
   */
  function CollectUpTo(steps: seq<Served>, before: seq<Maker>, i: nat): (r: (Outcome<seq<GpuBuffer>>, seq<Maker>))
    requires i <= |steps| == |before| && Paired(steps)
    ensures |r.1| == i
    ensures r.0.Returned? ==> |r.0.value| == 2 * i
    decreases i
  {
    if i == 0 then (Returned([]), [])
    else
      var p := CollectUpTo(steps, before, i - 1);
      if p.0.Panicked? then (Panicked, p.1 + [before[i - 1]])
      else
        match steps[i - 1].0
        case Panicked => (Panicked, p.1 + [steps[i - 1].1])
        case Returned(bufs) => (Returned(p.0.value + bufs), p.1 + [steps[i - 1].1])
  }

  /** The collection over all the assets. */
  function Collect(steps: seq<Served>, before: seq<Maker>): (r: (Outcome<seq<GpuBuffer>>, seq<Maker>))
    requires |steps| == |before| && Paired(steps)
    ensures |r.1| == |before|
    ensures r.0.Returned? ==> |r.0.value| == 2 * |steps|
  {
    CollectUpTo(steps, before, |steps|)
  }

  /** No asset before `k` panics. */
  predicate ReturnsBefore(steps: seq<Served>, k: nat)
    requires k <= |steps|
  {
    forall j :: 0 <= j < k ==> steps[j].0.Returned?
  }

  /** The collection returns exactly when no asset panics. */
  lemma {:induction false} CollectReturns(steps: seq<Served>, before: seq<Maker>, i: nat)
    requires i <= |steps| == |before| && Paired(steps)
    ensures CollectUpTo(steps, before, i).0.Returned? <==> ReturnsBefore(steps, i)
    decreases i
  {
    if i > 0 {
      CollectReturns(steps, before, i - 1);
      assert ReturnsBefore(steps, i) <==> ReturnsBefore(steps, i - 1) && steps[i - 1].0.Returned?;
    }
  }

  /**
   * Asset `k` ends with the queues its own service leaves exactly when no
   * earlier asset panicked; otherwise it keeps the queues it had.
   */
  lemma {:induction false} CollectStateAt(steps: seq<Served>, before: seq<Maker>, i: nat, k: nat)
    requires k < i <= |steps| == |before| && Paired(steps)
    ensures CollectUpTo(steps, before, i).1[k] == if ReturnsBefore(steps, k) then steps[k].1 else before[k]
    decreases i
  {
    var p := CollectUpTo(steps, before, i - 1);
    var r := CollectUpTo(steps, before, i);
    assert r.1 == p.1 + [r.1[i - 1]];
    if k == i - 1 {
      CollectReturns(steps, before, i - 1);
    } else {
      CollectStateAt(steps, before, i - 1, k);
      assert r.1[k] == p.1[k];
    }
  }

  /** When the collection returns, asset `k`'s two buffers are entries `2k` and `2k+1`. */
  lemma {:induction false} CollectOrder(steps: seq<Served>, before: seq<Maker>, i: nat, k: nat)
    requires i <= |steps| == |before| && Paired(steps)
    requires CollectUpTo(steps, before, i).0.Returned?
    requires k < i
    ensures var r := CollectUpTo(steps, before, i).0.value;
      steps[k].0.Returned? && r[2 * k] == steps[k].0.value[0] && r[2 * k + 1] == steps[k].0.value[1]
    decreases i
  {
    var p := CollectUpTo(steps, before, i - 1);
    var r := CollectUpTo(steps, before, i).0.value;
    assert r == p.0.value + steps[i - 1].0.value;
    if k < i - 1 {
      CollectOrder(steps, before, i - 1, k);
      assert r[2 * k] == p.0.value[2 * k] && r[2 * k + 1] == p.0.value[2 * k + 1];
    }
  }

  /** Once the first `m` assets have panicked, the later ones keep their queues. */
  lemma {:induction false} CollectPanicked(steps: seq<Served>, before: seq<Maker>, m: nat, i: nat)
    requires m <= i <= |steps| == |before| && Paired(steps)
    requires CollectUpTo(steps, before, m).0.Panicked?
    ensures CollectUpTo(steps, before, i) == (Panicked, CollectUpTo(steps, before, m).1 + before[m..i])
    decreases i
  {
    var c := CollectUpTo(steps, before, m).1;
    if i == m {
      assert before[m..i] == [] && c + [] == c;
    } else {
      CollectPanicked(steps, before, m, i - 1);
      assert before[m..i - 1] + [before[i - 1]] == before[m..i];
      assert (c + before[m..i - 1]) + [before[i - 1]] == c + (before[m..i - 1] + [before[i - 1]]);
    }
  }

  /** What serving each asset gives, in order. */
  function ServeAll(assets: seq<Asset>, frames: nat, devRate: nat): (r: seq<Served>)
    requires forall i :: 0 <= i < |assets| ==> AssetValid(assets[i])
    ensures |r| == |assets| && Paired(r)
  {
    seq(|assets|, i requires 0 <= i < |assets| => AssetBuffers(assets[i], frames, devRate))
  }

  /** The queues of each asset. */
  function StatesOf(assets: seq<Asset>): (r: seq<Maker>)
    ensures |r| == |assets| && forall i :: 0 <= i < |assets| ==> r[i] == assets[i].state
  {
    seq(|assets|, i requires 0 <= i < |assets| => assets[i].state)
  }

  /**
   * `sound_storage_buffers`: the buffers of every asset in asset order, and the
   * queues of every asset afterwards.
   */
  function BuffersSpec(assets: seq<Asset>, frames: nat, devRate: nat): (r: (Outcome<seq<GpuBuffer>>, seq<Maker>))
    requires forall i :: 0 <= i < |assets| ==> AssetValid(assets[i])
    ensures |r.1| == |assets|
    ensures r.0.Returned? ==> |r.0.value| == 2 * |assets|
  {
    Collect(ServeAll(assets, frames, devRate), StatesOf(assets))
  }

  /** When the production returns, every asset's queues still satisfy their invariant. */
  lemma BuffersKeepValid(assets: seq<Asset>, frames: nat, devRate: nat)
    requires forall i :: 0 <= i < |assets| ==> AssetValid(assets[i])
    ensures var r := BuffersSpec(assets, frames, devRate);
      r.0.Returned? ==> forall k :: 0 <= k < |assets| ==> AssetValid(assets[k].(state := r.1[k]))
  {
    var steps := ServeAll(assets, frames, devRate);
    var r := BuffersSpec(assets, frames, devRate);
    CollectReturns(steps, StatesOf(assets), |steps|);
    if r.0.Returned? {
      forall k | 0 <= k < |assets|
        ensures AssetValid(assets[k].(state := r.1[k]))
      {
        CollectStateAt(steps, StatesOf(assets), |steps|, k);
        assert steps[k].0.Returned?;
        assert ReturnsBefore(steps, k);
      }
    }
  }

  /**
   * The numbering the three generators share: when the production returns and
   * there are at most `2^31` assets, asset `k`'s texels are bound at `2k`, where
   * group 1's layout has a storage entry and the binding text declares the
   * buffer `AudioTexture{k}`; its `[sample_rate, channels]` uniform is bound at
   * `2k+1`, where the layout has a uniform entry and the text declares the
   * uniform `AudioTextureInfo{k}`.  Entries and layout entries are equally many.
   */
  lemma BindingAgreement(assets: seq<Asset>, frames: nat, devRate: nat, k: nat)
    requires forall i :: 0 <= i < |assets| ==> AssetValid(assets[i])
    requires |assets| <= U32_MODULUS / 2
    requires BuffersSpec(assets, frames, devRate).0.Returned?
    requires k < |assets|
    ensures var e := BuffersToEntries(BuffersSpec(assets, frames, devRate).0.value);
      var layout := CreateBindGroupLayouts(|assets|)[1];
      var a := assets[k];
      var n := SampleCount(frames, a.spec.sampleRate, devRate);
      var d := ParseDeclaration(BindingShader(k));
      && |e| == |layout| == 2 * |assets|
      && e[2 * k].binding == 2 * k && e[2 * k].buffer.StorageBuffer?
      && NextBufferSpec(a.spec, a.window, a.state, n).0 == Returned(e[2 * k].buffer.texels)
      && layout[2 * k] == LayoutEntry(2 * k, Storage)
      && d.Some? && d.value.0.binding == 2 * k && d.value.0.kind == BufferBlock
      && d.value.0.name == "AudioTexture" + Decimal(k)
      && e[2 * k + 1] == BindEntry(2 * k + 1, UniformBuffer([a.spec.sampleRate, a.spec.channels]))
      && layout[2 * k + 1] == LayoutEntry(2 * k + 1, Uniform)
      && var q := ParseDeclaration(d.value.1);
         q.Some? && q.value.0.binding == 2 * k + 1 && q.value.0.kind == UniformBlock
         && q.value.0.name == "AudioTextureInfo" + Decimal(k)
  {
    CollectOrder(ServeAll(assets, frames, devRate), StatesOf(assets), |assets|, k);
    AssetBuffersPull(assets[k], frames, devRate);
    LayoutNumbering(|assets|);
    U32Small(2 * k);
    U32Small(2 * k + 1);
    BindingShaderDeclares(k);
  }

  // ------------------------------------------------------------------
  // The production over the asset objects
  // ------------------------------------------------------------------

  /** An asset object as the production sees it. */
  function AssetOf(m: WavTextureMaker): Asset
    reads m
  {
    Asset(m.spec, m.window, m.State())
  }

  /** The assets behind a sequence of asset objects. */
  function AssetsOf(ms: seq<WavTextureMaker>): (r: seq<Asset>)
    reads ms
    ensures |r| == |ms| && forall i :: 0 <= i < |ms| ==> r[i] == AssetOf(ms[i])
    decreases |ms|
  {
    if ms == [] then []
    else
      var n := |ms| - 1;
      assert forall i :: 0 <= i < n ==> ms[..n][i] == ms[i];
      AssetsOf(ms[..n]) + [AssetOf(ms[n])]
  }

  /** Serving one more asset that returns extends the collection by its buffers and its queues. */
  lemma CollectAdvances(steps: seq<Served>, before: seq<Maker>, i: nat, out: seq<GpuBuffer>, done: seq<Maker>, bufs: seq<GpuBuffer>, m: Maker)
    requires i < |steps| == |before| && Paired(steps)
    requires CollectUpTo(steps, before, i) == (Returned(out), done)
    requires steps[i] == (Returned(bufs), m)
    ensures CollectUpTo(steps, before, i + 1) == (Returned(out + bufs), done + [m])
  {
  }

  /**
   * Serving one more asset that panics ends the collection: the assets served
   * so far keep their new queues, this one the queues its service left, and the
   * later ones the queues they had.
   */
  lemma CollectStops(steps: seq<Served>, before: seq<Maker>, i: nat, out: seq<GpuBuffer>, done: seq<Maker>, m: Maker)
    requires i < |steps| == |before| && Paired(steps)
    requires CollectUpTo(steps, before, i) == (Returned(out), done)
    requires steps[i] == (Panicked, m)
    ensures Collect(steps, before).0.Panicked?
    ensures forall j :: 0 <= j < |steps| ==>
      Collect(steps, before).1[j] == if j < i then done[j] else if j == i then m else before[j]
  {
    CollectPanicked(steps, before, i + 1, |steps|);
    assert CollectUpTo(steps, before, i + 1) == (Panicked, done + [m]);
    assert forall j :: i < j < |steps| ==> before[i + 1..|steps|][j - i - 1] == before[j];
  }

  /** The body of the `flat_map` closure: serve one asset object. */
  method ServeAsset(a: WavTextureMaker, frames: nat, devRate: nat, ghost asset: Asset) returns (t: Outcome<seq<GpuBuffer>>)
    requires a.Valid() && asset == AssetOf(a)
    modifies a
    ensures AssetValid(asset)
    ensures (t, a.State()) == AssetBuffers(asset, frames, devRate)
    ensures t.Returned? ==> a.Valid()
  {
    var n := SampleCount(frames, a.spec.sampleRate, devRate);
    var texels := a.NextBuffer(n);
    AssetBuffersPull(asset, frames, devRate);
    match texels
    case Panicked => t := Panicked;
    case Returned(v) => t := Returned([StorageBuffer(v), UniformBuffer([a.spec.sampleRate, a.spec.channels])]);
  }

  /**
   * `sound_storage_buffers(storages, frames, devRate)`: each asset in turn pulls
   * its `SampleCount` texels with `next_buffer` and contributes its storage and
   * uniform buffers.  The result and the new queues of every asset are those of
   * `BuffersSpec` on the assets as they were.
   */
  method SoundStorageBuffers(assets: seq<WavTextureMaker>, frames: nat, devRate: nat) returns (r: Outcome<seq<GpuBuffer>>)
    requires forall i, j :: 0 <= i < j < |assets| ==> assets[i] != assets[j]
    requires forall i :: 0 <= i < |assets| ==> assets[i].Valid()
    modifies assets
    ensures forall i :: 0 <= i < |assets| ==> AssetValid(old(AssetsOf(assets))[i])
    ensures r == BuffersSpec(old(AssetsOf(assets)), frames, devRate).0
    ensures forall i :: 0 <= i < |assets| ==> assets[i].State() == BuffersSpec(old(AssetsOf(assets)), frames, devRate).1[i]
  {
    ghost var A := AssetsOf(assets);
    r := ServeInOrder(assets, frames, devRate, A, ServeAll(A, frames, devRate), StatesOf(A));
  }

  /** Serving asset `k`. */
  ghost function StepOf(assets: seq<Asset>, frames: nat, devRate: nat, k: nat): Served
    requires k < |assets| && AssetValid(assets[k])
  {
    AssetBuffers(assets[k], frames, devRate)
  }

  /**
   * `steps[k]` is what serving asset `k` gives.  The trigger keeps that fact
   * from being unfolded except where a step is looked up on purpose.
   */
  ghost predicate Serves(assets: seq<Asset>, steps: seq<Served>, frames: nat, devRate: nat) {
    && |assets| == |steps|
    && (forall k :: 0 <= k < |assets| ==> AssetValid(assets[k]))
    && forall k {:trigger StepOf(assets, frames, devRate, k)} :: 0 <= k < |assets| ==> steps[k] == StepOf(assets, frames, devRate, k)
  }

  /** The steps that `Serves` describes are exactly those of `ServeAll`, so collecting them is `BuffersSpec`. */
  lemma ServesCollect(assets: seq<Asset>, steps: seq<Served>, frames: nat, devRate: nat)
    requires Serves(assets, steps, frames, devRate)
    ensures steps == ServeAll(assets, frames, devRate)
    ensures Collect(steps, StatesOf(assets)) == BuffersSpec(assets, frames, devRate)
  {
    var all := ServeAll(assets, frames, devRate);
    forall k | 0 <= k < |assets|
      ensures steps[k] == all[k]
    {
      assert steps[k] == StepOf(assets, frames, devRate, k);
    }
  }

  /** `ServeAll` is described by `Serves`. */
  lemma ServeAllServes(assets: seq<Asset>, frames: nat, devRate: nat)
    requires forall i :: 0 <= i < |assets| ==> AssetValid(assets[i])
    ensures Serves(assets, ServeAll(assets, frames, devRate), frames, devRate)
  {
    var all := ServeAll(assets, frames, devRate);
    forall k | 0 <= k < |assets|
      ensures all[k] == StepOf(assets, frames, devRate, k)
    {
    }
  }

  /** The loop of `sound_storage_buffers`, against the steps of the assets as they were. */
  method ServeInOrder(assets: seq<WavTextureMaker>, frames: nat, devRate: nat, ghost A: seq<Asset>, ghost steps: seq<Served>, ghost before: seq<Maker>)
    returns (r: Outcome<seq<GpuBuffer>>)
    requires forall i, j :: 0 <= i < j < |assets| ==> assets[i] != assets[j]
    requires |A| == |assets| == |before| && Serves(A, steps, frames, devRate) && Paired(steps)
    requires forall i :: 0 <= i < |assets| ==>
      assets[i].Valid() && assets[i].State() == before[i] && A[i] == Asset(assets[i].spec, assets[i].window, before[i])
    modifies assets
    ensures r == Collect(steps, before).0
    ensures forall i :: 0 <= i < |assets| ==> assets[i].State() == Collect(steps, before).1[i]
  {
    ghost var done: seq<Maker> := [];
    var out: seq<GpuBuffer> := [];
    var i := 0;
    while i < |assets|
      invariant 0 <= i <= |assets| && |done| == i
      invariant CollectUpTo(steps, before, i) == (Returned(out), done)
      invariant forall j :: 0 <= j < i ==> assets[j].State() == done[j]
      invariant forall j :: i <= j < |assets| ==> assets[j].State() == before[j]
    {
      var a := assets[i];
      var t := ServeStep(a, frames, devRate, A, steps, i);
      if t.Panicked? {
        CollectStops(steps, before, i, out, done, a.State());
        return Panicked;
      }
      CollectAdvances(steps, before, i, out, done, t.value, a.State());
      out := out + t.value;
      done := done + [a.State()];
      i := i + 1;
    }
    r := Returned(out);
  }

  /** One turn of the loop: serving the asset `i` gives `steps[i]`. */
  method ServeStep(a: WavTextureMaker, frames: nat, devRate: nat, ghost A: seq<Asset>, ghost steps: seq<Served>, ghost i: nat)
    returns (t: Outcome<seq<GpuBuffer>>)
    requires Serves(A, steps, frames, devRate) && i < |A|
    requires a.Valid() && A[i] == AssetOf(a)
    modifies a
    ensures (t, a.State()) == steps[i]
    ensures t.Returned? ==> a.Valid()
  {
    t := ServeAsset(a, frames, devRate, A[i]);
    assert steps[i] == StepOf(A, frames, devRate, i);
  }
}
