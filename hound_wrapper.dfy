/**
 * The audio-asset queue of `src/hound_wrapper.rs`.
 *
 * A WAV file is decoded through one of three sample iterators (16-bit integer,
 * 32-bit integer, 32-bit float), each with its own normalization to floating
 * point.  `WavTextureMaker` keeps two FIFO queues: the decoded samples and, in
 * whole analysis windows of `sample_rate / 10` frames, their short-time spectrum.
 * `reserve` extends both, `next_buffer` removes a prefix of both and packs it
 * into four-component texels.
 *
 * File I/O is replaced by an abstract, already-opened WAV payload; floating point
 * is modelled by `real`; the Fourier transform is a length-preserving function
 * given by the caller.
 */
module HoundWrapper {
  import opened Wrappers
  import opened Arithmetic

  // ------------------------------------------------------------------
  // The WAV header and payload, as hound presents them
  // ------------------------------------------------------------------

  datatype SampleFormat = Float | Int

  /** hound's `WavSpec`: `channels: u16`, `sample_rate: u32`, `bits_per_sample: u16`. */
  datatype WavSpec = WavSpec(channels: nat, sampleRate: nat, bitsPerSample: nat, sampleFormat: SampleFormat)

  /** The samples stored in a file: integers for PCM files, floats for IEEE-float files. */
  datatype SampleData = IntSamples(ints: seq<int>) | FloatSamples(floats: seq<real>)

  /** An opened WAV file: its header fields and the samples its reader yields. */
  datatype WavFile = WavFile(channels: nat, sampleRate: nat, bitsPerSample: nat, data: SampleData)

  function SpecOfFile(f: WavFile): WavSpec {
    WavSpec(f.channels, f.sampleRate, f.bitsPerSample, if f.data.FloatSamples? then Float else Int)
  }

  // ------------------------------------------------------------------
  // Normalization of integer samples
  // ------------------------------------------------------------------

  function Pow2(e: nat): (p: nat)
    ensures p >= 1
  {
    if e == 0 then 1 else 2 * Pow2(e - 1)
  }

  /** `f32::powi(2.0, bps as i32 - 1)`: a bit depth of zero gives one half. */
  function Divisor(bps: nat): real {
    if bps == 0 then 0.5 else Pow2(bps - 1) as real
  }

  /** The divisors the tests use for 16-bit and 32-bit input: 2^15 and 2^31. */
  lemma {:induction false} TestDivisors()
    ensures Divisor(16) == 32768.0
    ensures Divisor(32) == 2147483648.0
  {
    assert Pow2(3) == 8;
    assert Pow2(6) == 64;
    assert Pow2(9) == 512;
    assert Pow2(12) == 4096;
    assert Pow2(15) == 32768;
    assert Pow2(18) == 262144;
    assert Pow2(21) == 2097152;
    assert Pow2(24) == 16777216;
    assert Pow2(27) == 134217728;
    assert Pow2(30) == 1073741824;
    assert Pow2(31) == 2147483648;
  }

  /** A sample that fits in `bps` signed bits normalizes into [-1, 1). */
  lemma NormalizedRange(x: int, bps: nat)
    requires bps >= 1
    requires -(Pow2(bps - 1) as int) <= x < Pow2(bps - 1)
    ensures -1.0 <= x as real / Divisor(bps) < 1.0
  {
    RealQuotientBounds(x as real, Divisor(bps));
  }

  // ------------------------------------------------------------------
  // The three decoding iterators (`WrapperSamples`)
  // ------------------------------------------------------------------

  /**
   * The closed set of decoders.  Each holds what its hound iterator has still to
   * yield; the integer ones also hold the file's bit depth.
   */
  datatype WrapperSamples =
    | I16(samples: seq<int>, bps: nat)
    | I32(samples: seq<int>, bps: nat)
    | F32(floats: seq<real>)

  function Remaining(w: WrapperSamples): nat {
    match w
    case I16(s, _) => |s|
    case I32(s, _) => |s|
    case F32(s) => |s|
  }

  /** Everything the decoder will still yield, normalized: the reference for `Next`. */
  function Decoded(w: WrapperSamples): (d: seq<real>)
    ensures |d| == Remaining(w)
  {
    match w
    case I16(s, bps) => seq(|s|, i requires 0 <= i < |s| => s[i] as real / Divisor(bps))
    case I32(s, bps) => seq(|s|, i requires 0 <= i < |s| => s[i] as real / Divisor(bps))
    case F32(s) => s
  }

  predicate SameDecoder(v: WrapperSamples, w: WrapperSamples) {
    match v
    case I16(_, b) => w.I16? && w.bps == b
    case I32(_, b) => w.I32? && w.bps == b
    case F32(_) => w.F32?
  }

  /**
   * `WrapperSamples::next`: the next sample, divided by 2^(bps-1) for the integer
   * decoders and passed through for the float decoder; `None` once exhausted.
   */
  function Next(w: WrapperSamples): (r: (Option<real>, WrapperSamples))
    ensures r.0.None? <==> Remaining(w) == 0
    ensures r.0.None? ==> r.1 == w
    ensures r.0.Some? ==> r.0.value == Decoded(w)[0] && Decoded(r.1) == Decoded(w)[1..]
    ensures SameDecoder(w, r.1)
  {
    match w
    case F32(s) =>
      if s == [] then (None, w) else (Some(s[0]), F32(s[1..]))
    case I32(s, bps) =>
      if s == [] then (None, w) else (Some(s[0] as real / Divisor(bps)), I32(s[1..], bps))
    case I16(s, bps) =>
      if s == [] then (None, w) else (Some(s[0] as real / Divisor(bps)), I16(s[1..], bps))
  }

  /** The decoder after `n` calls of `next` (calls past the end change nothing). */
  function Advance(w: WrapperSamples, n: nat): (v: WrapperSamples)
    ensures SameDecoder(w, v)
    ensures Remaining(v) == if n < Remaining(w) then Remaining(w) - n else 0
  {
    match w
    case I16(s, b) => I16(if n < |s| then s[n..] else [], b)
    case I32(s, b) => I32(if n < |s| then s[n..] else [], b)
    case F32(s) => F32(if n < |s| then s[n..] else [])
  }

  lemma AdvanceDecoded(w: WrapperSamples, n: nat)
    requires n <= Remaining(w)
    ensures Decoded(Advance(w, n)) == Decoded(w)[n..]
  {
  }

  /** One more `next` after `i` of them yields the `i`-th decoded sample, or nothing. */
  lemma NextAfterAdvance(w: WrapperSamples, i: nat)
    ensures Next(Advance(w, i)).1 == Advance(w, i + 1)
    ensures Next(Advance(w, i)).0 == if i < Remaining(w) then Some(Decoded(w)[i]) else None
  {
    if i < Remaining(w) {
      AdvanceDecoded(w, i);
      match w
      case I16(s, b) => assert s[i..][1..] == s[i + 1..];
      case I32(s, b) => assert s[i..][1..] == s[i + 1..];
      case F32(s) => assert s[i..][1..] == s[i + 1..];
    }
  }

  /** The silence appended once the file is exhausted. */
  function Zeros(n: nat): (z: seq<real>)
    ensures |z| == n && forall i :: 0 <= i < n ==> z[i] == 0.0
  {
    seq(n, _ => 0.0)
  }

  /**
   * What `n` calls of `next` contribute to the queue: the next decoded samples,
   * then zeros once the decoder is exhausted.
   */
  function Padded(w: WrapperSamples, n: nat): (p: seq<real>)
    ensures |p| == n
    ensures forall i :: 0 <= i < n ==> p[i] == if i < Remaining(w) then Decoded(w)[i] else 0.0
  {
    if n <= Remaining(w) then Decoded(w)[..n] else Decoded(w) + Zeros(n - Remaining(w))
  }

  /** One more call of `next` appends the next decoded sample, or a zero. */
  lemma PaddedStep(w: WrapperSamples, n: nat)
    ensures Padded(w, n + 1) == Padded(w, n) + [if n < Remaining(w) then Decoded(w)[n] else 0.0]
  {
    var x := if n < Remaining(w) then Decoded(w)[n] else 0.0;
    assert forall i :: 0 <= i < n + 1 ==> Padded(w, n + 1)[i] == (Padded(w, n) + [x])[i];
  }

  // ------------------------------------------------------------------
  // Decoder selection in `try_new`
  // ------------------------------------------------------------------

  /**
   * `try_new`'s choice of decoder: Float files use the float decoder; integer files
   * deeper than 16 bits the 32-bit decoder; all other integer files the 16-bit one.
   */
  function SelectDecoder(f: WavFile): (w: WrapperSamples)
    ensures w.F32? <==> SpecOfFile(f).sampleFormat == Float
    ensures w.I32? <==> SpecOfFile(f).sampleFormat == Int && f.bitsPerSample > 16
    ensures w.I16? <==> SpecOfFile(f).sampleFormat == Int && f.bitsPerSample <= 16
    ensures !w.F32? ==> w.bps == f.bitsPerSample
    ensures Remaining(w) == match f.data case IntSamples(xs) => |xs| case FloatSamples(xs) => |xs|
  {
    match f.data
    case FloatSamples(xs) => F32(xs)
    case IntSamples(xs) => if f.bitsPerSample > 16 then I32(xs, f.bitsPerSample) else I16(xs, f.bitsPerSample)
  }

  /**
   * The normalization rule, per file: integer samples are divided by 2^(bps-1),
   * whichever integer decoder is chosen; float samples pass through unchanged.
   */
  lemma NormalizationRule(f: WavFile, i: nat)
    requires i < Remaining(SelectDecoder(f))
    ensures Decoded(SelectDecoder(f))[i] == match f.data
      case IntSamples(xs) => xs[i] as real / Divisor(f.bitsPerSample)
      case FloatSamples(xs) => xs[i]
  {
  }

  // ------------------------------------------------------------------
  // Spectral view
  // ------------------------------------------------------------------

  datatype Complex = Complex(re: real, im: real)

  /**
   * The forward Fourier transform, kept abstract: `bin(w, k)` is bin `k` of the
   * transform of the analysis window `w`.  A window of `n` entries has `n` bins.
   */
  type Transform = (seq<Complex>, nat) -> Complex

  /** The transform of one window: as many bins as entries. */
  function Transformed(bin: Transform, w: seq<Complex>): seq<Complex> {
    seq(|w|, k requires 0 <= k < |w| => bin(w, k))
  }

  /**
   * rustfft's `process` on a buffer of `chunks` whole windows of `unit` entries:
   * each window is transformed on its own.
   */
  function Process(window: Transform, s: seq<Complex>, unit: nat, chunks: nat): (r: seq<Complex>)
    requires unit > 0 && |s| == chunks * unit
    ensures |r| == |s|
    decreases chunks
  {
    if chunks == 0 then []
    else
      MulAtLeast(chunks, unit);
      MulSub(chunks, 1, unit);
      Transformed(window, s[..unit]) + Process(window, s[unit..], unit, chunks - 1)
  }

  /** Window `c` of the processed buffer is the transform of window `c` of its input. */
  lemma {:induction false} ProcessChunk(window: Transform, s: seq<Complex>, unit: nat, chunks: nat, c: nat)
    requires unit > 0 && |s| == chunks * unit && c < chunks
    ensures c * unit + unit <= |s|
    ensures Process(window, s, unit, chunks)[c * unit..c * unit + unit] == Transformed(window, s[c * unit..c * unit + unit])
    decreases c
  {
    MulAtLeast(chunks, unit);
    MulSub(chunks, 1, unit);
    var rest := s[unit..];
    var head := Transformed(window, s[..unit]);
    var p := Process(window, s, unit, chunks);
    assert p == head + Process(window, rest, unit, chunks - 1);
    if c == 0 {
      assert p[..unit] == head;
    } else {
      MulSub(c, 1, unit);
      var lo := (c - 1) * unit;
      assert lo + unit == c * unit;
      ProcessChunk(window, rest, unit, chunks - 1, c - 1);
      assert p[c * unit..c * unit + unit] == Process(window, rest, unit, chunks - 1)[lo..lo + unit];
      assert rest[lo..lo + unit] == s[c * unit..c * unit + unit];
    }
  }

  /** `.chunks(2).map(|x| Complex { re: x[0], im: x[1] })`: stereo frames become (left, right). */
  function PairUp(xs: seq<real>): (r: seq<Complex>)
    requires |xs| % 2 == 0
    ensures |r| == |xs| / 2
    ensures forall i :: 0 <= i < |r| ==> r[i] == Complex(xs[2 * i], xs[2 * i + 1])
    decreases |xs|
  {
    if xs == [] then [] else [Complex(xs[0], xs[1])] + PairUp(xs[2..])
  }

  /** `.iter().map(|x| Complex { re: *x, im: 0.0 })`: mono frames become (x, 0). */
  function MonoUp(xs: seq<real>): seq<Complex> {
    seq(|xs|, i requires 0 <= i < |xs| => Complex(xs[i], 0.0))
  }

  /**
   * The transform input for `count` frames starting at frame `from`.  Reading the
   * result entry by entry: mono frame `from + i` becomes (x, 0), stereo frame
   * `from + i` becomes (left, right).
   */
  function SpectralInput(buffer: seq<real>, channels: nat, from: nat, count: nat): (r: seq<Complex>)
    requires channels == 1 || channels == 2
    requires (from + count) * channels <= |buffer|
    ensures |r| == count
    ensures forall i :: 0 <= i < count ==>
      r[i] == if channels == 1 then Complex(buffer[from + i], 0.0)
              else Complex(buffer[2 * (from + i)], buffer[2 * (from + i) + 1])
  {
    if channels == 1 then MonoUp(buffer[from..from + count])
    else
      var r := PairUp(buffer[2 * from..2 * (from + count)]);
      assert forall i :: 0 <= i < count ==> 2 * from + 2 * i == 2 * (from + i);
      r
  }

  /** Analysis window length in frames: `sample_rate / 10`. */
  function UnitLen(spec: WavSpec): nat {
    spec.sampleRate / 10
  }

  /**
   * The queue invariant: no more spectral entries than whole frames queued.  The
   * subtraction at line 90 relies on it.  A zero channel count panics before any
   * spectral entry is made.
   */
  predicate SpectralInvariant(spec: WavSpec, buffer: seq<real>, fftBuffer: seq<Complex>) {
    if spec.channels == 0 then fftBuffer == [] else |fftBuffer| <= |buffer| / spec.channels
  }

  /**
   * The spectral step at the end of `reserve`, applied to the already-extended
   * sample queue.  With `delta` the frames not yet analysed and `unit` the window
   * length: the spectral queue grows only when `delta > unit`, and then by
   * `delta - delta % unit`, a positive multiple of `unit`, with the transform of
   * exactly the frames following those already analysed; otherwise it is unchanged.
   * It panics on a zero channel count (division), on a zero window with pending
   * frames (remainder by zero) and on growth with a channel count other than 1 or 2.
   */
  function SpectralUpdate(spec: WavSpec, window: Transform, buffer: seq<real>, fftBuffer: seq<Complex>)
    : (r: Outcome<seq<Complex>>)
    requires SpectralInvariant(spec, buffer, fftBuffer)
    ensures spec.channels == 0 ==> r.Panicked?
    ensures r.Returned? ==> SpectralInvariant(spec, buffer, r.value)
    ensures r.Returned? ==> |r.value| >= |fftBuffer| && r.value[..|fftBuffer|] == fftBuffer
  {
    if spec.channels == 0 then Panicked
    else
      var unit := UnitLen(spec);
      var delta := |buffer| / spec.channels - |fftBuffer|;
      if delta <= unit then Returned(fftBuffer)
      else if unit == 0 then Panicked
      else if spec.channels > 2 then Panicked
      else
        var chunks := delta / unit;
        DivMod(delta, unit);
        var grow := delta - delta % unit;
        var from := |fftBuffer|;
        Returned(fftBuffer + Process(window, SpectralInput(buffer, spec.channels, from, grow), unit, chunks))
  }

  /**
   * What the spectral step does, case by case: it panics exactly as described
   * above; without a whole window of pending frames beyond `unit` it changes
   * nothing; otherwise it keeps the old entries and appends the transform of the
   * `delta - delta % unit` frames that follow them, a positive whole number of
   * windows.
   */
  lemma SpectralGrowth(spec: WavSpec, window: Transform, buffer: seq<real>, fftBuffer: seq<Complex>)
    requires SpectralInvariant(spec, buffer, fftBuffer)
    requires spec.channels > 0
    ensures var r := SpectralUpdate(spec, window, buffer, fftBuffer);
      var delta := |buffer| / spec.channels - |fftBuffer|;
      var unit := UnitLen(spec);
      && (r.Panicked? <==> delta > unit && (unit == 0 || spec.channels > 2))
      && (r.Returned? && delta <= unit ==> r.value == fftBuffer)
      && (r.Returned? && delta > unit ==>
            var chunks := delta / unit;
            && 1 <= chunks && spec.channels <= 2
            && chunks * unit == delta - delta % unit
            && |r.value| == |fftBuffer| + chunks * unit
            && r.value[..|fftBuffer|] == fftBuffer
            && (|fftBuffer| + chunks * unit) * spec.channels <= |buffer|
            && r.value[|fftBuffer|..]
               == Process(window, SpectralInput(buffer, spec.channels, |fftBuffer|, chunks * unit), unit, chunks))
  {
    var r := SpectralUpdate(spec, window, buffer, fftBuffer);
    var delta := |buffer| / spec.channels - |fftBuffer|;
    var unit := UnitLen(spec);
    if delta <= unit {
      assert r == Returned(fftBuffer);
    } else if unit == 0 || spec.channels > 2 {
      assert r.Panicked?;
    } else {
      var chunks := delta / unit;
      DivMod(delta, unit);
      DivMod(|buffer|, spec.channels);
      var grow := chunks * unit;
      assert grow == delta - delta % unit;
      var added := Process(window, SpectralInput(buffer, spec.channels, |fftBuffer|, grow), unit, chunks);
      assert r == Returned(fftBuffer + added);
      assert (fftBuffer + added)[..|fftBuffer|] == fftBuffer;
      assert (fftBuffer + added)[|fftBuffer|..] == added;
    }
  }

  /** After a spectral step that does not panic, at most one window of frames is left unanalysed. */
  lemma SpectralLag(spec: WavSpec, window: Transform, buffer: seq<real>, fftBuffer: seq<Complex>)
    requires SpectralInvariant(spec, buffer, fftBuffer)
    requires SpectralUpdate(spec, window, buffer, fftBuffer).Returned?
    ensures |buffer| / spec.channels - |SpectralUpdate(spec, window, buffer, fftBuffer).value| <= UnitLen(spec)
  {
    var delta := |buffer| / spec.channels - |fftBuffer|;
    var unit := UnitLen(spec);
    if delta > unit {
      DivMod(delta, unit);
    }
  }

  // ------------------------------------------------------------------
  // The queue state and its two operations, as functions of the state
  // ------------------------------------------------------------------

  /** The mutable part of a `WavTextureMaker`. */
  datatype Maker = Maker(samples: WrapperSamples, buffer: seq<real>, fftBuffer: seq<Complex>)

  /**
   * `reserve(len)`: the new state, and whether the call panics.  The sample queue
   * grows by exactly `len` entries (decoded samples, then zeros: exhaustion is
   * never an error) before the spectral step runs.
   */
  function ReserveSpec(spec: WavSpec, window: Transform, m: Maker, len: nat): (r: (bool, Maker))
    requires SpectralInvariant(spec, m.buffer, m.fftBuffer)
    ensures |r.1.buffer| == |m.buffer| + len
    ensures r.1.buffer[..|m.buffer|] == m.buffer
    ensures forall i :: |m.buffer| <= i < |r.1.buffer| ==>
      r.1.buffer[i] == if i - |m.buffer| < Remaining(m.samples) then Decoded(m.samples)[i - |m.buffer|] else 0.0
    ensures r.1.samples == Advance(m.samples, len)
    ensures SpectralInvariant(spec, r.1.buffer, r.1.fftBuffer)
    ensures SpectralInvariant(spec, r.1.buffer, m.fftBuffer)
    ensures r.0 <==> SpectralUpdate(spec, window, r.1.buffer, m.fftBuffer).Panicked?
    ensures r.0 ==> r.1.fftBuffer == m.fftBuffer
    ensures |r.1.fftBuffer| >= |m.fftBuffer| && r.1.fftBuffer[..|m.fftBuffer|] == m.fftBuffer
    ensures !r.0 ==> r.1.fftBuffer == SpectralUpdate(spec, window, r.1.buffer, m.fftBuffer).value
  {
    var buffer := m.buffer + Padded(m.samples, len);
    assert buffer[..|m.buffer|] == m.buffer;
    assert spec.channels > 0 ==> |m.buffer| / spec.channels <= |buffer| / spec.channels by {
      if spec.channels > 0 {
        DivMonotone(|m.buffer|, |buffer|, spec.channels);
      }
    }
    var u := SpectralUpdate(spec, window, buffer, m.fftBuffer);
    (u.Panicked?, Maker(Advance(m.samples, len), buffer, if u.Returned? then u.value else m.fftBuffer))
  }

  /** The top-up at the start of `next_buffer`: reserve only when fewer than `len` samples are queued. */
  function TopUp(spec: WavSpec, window: Transform, m: Maker, len: nat): (r: (bool, Maker))
    requires SpectralInvariant(spec, m.buffer, m.fftBuffer)
    ensures SpectralInvariant(spec, r.1.buffer, r.1.fftBuffer)
    ensures |m.buffer| >= len ==> r == (false, m)
    ensures |m.buffer| < len ==> |r.1.buffer| == len && r.1.buffer[..|m.buffer|] == m.buffer
    ensures |r.1.fftBuffer| >= |m.fftBuffer| && r.1.fftBuffer[..|m.fftBuffer|] == m.fftBuffer
  {
    if |m.buffer| < len then ReserveSpec(spec, window, m, len - |m.buffer|) else (false, m)
  }

  datatype Texel = Texel(x: real, y: real, z: real, w: real)

  /** `res0.iter().zip(res1).map(|(x, y)| [*x, 0.0, y.re, y.im])`. */
  function PackMono(xs: seq<real>, ys: seq<Complex>): (r: seq<Texel>)
    ensures |r| == if |xs| < |ys| then |xs| else |ys|
    ensures forall i :: 0 <= i < |r| ==> r[i] == Texel(xs[i], 0.0, ys[i].re, ys[i].im)
    decreases |xs|
  {
    if xs == [] || ys == [] then [] else [Texel(xs[0], 0.0, ys[0].re, ys[0].im)] + PackMono(xs[1..], ys[1..])
  }

  /** `res0.chunks(2).zip(res1).map(|(x, y)| [x[0], x[1], y.re, y.im])`. */
  function PackStereo(xs: seq<real>, ys: seq<Complex>): (r: seq<Texel>)
    requires |xs| % 2 == 0
    ensures |r| == if |xs| / 2 < |ys| then |xs| / 2 else |ys|
    ensures forall i :: 0 <= i < |r| ==> r[i] == Texel(xs[2 * i], xs[2 * i + 1], ys[i].re, ys[i].im)
    decreases |xs|
  {
    if xs == [] || ys == [] then [] else [Texel(xs[0], xs[1], ys[0].re, ys[0].im)] + PackStereo(xs[2..], ys[1..])
  }

  /**
   * `next_buffer(len)`: after the top-up, remove the first `len * channels`
   * samples and the first `len` spectral entries and pack them into `len` texels.
   * Either `split_off` panics when its queue is too short, and an unknown channel
   * count panics after both splits.  A panic here happens with the asset's mutex
   * held, which poisons it: the state left behind is never used again, and it
   * need not satisfy the queue invariant (a failing second split leaves the
   * sample queue already shortened).
   */
  function NextBufferSpec(spec: WavSpec, window: Transform, m: Maker, len: nat): (r: (Outcome<seq<Texel>>, Maker))
    requires SpectralInvariant(spec, m.buffer, m.fftBuffer)
    ensures r.0.Returned? ==> SpectralInvariant(spec, r.1.buffer, r.1.fftBuffer) && |r.0.value| == len
  {
    var t := TopUp(spec, window, m, len);
    if t.0 then (Panicked, t.1) else SplitSpec(spec, t.1, len)
  }

  /**
   * The part of `next_buffer` after the top-up: the two `split_off` calls and
   * the packing, on the topped-up queues `m`.
   */
  function SplitSpec(spec: WavSpec, m: Maker, len: nat): (r: (Outcome<seq<Texel>>, Maker))
    requires SpectralInvariant(spec, m.buffer, m.fftBuffer)
    ensures r.0.Returned? ==> SpectralInvariant(spec, r.1.buffer, r.1.fftBuffer) && |r.0.value| == len
  {
    var take := len * spec.channels;
    if |m.buffer| < take then (Panicked, m)
    else if |m.fftBuffer| < len then (Panicked, m.(buffer := m.buffer[take..]))
    else
      var rest := m.(buffer := m.buffer[take..], fftBuffer := m.fftBuffer[len..]);
      var packed := Pack(spec.channels, m.buffer[..take], m.fftBuffer[..len]);
      if packed.Returned? then
        SplitKeepsInvariant(spec, m, len);
        (packed, rest)
      else (Panicked, rest)
  }

  /** The `match` on the channel count at the end of `next_buffer`. */
  function Pack(channels: nat, res0: seq<real>, res1: seq<Complex>): (r: Outcome<seq<Texel>>)
    requires channels == 2 ==> |res0| % 2 == 0
    ensures r.Returned? <==> channels == 1 || channels == 2
    ensures r.Returned? && |res0| == |res1| * channels ==> |r.value| == |res1|
  {
    if channels == 1 then Returned(PackMono(res0, res1))
    else if channels == 2 then Returned(PackStereo(res0, res1))
    else Panicked
  }

  /** Removing `len` frames and `len` spectral entries keeps the queue invariant. */
  lemma SplitKeepsInvariant(spec: WavSpec, m: Maker, len: nat)
    requires SpectralInvariant(spec, m.buffer, m.fftBuffer)
    requires spec.channels > 0 && len * spec.channels <= |m.buffer| && len <= |m.fftBuffer|
    ensures SpectralInvariant(spec, m.buffer[len * spec.channels..], m.fftBuffer[len..])
    ensures |m.buffer[len * spec.channels..]| / spec.channels - |m.fftBuffer[len..]|
         == |m.buffer| / spec.channels - |m.fftBuffer|
  {
    DivSub(|m.buffer|, len, spec.channels);
  }

  /**
   * What `next_buffer` does, in terms of the top-up: it panics exactly when the
   * top-up panics, a split finds its queue too short or the channel count is
   * unknown; when it returns, the first `len` frames and `len` spectral entries
   * were split off the topped-up queues and packed, in order, one texel per
   * frame, and the lag between the queues is unchanged.
   */
  lemma NextBufferSplits(spec: WavSpec, window: Transform, m: Maker, len: nat)
    requires SpectralInvariant(spec, m.buffer, m.fftBuffer)
    ensures var r := NextBufferSpec(spec, window, m, len);
      var t := TopUp(spec, window, m, len);
      && (r.0.Panicked? <==>
            t.0 || |t.1.buffer| < len * spec.channels || |t.1.fftBuffer| < len
            || (spec.channels != 1 && spec.channels != 2))
      && (r.0.Returned? ==>
            && r.1.samples == t.1.samples
            && t.1.buffer == t.1.buffer[..len * spec.channels] + r.1.buffer
            && t.1.fftBuffer == t.1.fftBuffer[..len] + r.1.fftBuffer
            && |r.0.value| == len
            && (forall i :: 0 <= i < len ==>
                  r.0.value[i] ==
                    if spec.channels == 1 then Texel(t.1.buffer[i], 0.0, t.1.fftBuffer[i].re, t.1.fftBuffer[i].im)
                    else Texel(t.1.buffer[2 * i], t.1.buffer[2 * i + 1], t.1.fftBuffer[i].re, t.1.fftBuffer[i].im))
            && |r.1.buffer| / spec.channels - |r.1.fftBuffer| == |t.1.buffer| / spec.channels - |t.1.fftBuffer|)
  {
    var r := NextBufferSpec(spec, window, m, len);
    var t := TopUp(spec, window, m, len);
    if r.0.Returned? {
      var b, f := t.1.buffer, t.1.fftBuffer;
      var take := len * spec.channels;
      assert r.1 == Maker(t.1.samples, b[take..], f[len..]);
      assert b == b[..take] + b[take..];
      assert f == f[..len] + f[len..];
      SplitKeepsInvariant(spec, t.1, len);
    }
  }

  /**
   * The conditions under which `next_buffer` returns: a known channel count, and
   * queues already holding `len` frames and `len` spectral entries (no top-up is
   * then needed).
   */
  lemma NextBufferReturns(spec: WavSpec, window: Transform, m: Maker, len: nat)
    requires SpectralInvariant(spec, m.buffer, m.fftBuffer)
    requires spec.channels == 1 || spec.channels == 2
    requires |m.buffer| >= len * spec.channels && |m.fftBuffer| >= len
    ensures NextBufferSpec(spec, window, m, len).0.Returned?
  {
    assert len * spec.channels >= len;
  }

  /**
   * The top-up counts samples where the split counts frames: a stereo call that
   * finds fewer than `len` samples queued tops up to exactly `len` samples and
   * then panics in the first split, which needs `2 * len`.
   */
  lemma StereoTopUpPanics(spec: WavSpec, window: Transform, m: Maker, len: nat)
    requires SpectralInvariant(spec, m.buffer, m.fftBuffer)
    requires spec.channels == 2 && |m.buffer| < len
    ensures NextBufferSpec(spec, window, m, len).0.Panicked?
  {
    var t := TopUp(spec, window, m, len);
    assert |t.1.buffer| == len < len * spec.channels;
  }

  /** Frames queued but not yet analysed. */
  function Lag(spec: WavSpec, m: Maker): int
    requires spec.channels > 0
  {
    |m.buffer| / spec.channels - |m.fftBuffer|
  }

  /** After a `reserve` that does not panic, unanalysed frames never exceed one window. */
  lemma ReserveLag(spec: WavSpec, window: Transform, m: Maker, len: nat)
    requires SpectralInvariant(spec, m.buffer, m.fftBuffer)
    requires spec.channels > 0
    ensures var r := ReserveSpec(spec, window, m, len);
      !r.0 ==> Lag(spec, r.1) <= UnitLen(spec)
  {
    var r := ReserveSpec(spec, window, m, len);
    if !r.0 {
      SpectralLag(spec, window, r.1.buffer, m.fftBuffer);
    }
  }

  /**
   * `next_buffer` removes as many frames as spectral entries, and its top-up is a
   * `reserve`: when it returns and at most one window was unanalysed before, at
   * most one window is unanalysed after.
   */
  lemma NextBufferLag(spec: WavSpec, window: Transform, m: Maker, len: nat)
    requires SpectralInvariant(spec, m.buffer, m.fftBuffer)
    requires spec.channels > 0
    ensures var r := NextBufferSpec(spec, window, m, len);
      r.0.Returned? && Lag(spec, m) <= UnitLen(spec) ==> Lag(spec, r.1) <= UnitLen(spec)
  {
    var r := NextBufferSpec(spec, window, m, len);
    var t := TopUp(spec, window, m, len);
    if r.0.Returned? && Lag(spec, m) <= UnitLen(spec) {
      assert !t.0 && r == SplitSpec(spec, t.1, len);
      assert Lag(spec, t.1) <= UnitLen(spec) by {
        if |m.buffer| < len {
          ReserveLag(spec, window, m, len - |m.buffer|);
        }
      }
      var take := len * spec.channels;
      assert take <= |t.1.buffer| && len <= |t.1.fftBuffer|;
      assert r.1 == Maker(t.1.samples, t.1.buffer[take..], t.1.fftBuffer[len..]);
      SplitKeepsInvariant(spec, t.1, len);
    }
  }

  // ------------------------------------------------------------------
  // The object
  // ------------------------------------------------------------------

  /** `WavTextureMaker`: a decoder, the sample queue, the spectral queue and the header. */
  class WavTextureMaker {
    var samples: WrapperSamples
    var buffer: seq<real>
    var fftBuffer: seq<Complex>
    const spec: WavSpec
    const window: Transform

    function State(): Maker
      reads this
    {
      Maker(samples, buffer, fftBuffer)
    }

    ghost predicate Valid()
      reads this
    {
      SpectralInvariant(spec, buffer, fftBuffer)
    }

    /** The `Ok` path of `try_new`: the header, the selected decoder, two empty queues. */
    constructor (file: WavFile, window: Transform)
      ensures Valid()
      ensures spec == SpecOfFile(file) && this.window == window
      ensures State() == Maker(SelectDecoder(file), [], [])
    {
      samples := SelectDecoder(file);
      buffer := [];
      fftBuffer := [];
      spec := SpecOfFile(file);
      this.window := window;
    }

    /** `try_new`: the error of opening the file is passed on as its message. */
    static method TryNew(openResult: Result<WavFile>, window: Transform) returns (r: Result<WavTextureMaker>)
      ensures openResult.Err? ==> r == Err(openResult.message)
      ensures openResult.Ok? ==>
        && r.Ok? && fresh(r.value) && r.value.Valid()
        && r.value.spec == SpecOfFile(openResult.value)
        && r.value.State() == Maker(SelectDecoder(openResult.value), [], [])
    {
      match openResult
      case Err(e) => r := Err(e);
      case Ok(file) =>
        var maker := new WavTextureMaker(file, window);
        r := Ok(maker);
    }

    /** `buffer_len`. */
    function BufferLen(): nat
      reads this
    {
      |buffer|
    }

    /** `reserve(len)`; `panicked` is true when the source panics, leaving the state reached so far. */
    method Reserve(len: nat) returns (panicked: bool)
      requires Valid()
      modifies this
      ensures Valid()
      ensures (panicked, State()) == ReserveSpec(spec, window, old(State()), len)
    {
      ghost var b0 := buffer;
      Extend(len);
      assert spec.channels > 0 ==> |b0| / spec.channels <= |buffer| / spec.channels by {
        if spec.channels > 0 {
          DivMonotone(|b0|, |buffer|, spec.channels);
        }
      }
      var u := SpectralUpdate(spec, window, buffer, fftBuffer);
      match u
      case Panicked => panicked := true;
      case Returned(f) => panicked := false; fftBuffer := f;
    }

    /** The `buffer.extend(..)` of `reserve`: `len` more samples, zeros once the decoder is exhausted. */
    method Extend(len: nat)
      modifies this
      ensures samples == Advance(old(samples), len)
      ensures buffer == old(buffer) + Padded(old(samples), len)
      ensures fftBuffer == old(fftBuffer)
    {
      ghost var s0, b0 := samples, buffer;
      var i := 0;
      while i < len
        invariant 0 <= i <= len
        invariant samples == Advance(s0, i)
        invariant buffer == b0 + Padded(s0, i)
        invariant fftBuffer == old(fftBuffer)
      {
        NextAfterAdvance(s0, i);
        PaddedStep(s0, i);
        var (v, rest) := Next(samples);
        var x := match v case Some(val) => val case None => 0.0;
        buffer := buffer + [x];
        samples := rest;
        i := i + 1;
      }
    }

    /** `next_buffer(len)`; `Panicked` when the source panics, leaving the state reached so far. */
    method NextBuffer(len: nat) returns (r: Outcome<seq<Texel>>)
      requires Valid()
      modifies this
      ensures r.Returned? ==> Valid()
      ensures (r, State()) == NextBufferSpec(spec, window, old(State()), len)
    {
      if |buffer| < len {
        var p := Reserve(len - |buffer|);
        if p {
          return Panicked;
        }
      }
      r := SplitOff(len);
    }

    /** The two `split_off` calls of `next_buffer` and the packing of what they split off. */
    method SplitOff(len: nat) returns (r: Outcome<seq<Texel>>)
      requires Valid()
      modifies this
      ensures r.Returned? ==> Valid()
      ensures (r, State()) == SplitSpec(spec, old(State()), len)
    {
      var take := len * spec.channels;
      if |buffer| < take {
        return Panicked;
      }
      var res0 := buffer[..take];
      buffer := buffer[take..];
      if |fftBuffer| < len {
        return Panicked;
      }
      var res1 := fftBuffer[..len];
      fftBuffer := fftBuffer[len..];
      if spec.channels == 1 {
        r := Returned(PackMono(res0, res1));
      } else if spec.channels == 2 {
        r := Returned(PackStereo(res0, res1));
      } else {
        r := Panicked;
      }
    }
  }
}
