/**
  The Output engine: it registers the voices (Sounds), evaluates them each control tick,
  publishes their partials to a double buffer, and turns the published partials into 16-bit
  samples. Threads are modelled as sequential steps; the sine function, the audio device and
  the MIDI input are parameters or left out.
*/
module Engine {
  import opened Base
  import Voice

  const SAMPLING_RATE: real := 44100.0
  const INV_SAMPLING_RATE: real := 1.0 / SAMPLING_RATE
  /** Highest frequency a partial may have to be rendered. */
  const NYQUIST: real := SAMPLING_RATE / 2.0
  /** Samples emitted per swap of the double buffer. */
  const SKIP: int := 32
  const DEFAULT_VOLUME_MULTIPLIER: real := 2000.0
  const MINIMUM_VOLUME_SQUARED: real := 0.0
  const PARTIALS_INTERPOLATION_ALPHA: real := 0.05
  const WELL_ABOVE_SUBNORMALS: real := 1.0e-100
  /** The double nearest to pi, and twice it. */
  const PI: real := 3.141592653589793
  const TWO_PI: real := 6.283185307179586
  const SAMPLE_MAX: int := 32767
  const SAMPLE_MIN: int := -32768

  // ---------------------------------------------------------------------------------------
  // 16-bit output

  /** The scaled sample forced into the 16-bit range, and whether that clipped it. */
  function ClampSample(d: real): (r: (real, bool))
    ensures SAMPLE_MIN as real <= r.0 <= SAMPLE_MAX as real
    ensures r.1 <==> d > SAMPLE_MAX as real || d < SAMPLE_MIN as real
    ensures !r.1 ==> r.0 == d
    ensures d > SAMPLE_MAX as real ==> r.0 == SAMPLE_MAX as real
    ensures d < SAMPLE_MIN as real ==> r.0 == SAMPLE_MIN as real
  {
    if d > SAMPLE_MAX as real then (SAMPLE_MAX as real, true)
    else if d < SAMPLE_MIN as real then (SAMPLE_MIN as real, true)
    else (d, false)
  }

  /** The byte stored first (little-endian): `(byte)(val & 255)`. */
  function LowByte(val: int): (b: int)
    ensures -128 <= b <= 127
  {
    ToByte(val % 256)
  }

  /** The byte stored second: `(byte)((val >> 8) & 255)`; `>>` on a Java int is a floor division. */
  function HighByte(val: int): (b: int)
    ensures -128 <= b <= 127
  {
    ToByte((val / 256) % 256)
  }

  /** A signed little-endian 16-bit value read back from its two bytes. */
  function Decode16(lo: int, hi: int): int
  {
    hi * 256 + lo % 256
  }

  /** Every 16-bit value survives encoding into two bytes and decoding. */
  lemma EncodeDecode(val: int)
    requires SAMPLE_MIN <= val <= SAMPLE_MAX
    ensures Decode16(LowByte(val), HighByte(val)) == val
  {
    var q := val / 256;
    var x := val % 256;
    assert val == q * 256 + x;
    assert -128 <= q <= 127;
    // the low byte keeps the residue
    if x < 128 {
      ModUnique(x + 128, 256, 0, x + 128);
      ModUnique(x, 256, 0, x);
    } else {
      ModUnique(x + 128, 256, 1, x - 128);
      ModUnique(x - 256, 256, -1, x);
    }
    assert LowByte(val) % 256 == x;
    // the high byte is the signed quotient
    if q >= 0 {
      ModUnique(q, 256, 0, q);
      ModUnique(q + 128, 256, 0, q + 128);
    } else {
      ModUnique(q, 256, -1, q + 256);
      ModUnique(q + 384, 256, 1, q + 128);
    }
    assert HighByte(val) == q;
  }

  /** The 16-bit value emitted for a built sample: scaled, clamped and truncated toward zero. */
  function Emitted(sample: real): (val: int)
    ensures SAMPLE_MIN <= val <= SAMPLE_MAX
    ensures !Clips(sample) ==> val as real <= sample * DEFAULT_VOLUME_MULTIPLIER < val as real + 1.0 ||
                               val as real - 1.0 < sample * DEFAULT_VOLUME_MULTIPLIER <= val as real
    ensures sample * DEFAULT_VOLUME_MULTIPLIER > SAMPLE_MAX as real ==> val == SAMPLE_MAX
    ensures sample * DEFAULT_VOLUME_MULTIPLIER < SAMPLE_MIN as real ==> val == SAMPLE_MIN
  {
    Trunc(ClampSample(sample * DEFAULT_VOLUME_MULTIPLIER).0)
  }

  /** Whether a built sample is clipped when it is scaled into the 16-bit range. */
  predicate Clips(sample: real)
  {
    ClampSample(sample * DEFAULT_VOLUME_MULTIPLIER).1
  }

  /**
    The block buffer encodes the samples: positions 2p and 2p + 1 hold the low and the high byte
    of the value emitted for sample p.
  */
  ghost predicate Encoded(buf: seq<int>, samples: seq<real>)
  {
    2 * |samples| <= |buf| &&
    forall p :: 0 <= p < |samples| ==>
      buf[2 * p] == LowByte(Emitted(samples[p])) && buf[2 * p + 1] == HighByte(Emitted(samples[p]))
  }

  /** Writing the next sample's two bytes behind an encoded prefix, and nothing before it, extends the encoding. */
  lemma EncodedExtend(before: seq<int>, after: seq<int>, samples: seq<real>, sample: real)
    requires Encoded(before, samples) && |after| == |before| && 2 * |samples| + 2 <= |after|
    requires forall q :: 0 <= q < 2 * |samples| ==> after[q] == before[q]
    requires after[2 * |samples|] == LowByte(Emitted(sample)) && after[2 * |samples| + 1] == HighByte(Emitted(sample))
    ensures Encoded(after, samples + [sample])
  {
    var next := samples + [sample];
    forall p | 0 <= p < |next|
      ensures after[2 * p] == LowByte(Emitted(next[p])) && after[2 * p + 1] == HighByte(Emitted(next[p]))
    {
      if p < |samples| {
        assert next[p] == samples[p];
      }
    }
  }

  /** Whether any of the samples is clipped. */
  function ClipsIn(samples: seq<real>): (b: bool)
    ensures b <==> exists p :: 0 <= p < |samples| && Clips(samples[p])
  {
    if samples == [] then false
    else
      var last := |samples| - 1;
      ClipsIn(samples[..last]) || Clips(samples[last])
  }

  // ---------------------------------------------------------------------------------------
  // Per-sample rendering

  /** Whether the smoothing snaps a slot straight to zero: both the old value and the step are tiny. */
  predicate Snaps(c: real, a: real)
  {
    !(c > WELL_ABOVE_SUBNORMALS || a * PARTIALS_INTERPOLATION_ALPHA > WELL_ABOVE_SUBNORMALS)
  }

  /**
    The smoothed amplitude of a slot: an exponential step from the current value c toward the
    target a, or exactly 0 once both are far below the subnormal range.
  */
  function Smooth(c: real, a: real): (r: real)
    ensures Snaps(c, a) ==> r == 0.0
    ensures !Snaps(c, a) ==> MinReal(c, a) <= r <= MaxReal(c, a)
    ensures 0.0 <= c && 0.0 <= a ==> 0.0 <= r
  {
    if c > WELL_ABOVE_SUBNORMALS || a * PARTIALS_INTERPOLATION_ALPHA > WELL_ABOVE_SUBNORMALS then
      ConvexBetween(c, a, PARTIALS_INTERPOLATION_ALPHA);
      c * (1.0 - PARTIALS_INTERPOLATION_ALPHA) + a * PARTIALS_INTERPOLATION_ALPHA
    else
      0.0
  }

  /** The smoothing closes a fixed fraction of the gap to the target at every sample. */
  lemma SmoothClosesGap(c: real, a: real)
    requires !Snaps(c, a)
    ensures Smooth(c, a) - a == (1.0 - PARTIALS_INTERPOLATION_ALPHA) * (c - a)
  {
  }

  /** The phase step per sample of a partial of relative frequency `freq` in a voice of pitch `pitch`. */
  function PhaseStep(freq: real, pitch: real): (r: real)
    ensures freq * pitch > 0.0 ==> r > 0.0
  {
    var tr := pitch * PI * 2.0 * INV_SAMPLING_RATE;
    assert freq * tr == (freq * pitch) * (PI * 2.0 * INV_SAMPLING_RATE);
    freq * tr
  }

  /**
    An advanced phase pulled back below 2*pi: one turn is subtracted, and the remainder taken
    only if that is not enough.
  */
  function WrapPhase(q: real): (r: real)
    requires q >= 0.0
    ensures 0.0 <= r < TWO_PI
    ensures q < TWO_PI ==> r == q
  {
    if q >= TWO_PI then
      var q1 := q - TWO_PI;
      if q1 >= TWO_PI then
        FMod(q1, TWO_PI)
      else
        q1
    else
      q
  }

  /** Wrapping only removes whole turns: the wrapped phase is the advanced one modulo 2*pi. */
  lemma WrapPhaseWholeTurns(q: real)
    requires q >= 0.0
    ensures var r := WrapPhase(q); ((q - r) / TWO_PI).Floor as real == (q - r) / TWO_PI
  {
    var q1 := q - TWO_PI;
    if q >= TWO_PI && q1 >= TWO_PI {
      OneMoreTurn(q1 - FMod(q1, TWO_PI));
    }
  }

  /** Adding one turn to a whole number of turns gives a whole number of turns. */
  lemma OneMoreTurn(d: real)
    requires (d / TWO_PI).Floor as real == d / TWO_PI
    ensures ((d + TWO_PI) / TWO_PI).Floor as real == (d + TWO_PI) / TWO_PI
  {
    var k := (d / TWO_PI).Floor;
    assert d == k as real * TWO_PI;
    assert (d + TWO_PI) / TWO_PI == (k + 1) as real;
  }

  /** Whether a smoothed amplitude is loud enough to be rendered. */
  predicate Audible(c: real)
  {
    c * c > MINIMUM_VOLUME_SQUARED
  }

  /** The rendering state of one voice while its slots are visited. */
  datatype VoiceState = VoiceState(ca: seq<real>, pos: seq<real>, sample: real, stopped: bool)

  /** The lengths match and every phase lies in [0, 2*pi). */
  predicate WellFormed(st: VoiceState, n: int)
  {
    |st.ca| == n && |st.pos| == n && forall k :: 0 <= k < n ==> 0.0 <= st.pos[k] < TWO_PI
  }

  /**
    One visit of slot i, whose order (target index) is oi: the slot's smoothed amplitude is
    updated; a silent slot goes no further; an audible one above Nyquist stops the voice; one
    with a non-positive frequency is skipped; otherwise its phase advances and it sounds.
  */
  function SlotStep(st: VoiceState, amp: real, freq: real, oi: int, pitch: real, v: real,
                    sin: real -> real): (r: VoiceState)
    requires WellFormed(st, |st.ca|) && 0 <= oi < |st.ca|
    ensures WellFormed(r, |st.ca|)
    ensures r.ca == st.ca[oi := Smooth(st.ca[oi], amp)]
  {
    var c := Smooth(st.ca[oi], amp);
    var ca := st.ca[oi := c];
    if !Audible(c) then
      st.(ca := ca)
    else if freq * pitch > NYQUIST then
      st.(ca := ca, stopped := true)
    else if freq * pitch <= 0.0 then
      st.(ca := ca)
    else
      var p := WrapPhase(st.pos[oi] + PhaseStep(freq, pitch));
      st.(ca := ca, pos := st.pos[oi := p], sample := st.sample + sin(p) * c * v)
  }

  /** An audible slot with a frequency in (0, Nyquist] advances its phase and adds its sine. */
  lemma SlotSounds(st: VoiceState, amp: real, freq: real, oi: int, pitch: real, v: real, sin: real -> real)
    requires WellFormed(st, |st.ca|) && 0 <= oi < |st.ca|
    requires Audible(Smooth(st.ca[oi], amp)) && 0.0 < freq * pitch <= NYQUIST
    ensures var c := Smooth(st.ca[oi], amp);
      var p := WrapPhase(st.pos[oi] + PhaseStep(freq, pitch));
      SlotStep(st, amp, freq, oi, pitch, v, sin) ==
        st.(ca := st.ca[oi := c], pos := st.pos[oi := p], sample := st.sample + sin(p) * c * v)
  {
  }

  /** An audible slot above Nyquist stops the voice after its smoothing. */
  lemma SlotStops(st: VoiceState, amp: real, freq: real, oi: int, pitch: real, v: real, sin: real -> real)
    requires WellFormed(st, |st.ca|) && 0 <= oi < |st.ca|
    requires Audible(Smooth(st.ca[oi], amp)) && freq * pitch > NYQUIST
    ensures SlotStep(st, amp, freq, oi, pitch, v, sin) == st.(ca := st.ca[oi := Smooth(st.ca[oi], amp)], stopped := true)
  {
  }

  /** A silent slot, or an audible one with a non-positive frequency, is only smoothed. */
  lemma SlotQuiet(st: VoiceState, amp: real, freq: real, oi: int, pitch: real, v: real, sin: real -> real)
    requires WellFormed(st, |st.ca|) && 0 <= oi < |st.ca|
    requires !Audible(Smooth(st.ca[oi], amp)) || freq * pitch <= 0.0
    ensures SlotStep(st, amp, freq, oi, pitch, v, sin) == st.(ca := st.ca[oi := Smooth(st.ca[oi], amp)])
  {
  }

  /** The state after the first k slots of a voice; once stopped, later slots change nothing. */
  function VoiceRun(init: VoiceState, amps: seq<real>, freqs: seq<real>, orders: seq<int>,
                    pitch: real, v: real, sin: real -> real, k: nat): (r: VoiceState)
    requires WellFormed(init, |init.ca|) && |amps| == |freqs| == |orders| && k <= |orders|
    requires forall j :: 0 <= j < |orders| ==> 0 <= orders[j] < |init.ca|
    ensures WellFormed(r, |init.ca|)
    decreases k
  {
    if k == 0 then init
    else
      var st := VoiceRun(init, amps, freqs, orders, pitch, v, sin, k - 1);
      if st.stopped then st
      else SlotStep(st, amps[k - 1], freqs[k - 1], orders[k - 1], pitch, v, sin)
  }

  /**
    The Nyquist break: once a voice has stopped, every further slot leaves its state untouched,
    so no later slot is smoothed or advanced in that sample.
  */
  lemma {:induction false} BreakIsFinal(init: VoiceState, amps: seq<real>, freqs: seq<real>, orders: seq<int>,
                                        pitch: real, v: real, sin: real -> real, k: nat, k': nat)
    requires WellFormed(init, |init.ca|) && |amps| == |freqs| == |orders| && k <= k' <= |orders|
    requires forall j :: 0 <= j < |orders| ==> 0 <= orders[j] < |init.ca|
    requires VoiceRun(init, amps, freqs, orders, pitch, v, sin, k).stopped
    ensures VoiceRun(init, amps, freqs, orders, pitch, v, sin, k') == VoiceRun(init, amps, freqs, orders, pitch, v, sin, k)
    decreases k' - k
  {
    if k' > k {
      BreakIsFinal(init, amps, freqs, orders, pitch, v, sin, k, k' - 1);
      var st := VoiceRun(init, amps, freqs, orders, pitch, v, sin, k' - 1);
      assert st.stopped;
      assert VoiceRun(init, amps, freqs, orders, pitch, v, sin, k') == st;
    }
  }

  /** With non-negative targets and smoothed values, smoothing keeps every slot non-negative. */
  lemma {:induction false} VoiceRunNonnegative(init: VoiceState, amps: seq<real>, freqs: seq<real>, orders: seq<int>,
                                               pitch: real, v: real, sin: real -> real, k: nat)
    requires WellFormed(init, |init.ca|) && |amps| == |freqs| == |orders| && k <= |orders|
    requires forall j :: 0 <= j < |orders| ==> 0 <= orders[j] < |init.ca|
    requires forall j :: 0 <= j < |amps| ==> 0.0 <= amps[j]
    requires forall j :: 0 <= j < |init.ca| ==> 0.0 <= init.ca[j]
    ensures forall j :: 0 <= j < |init.ca| ==> 0.0 <= VoiceRun(init, amps, freqs, orders, pitch, v, sin, k).ca[j]
  {
    if k > 0 {
      VoiceRunNonnegative(init, amps, freqs, orders, pitch, v, sin, k - 1);
    }
  }
  /** One voice's part of a buffer: its partials' amplitudes, frequencies and orders, its pitch and its scaled velocity. */
  datatype VoiceInput = VoiceInput(amps: seq<real>, freqs: seq<real>, orders: seq<int>, pitch: real, v: real)

  /** The input has n slots and every order names one of the n partials. */
  predicate InputFits(inp: VoiceInput, n: int)
  {
    |inp.amps| == n && |inp.freqs| == n && |inp.orders| == n && forall j :: 0 <= j < n ==> 0 <= inp.orders[j] < n
  }

  /** A voice rendered for one sample from its input, its smoothed amplitudes ca and its phases pos: VoiceRun over all slots. */
  function Render(inp: VoiceInput, ca: seq<real>, pos: seq<real>, sin: real -> real): VoiceState
    requires InputFits(inp, |ca|) && WellFormed(VoiceState(ca, pos, 0.0, false), |ca|)
  {
    VoiceRun(VoiceState(ca, pos, 0.0, false), inp.amps, inp.freqs, inp.orders, inp.pitch, inp.v, sin, |ca|)
  }

  /** The voices summed into a sample: all of them, or only the solo voice (voice 0 if none was played). */
  function SoloWindow(onlyPlayFirstSound: bool, lastPlayed: Option<int>, numSounds: int): (w: (int, int))
    ensures !onlyPlayFirstSound ==> w == (0, numSounds)
    ensures onlyPlayFirstSound ==> w.1 == w.0 + 1
    ensures onlyPlayFirstSound && lastPlayed.None? ==> w.0 == 0
  {
    if onlyPlayFirstSound then
      match lastPlayed
      case Some(i) => (i, i + 1)
      case None => (0, 1)
    else (0, numSounds)
  }

  /** The sum of the contributions of the voices s with lo <= s < hi. */
  function WindowSum(contribs: seq<real>, lo: int, hi: int): real
  {
    if contribs == [] then 0.0
    else
      var last := |contribs| - 1;
      WindowSum(contribs[..last], lo, hi) + (if lo <= last < hi then contribs[last] else 0.0)
  }

  /** A window holding one voice sums exactly that voice. */
  lemma {:induction false} SoloSum(contribs: seq<real>, s: int)
    requires 0 <= s < |contribs|
    ensures WindowSum(contribs, s, s + 1) == contribs[s]
  {
    var last := |contribs| - 1;
    if last > s {
      assert contribs[..last][s] == contribs[s];
      SoloSum(contribs[..last], s);
    } else {
      SilentOutside(contribs[..last], s, s + 1);
    }
  }

  /** Voices outside the window add nothing. */
  lemma {:induction false} SilentOutside(contribs: seq<real>, lo: int, hi: int)
    requires |contribs| <= lo
    ensures WindowSum(contribs, lo, hi) == 0.0
  {
    if contribs != [] {
      SilentOutside(contribs[..|contribs| - 1], lo, hi);
    }
  }

  // ---------------------------------------------------------------------------------------
  // Scheduling of the voices in go()

  /**
    The voices worker w runs as written, from its j-th voice on: w*nvpt + j, ... for j < nvpt,
    stopping at the first voice index above numSounds.
  */
  function WorkerVoices(w: nat, j: nat, nvpt: nat, numSounds: int): seq<int>
    decreases nvpt - j
  {
    if j >= nvpt then []
    else
      var voice := w * nvpt + j;
      if voice > numSounds then [] else [voice] + WorkerVoices(w, j + 1, nvpt, numSounds)
  }

  /** The voices of workers 0 .. k-1 as written, one worker after another. */
  function WorkersVoices(k: nat, nvpt: nat, numSounds: int): seq<int>
  {
    if k == 0 then [] else WorkersVoices(k - 1, nvpt, numSounds) + WorkerVoices(k - 1, 0, nvpt, numSounds)
  }

  /**
    The voices go() evaluates, as written: all of them inline when they fit in one thread's
    share, otherwise numSounds / nvpt workers (rounded down) of nvpt voices each.
  */
  function ScheduleAsWritten(numSounds: nat, nvpt: nat): seq<int>
    requires nvpt >= 1
  {
    if numSounds <= nvpt then Range(0, numSounds) else WorkersVoices(numSounds / nvpt, nvpt, numSounds)
  }

  /** A worker whose share ends at or below bound runs exactly its share, in order. */
  lemma {:induction false} WorkerRunsShare(w: nat, j: nat, nvpt: nat, numSounds: int, bound: int)
    requires j <= nvpt && w * nvpt + nvpt <= bound && bound <= numSounds + 1
    ensures WorkerVoices(w, j, nvpt, numSounds) == Range(w * nvpt + j, w * nvpt + nvpt)
    decreases nvpt - j
  {
    if j < nvpt {
      WorkerRunsShare(w, j + 1, nvpt, numSounds, bound);
    }
  }

  /** Workers 0 .. k-1 whose shares all end at or below numSounds run voices 0 .. k*nvpt - 1. */
  lemma {:induction false} WorkersRunPrefix(k: nat, nvpt: nat, numSounds: int)
    requires k * nvpt <= numSounds
    ensures WorkersVoices(k, nvpt, numSounds) == Range(0, k * nvpt)
  {
    if k > 0 {
      assert (k - 1) * nvpt + nvpt == k * nvpt;
      MulNonneg(k - 1, nvpt);
      WorkersRunPrefix(k - 1, nvpt, numSounds);
      WorkerRunsShare(k - 1, 0, nvpt, numSounds, k * nvpt);
      RangeAppend(0, (k - 1) * nvpt, k * nvpt);
    }
  }

  /** Consecutive ranges concatenate. */
  lemma RangeAppend(a: int, b: int, c: int)
    requires a <= b <= c
    ensures Range(a, b) + Range(b, c) == Range(a, c)
  {
  }

  /**
    As written, go() evaluates exactly the voices below numSounds, or below the largest
    multiple of nvpt not above numSounds when it fans out, each once and in index order.
  */
  lemma ScheduleAsWrittenCovers(numSounds: nat, nvpt: nat)
    requires nvpt >= 1
    ensures numSounds <= nvpt ==> ScheduleAsWritten(numSounds, nvpt) == Range(0, numSounds)
    ensures numSounds > nvpt ==>
      ScheduleAsWritten(numSounds, nvpt) == Range(0, (numSounds / nvpt) * nvpt)
  {
    if numSounds > nvpt {
      var k := numSounds / nvpt;
      assert numSounds == k * nvpt + numSounds % nvpt;
      WorkersRunPrefix(k, nvpt, numSounds);
    }
  }

  /** Three voices with two voices per thread: voice 2 is never evaluated. */
  lemma ScheduleSkipsVoice()
    ensures ScheduleAsWritten(3, 2) == [0, 1]
    ensures 2 !in ScheduleAsWritten(3, 2)
  {
    ScheduleAsWrittenCovers(3, 2);
    assert (3 / 2) * 2 == 2;
  }

  /** The number of workers needed so that every voice has one: numSounds / nvpt rounded up. */
  function NumThreads(numSounds: nat, nvpt: nat): (k: nat)
    requires nvpt >= 1
    ensures (k - 1) * nvpt < numSounds <= k * nvpt || (numSounds == 0 && k == 0)
  {
    var k := (numSounds + nvpt - 1) / nvpt;
    assert numSounds + nvpt - 1 == k * nvpt + (numSounds + nvpt - 1) % nvpt;
    k
  }

  /** The voices worker w runs with the guard `voice >= numSounds`, from its j-th voice on. */
  function WorkerVoicesIntended(w: nat, j: nat, nvpt: nat, numSounds: int): seq<int>
    decreases nvpt - j
  {
    if j >= nvpt then []
    else
      var voice := w * nvpt + j;
      if voice >= numSounds then [] else [voice] + WorkerVoicesIntended(w, j + 1, nvpt, numSounds)
  }

  /** The voices of workers 0 .. k-1 with the corrected guard. */
  function WorkersVoicesIntended(k: nat, nvpt: nat, numSounds: int): seq<int>
  {
    if k == 0 then [] else WorkersVoicesIntended(k - 1, nvpt, numSounds) + WorkerVoicesIntended(k - 1, 0, nvpt, numSounds)
  }

  /** The corrected schedule: enough workers (rounded up) and a guard that excludes numSounds itself. */
  function Schedule(numSounds: nat, nvpt: nat): seq<int>
    requires nvpt >= 1
  {
    if numSounds <= nvpt then Range(0, numSounds) else WorkersVoicesIntended(NumThreads(numSounds, nvpt), nvpt, numSounds)
  }

  /** A corrected worker runs its share up to the last voice. */
  lemma {:induction false} WorkerIntendedRunsShare(w: nat, j: nat, nvpt: nat, numSounds: nat)
    requires j <= nvpt && w * nvpt + j <= numSounds
    ensures WorkerVoicesIntended(w, j, nvpt, numSounds) == Range(w * nvpt + j, Min(w * nvpt + nvpt, numSounds))
    decreases nvpt - j
  {
    if j < nvpt && w * nvpt + j < numSounds {
      WorkerIntendedRunsShare(w, j + 1, nvpt, numSounds);
    }
  }

  /** Corrected workers 0 .. k-1 run the voices below min(k*nvpt, numSounds). */
  lemma {:induction false} WorkersIntendedRunPrefix(k: nat, nvpt: nat, numSounds: nat)
    requires (k - 1) * nvpt < numSounds || k == 0
    ensures WorkersVoicesIntended(k, nvpt, numSounds) == Range(0, Min(k * nvpt, numSounds))
  {
    if k > 0 {
      assert (k - 1) * nvpt + nvpt == k * nvpt;
      MulNonneg(k - 1, nvpt);
      if k > 1 {
        assert (k - 2) * nvpt + nvpt == (k - 1) * nvpt;
        MulNonneg(k - 2, nvpt);
      }
      WorkersIntendedRunPrefix(k - 1, nvpt, numSounds);
      WorkerIntendedRunsShare(k - 1, 0, nvpt, numSounds);
      RangeAppend(0, (k - 1) * nvpt, Min(k * nvpt, numSounds));
    }
  }

  /** With the correction every voice is evaluated exactly once, in index order. */
  lemma ScheduleCoversAll(numSounds: nat, nvpt: nat)
    requires nvpt >= 1
    ensures Schedule(numSounds, nvpt) == Range(0, numSounds)
  {
    if numSounds > nvpt {
      var k := NumThreads(numSounds, nvpt);
      WorkersIntendedRunPrefix(k, nvpt, numSounds);
    }
  }

  // ---------------------------------------------------------------------------------------
  // The double buffer and the engine

  /** The partials a voice's emitting unit offers for publication. */
  datatype Frame = Frame(amplitudes: seq<real>, frequencies: seq<real>, orders: seq<int>)

  /** A frame of n partials whose orders name slots 0 .. n-1. */
  predicate FrameFits(f: Frame, n: nat)
  {
    |f.amplitudes| == n && |f.frequencies| == n && |f.orders| == n &&
    forall k :: 0 <= k < n ==> 0 <= f.orders[k] < n
  }

  /** Row s of a two-dimensional array. */
  ghost function Row<T>(a: array2<T>, s: int): (r: seq<T>)
    reads a
    requires 0 <= s < a.Length0
    ensures |r| == a.Length1 && forall k :: 0 <= k < a.Length1 ==> r[k] == a[s, k]
  {
    seq(a.Length1, k requires 0 <= k < a.Length1 reads a => a[s, k])
  }

  /** What the primary voice thread does to a voice: reset it or evaluate it (its go()). */
  datatype VoiceStep = ResetVoice(voice: int) | GoVoice(voice: int)

  /** Resetting voices 0 .. k-1 in order. */
  ghost function Resets(k: nat): seq<VoiceStep>
  {
    seq(k, i => ResetVoice(i))
  }

  /** Evaluating voices lo .. hi-1, one after the other. */
  ghost function GoRange(lo: int, hi: int): seq<VoiceStep>
    decreases hi - lo
  {
    if lo >= hi then [] else GoRange(lo, hi - 1) + [GoVoice(hi - 1)]
  }

  /** Evaluating the given voices in order. */
  ghost function Goes(vs: seq<int>): seq<VoiceStep>
  {
    seq(|vs|, i requires 0 <= i < |vs| => GoVoice(vs[i]))
  }

  /** Java's `++` on an int field, one step at a time, is addition modulo 2^32. */
  lemma Wrap32Succ(x: int)
    ensures Wrap32(Wrap32(x) + 1) == Wrap32(x + 1)
  {
    ModSucc(x - INT_MIN, 0x1_0000_0000);
  }

  /** Java's `++` on an int: the largest int steps over to the smallest. */
  function Inc32(x: int): int
  {
    if x == INT_MAX then INT_MIN else x + 1
  }

  /** On a Java int, `++` is the addition of one, wrapped into 32 bits. */
  lemma Inc32Wraps(x: int)
    requires INT_MIN <= x <= INT_MAX
    ensures Inc32(x) == Wrap32(x + 1)
  {
    if x == INT_MAX {
      ModUnique(x + 1 - INT_MIN, 0x1_0000_0000, 1, 0);
    }
  }

  /** The Java int tick after k increments from t. */
  function Ticked(t: int, k: nat): int
  {
    if k == 0 then t else Inc32(Ticked(t, k - 1))
  }

  /** k increments of a Java int are one addition of k, wrapped once into 32 bits. */
  lemma {:induction false} TickedWraps(t: int, k: nat)
    requires INT_MIN <= t <= INT_MAX
    ensures Ticked(t, k) == Wrap32(t + k)
  {
    if k > 0 {
      TickedWraps(t, k - 1);
      Inc32Wraps(Wrap32(t + k - 1));
      Wrap32Succ(t + k - 1);
    }
  }

  /** A fresh voice table with every slot empty. */
  method EmptyTable(size: nat) returns (t: array<Voice.Sound?>)
    ensures fresh(t) && t.Length == size && forall i :: 0 <= i < size ==> t[i] == null
  {
    t := new Voice.Sound?[size](_ => null);
  }

  /** A fresh rows-by-cols matrix of zeros. */
  method ZeroMatrix(rows: nat, cols: nat) returns (m: array2<real>)
    ensures fresh(m) && m.Length0 == rows && m.Length1 == cols
    ensures forall i, j :: 0 <= i < rows && 0 <= j < cols ==> m[i, j] == 0.0
  {
    m := new real[rows, cols]((_, _) => 0.0);
  }

  /** A fresh buffer of zeros. */
  method ZeroBuffer(size: nat) returns (b: array<int>)
    ensures fresh(b) && b.Length == size && forall i :: 0 <= i < size ==> b[i] == 0
  {
    b := new int[size](_ => 0);
  }

  /** One side of the double buffer: per-voice partials, pitches and velocities, and the output gain. */
  class Swap {
    const numVoices: nat
    /** Number of partials per voice. */
    const n: nat
    /** Publications into this buffer. */
    var count: int
    /** Hand-offs of this buffer to the voice side (`reads` in the source; a keyword here). */
    var readCount: int
    const amplitudes: array2<real>
    const frequencies: array2<real>
    const orders: array2<int>
    const pitches: array<real>
    const velocities: array<real>
    var gain: real

    ghost function Repr(): set<object>
    {
      {amplitudes as object, frequencies as object, orders as object, pitches as object, velocities as object}
    }

    ghost predicate Valid()
      reads orders
    {
      amplitudes.Length0 == numVoices && amplitudes.Length1 == n &&
      frequencies.Length0 == numVoices && frequencies.Length1 == n &&
      orders.Length0 == numVoices && orders.Length1 == n &&
      pitches.Length == numVoices && velocities.Length == numVoices &&
      amplitudes != frequencies && pitches != velocities &&
      forall i, k :: 0 <= i < numVoices && 0 <= k < n ==> 0 <= orders[i, k] < n
    }

    constructor (numVoices: nat, n: nat)
      ensures Valid() && this.numVoices == numVoices && this.n == n
      ensures count == 1 && readCount == 1 && gain == 1.0
      ensures fresh(Repr())
    {
      this.numVoices := numVoices;
      this.n := n;
      count := 1;
      readCount := 1;
      amplitudes := new real[numVoices, n]((_, _) => 0.0);
      frequencies := new real[numVoices, n]((_, _) => 0.0);
      orders := new int[numVoices, n]((_, _) => 0);
      pitches := new real[numVoices](_ => 0.0);
      velocities := new real[numVoices](_ => 0.0);
      gain := 1.0;
    }

    /**
      Copies one voice's frame into row i; without a frame the row becomes silent with the
      standard orders `(byte) k`.
    */
    method Store(i: int, e: Option<Frame>)
      requires Valid() && 0 <= i < numVoices && n <= 128
      requires e.Some? ==> FrameFits(e.value, n)
      modifies amplitudes, frequencies, orders
      ensures Valid() && RowHolds(this, i, e)
      ensures forall r :: 0 <= r < numVoices && r != i ==> RowsUnchanged(this, r, old(Row(amplitudes, r)),
                old(Row(frequencies, r)), old(Row(orders, r)))
    {
      var k := 0;
      while k < n
        invariant 0 <= k <= n && Valid()
        invariant forall q :: 0 <= q < k ==> amplitudes[i, q] == (if e.Some? then e.value.amplitudes[q] else 0.0)
        invariant forall q :: 0 <= q < k ==> frequencies[i, q] == (if e.Some? then e.value.frequencies[q] else 0.0)
        invariant forall q :: 0 <= q < k ==> orders[i, q] == (if e.Some? then e.value.orders[q] else q)
        invariant forall r :: 0 <= r < numVoices && r != i ==> RowsUnchanged(this, r, old(Row(amplitudes, r)),
                    old(Row(frequencies, r)), old(Row(orders, r)))
      {
        if e.Some? {
          amplitudes[i, k] := e.value.amplitudes[k];
          frequencies[i, k] := e.value.frequencies[k];
          orders[i, k] := e.value.orders[k];
        } else {
          amplitudes[i, k] := 0.0;
          frequencies[i, k] := 0.0;
          orders[i, k] := ToByte(k);
        }
        k := k + 1;
      }
    }
  }

  class Output {
    const numVoices: nat
    /** Number of partials per voice. */
    const n: nat
    const numVoicesPerThread: nat
    const sounds: array<Voice.Sound?>
    var numSounds: nat
    var tick: int
    var syncTick: int
    var clipped: bool
    var emitsReady: bool
    var onlyPlayFirstSound: bool
    var soundThreadsStarted: bool
    /** The buffer the voice side fills. */
    var swap: Swap
    /** The buffer the output side renders from. */
    var with: Swap
    var totalOutputTicks: int
    var totalOutputWaits: int
    /** The phase of every partial of every voice: one row per voice, indexed by order. */
    const positions: array2<real>
    /**
      The smoothed amplitudes of every partial of every voice, one row per voice. The output loop
      allocates this matrix once and hands it to every sample it builds.
    */
    const currentAmplitudes: array2<real>
    /** Two bytes per sample for one block of SKIP samples. */
    const audioBuffer: array<int>
    /** The resets and evaluations of voices, in the order the primary voice thread makes them. */
    ghost var voiceSteps: seq<VoiceStep>

    ghost predicate Valid()
      reads this`numSounds, this`swap, this`with, sounds, swap.orders, with.orders, positions
    {
      numVoicesPerThread >= 1 && n <= 128 && audioBuffer.Length == 2 * SKIP &&
      SoundsValid() && BuffersValid() && RowsValid() && RowsApart() && PhasesInRange()
    }

    /** The registered sounds occupy the first numSounds slots. */
    ghost predicate SoundsValid()
      reads this`numSounds, sounds
    {
      sounds.Length == numVoices && numSounds <= numVoices &&
      forall i :: 0 <= i < numSounds ==> sounds[i] != null
    }

    /** The two buffers are distinct, well formed, sized for the engine and share no array. */
    ghost predicate BuffersValid()
      reads this`swap, this`with, swap.orders, with.orders
    {
      swap != with && swap.Valid() && with.Valid() &&
      swap.numVoices == numVoices && swap.n == n && with.numVoices == numVoices && with.n == n &&
      swap.Repr() !! with.Repr()
    }

    /** There is one row of n phases and one row of n smoothed amplitudes per voice, in two distinct matrices. */
    ghost predicate RowsValid()
    {
      positions.Length0 == numVoices && positions.Length1 == n &&
      currentAmplitudes.Length0 == numVoices && currentAmplitudes.Length1 == n && positions != currentAmplitudes
    }

    /** Neither buffer holds its partials in the phase or smoothed amplitude matrix. */
    ghost predicate RowsApart()
      reads this`swap, this`with
    {
      ApartFrom(swap) && ApartFrom(with)
    }

    /** The phase and smoothed amplitude matrices are not arrays of buffer sw. */
    ghost predicate ApartFrom(sw: Swap)
    {
      positions != sw.amplitudes && positions != sw.frequencies &&
      currentAmplitudes != sw.amplitudes && currentAmplitudes != sw.frequencies
    }

    /** Every phase lies in [0, 2 pi). */
    ghost predicate PhasesInRange()
      reads positions
      requires RowsValid()
    {
      forall s, k :: 0 <= s < numVoices && 0 <= k < n ==> 0.0 <= positions[s, k] < TWO_PI
    }

    constructor (numVoices: nat, n: nat, numVoicesPerThread: nat)
      requires numVoicesPerThread >= 1 && n <= 128
      ensures Valid() && this.numVoices == numVoices && this.n == n && this.numVoicesPerThread == numVoicesPerThread
      ensures numSounds == 0 && tick == 0 && syncTick == 0 && !clipped && !emitsReady
      ensures !soundThreadsStarted && voiceSteps == []
      ensures swap.count == 1 && swap.readCount == 1 && with.count == 1 && with.readCount == 1
      ensures fresh(sounds) && fresh(audioBuffer)
      ensures fresh(positions) && fresh(currentAmplitudes)
      ensures fresh(swap) && fresh(with)
    {
      this.numVoices := numVoices;
      this.n := n;
      this.numVoicesPerThread := numVoicesPerThread;
      var table := EmptyTable(numVoices);
      sounds := table;
      numSounds := 0;
      tick := 0;
      syncTick := 0;
      clipped := false;
      emitsReady := false;
      onlyPlayFirstSound := false;
      soundThreadsStarted := false;
      totalOutputTicks := 0;
      totalOutputWaits := 0;
      var fill := new Swap(numVoices, n);
      var render := new Swap(numVoices, n);
      assert fill.Repr() !! render.Repr();
      swap := fill;
      with := render;
      var phases := ZeroMatrix(numVoices, n);
      var smoothed := ZeroMatrix(numVoices, n);
      var bytes := ZeroBuffer(2 * SKIP);
      positions := phases;
      currentAmplitudes := smoothed;
      audioBuffer := bytes;
      voiceSteps := [];
      new;
      assert BuffersValid() && RowsApart();
      assert SoundsValid() && PhasesInRange();
    }

    /**
      The output side's hand-off: when new partials are ready the two buffers trade places (no
      copying) and the one now being filled counts a read; otherwise only a wait is counted.
    */
    method CheckAndSwap()
      requires Valid()
      modifies this`swap, this`with, this`emitsReady, this`totalOutputTicks, this`totalOutputWaits, with`readCount
      ensures Valid()
      ensures totalOutputTicks == Wrap32(old(totalOutputTicks) + 1)
      ensures old(emitsReady) ==>
        swap == old(with) && with == old(swap) && swap.readCount == Wrap32(old(with.readCount) + 1) &&
        !emitsReady && totalOutputWaits == old(totalOutputWaits)
      ensures !old(emitsReady) ==>
        swap == old(swap) && with == old(with) && with.readCount == old(with.readCount) &&
        !emitsReady && totalOutputWaits == Wrap32(old(totalOutputWaits) + 1)
    {
      totalOutputTicks := Wrap32(totalOutputTicks + 1);
      if emitsReady {
        var temp := swap;
        swap := with;
        with := temp;
        swap.readCount := Wrap32(swap.readCount + 1);
        emitsReady := false;
      } else {
        totalOutputWaits := Wrap32(totalOutputWaits + 1);
      }
    }

    /** A sound registers itself: it receives the next index and is stored there. */
    method Register(sound: Voice.Sound)
      requires Valid() && numSounds < numVoices
      modifies sounds, this`numSounds, sound`index
      ensures Valid()
      ensures sound.index == old(numSounds) && numSounds == old(numSounds) + 1
      ensures sounds[old(numSounds)] == sound
      ensures forall i :: 0 <= i < sounds.Length && i != old(numSounds) ==> sounds[i] == old(sounds[i])
    {
      sound.index := numSounds;
      sounds[numSounds] := sound;
      numSounds := numSounds + 1;
    }

    /** The sound stored at index i; an index outside the array is an error. */
    function GetSound(i: int): (r: Option<Voice.Sound?>)
      reads this, sounds
      ensures r.Some? <==> 0 <= i < sounds.Length
      ensures r.Some? ==> r.value == sounds[i]
    {
      if 0 <= i < sounds.Length then Some(sounds[i]) else None
    }

    /** The number of registered sounds; each index below it names a sound. */
    function GetNumSounds(): (r: nat)
      reads this, sounds, swap.orders, with.orders, positions
      ensures Valid() ==> r <= numVoices && forall i :: 0 <= i < r ==> GetSound(i).Some? && GetSound(i).value != null
    {
      numSounds
    }

    /** The tick as of the last synchronisation. */
    function GetTick(): int
      reads this
    {
      syncTick
    }

    /** Freezes the output's tick for the voices of this control step. */
    method SyncTick()
      requires Valid()
      modifies this`syncTick
      ensures Valid() && GetTick() == tick
    {
      syncTick := tick;
    }

    /** Reports whether any sample was clipped since the last call, and clears the flag. */
    method GetAndResetClipped() returns (val: bool)
      modifies this`clipped
      ensures val == old(clipped) && !clipped
    {
      val := clipped;
      clipped := false;
    }

    /**
      The voice half of go(): the tick is synchronised, every registered voice is reset when the
      voices have not been started yet, and then every registered voice is evaluated exactly once,
      in index order: inline when there are at most numVoicesPerThread of them, otherwise by
      workers of numVoicesPerThread consecutive voices each (the corrected schedule).
    */
    method RunVoices()
      requires Valid()
      modifies this`syncTick, this`soundThreadsStarted, this`voiceSteps
      ensures Valid() && GetTick() == tick && soundThreadsStarted
      ensures voiceSteps == old(voiceSteps) + (if old(soundThreadsStarted) then [] else Resets(numSounds))
                            + Goes(Schedule(numSounds, numVoicesPerThread))
    {
      SyncTick();
      if !soundThreadsStarted {
        ResetVoices();
      }
      ScheduleGoes(numSounds, numVoicesPerThread);
      if numSounds <= numVoicesPerThread {
        RunInline();
        MarkStarted();
      } else {
        // the workers are started (once) before they run
        MarkStarted();
        RunWorkers();
      }
    }

    /** Records that the voices have been started, so later steps do not reset them again. */
    method MarkStarted()
      requires Valid()
      modifies this`soundThreadsStarted
      ensures Valid() && soundThreadsStarted
    {
      soundThreadsStarted := true;
    }

    /** Evaluates every registered voice in the calling thread, in index order. */
    method RunInline()
      requires Valid()
      modifies this`voiceSteps
      ensures Valid() && voiceSteps == old(voiceSteps) + GoRange(0, numSounds)
    {
      var i := 0;
      while i < numSounds
        invariant 0 <= i <= numSounds
        invariant voiceSteps == old(voiceSteps) + GoRange(0, i)
      {
        voiceSteps := voiceSteps + [GoVoice(i)];
        i := i + 1;
      }
    }

    /** Resets every registered voice, in index order. */
    method ResetVoices()
      requires Valid()
      modifies this`voiceSteps
      ensures Valid() && voiceSteps == old(voiceSteps) + Resets(numSounds)
    {
      var i := 0;
      while i < numSounds
        invariant 0 <= i <= numSounds
        invariant voiceSteps == old(voiceSteps) + Resets(i)
      {
        assert Resets(i + 1) == Resets(i) + [ResetVoice(i)];
        voiceSteps := voiceSteps + [ResetVoice(i)];
        i := i + 1;
      }
    }

    /**
      The fan-out: NumThreads workers (numSounds / numVoicesPerThread rounded up), each running
      its share of the voices.
    */
    method RunWorkers()
      requires Valid()
      modifies this`voiceSteps
      ensures Valid() && voiceSteps == old(voiceSteps) + GoRange(0, numSounds)
    {
      var numThreads := NumThreads(numSounds, numVoicesPerThread);
      var w := 0;
      ghost var done := 0;
      while w < numThreads
        invariant 0 <= w <= numThreads && done == Min(w * numVoicesPerThread, numSounds)
        invariant voiceSteps == old(voiceSteps) + GoRange(0, done)
      {
        ghost var next := WorkerStep(w, numThreads, numVoicesPerThread, numSounds);
        RunWorker(w);
        GoRangeAppend(0, done, next);
        done := next;
        w := w + 1;
      }
    }

    /**
      Worker w evaluates voices w * numVoicesPerThread + j for j < numVoicesPerThread, stopping
      at the first index that is not a registered voice.
    */
    method RunWorker(w: nat)
      requires w * numVoicesPerThread <= numSounds
      modifies this`voiceSteps
      ensures voiceSteps == old(voiceSteps) +
        GoRange(w * numVoicesPerThread, Min(w * numVoicesPerThread + numVoicesPerThread, numSounds))
    {
      var j := 0;
      while j < numVoicesPerThread
        invariant 0 <= j <= numVoicesPerThread && w * numVoicesPerThread + j <= numSounds
        invariant voiceSteps == old(voiceSteps) + GoRange(w * numVoicesPerThread, w * numVoicesPerThread + j)
      {
        var voice := w * numVoicesPerThread + j;
        if voice >= numSounds {
          break;
        }
        voiceSteps := voiceSteps + [GoVoice(voice)];
        j := j + 1;
      }
    }

    /** Publishes voice i: its frame, its pitch and its velocity. */
    method PublishVoice(i: int, e: Option<Frame>)
      requires Valid() && 0 <= i < numSounds
      requires e.Some? ==> FrameFits(e.value, n)
      modifies swap.amplitudes, swap.frequencies, swap.orders, swap.pitches, swap.velocities
      ensures Valid() && RowHolds(swap, i, e)
      ensures swap.pitches[i] == sounds[i].pitch && swap.velocities[i] == sounds[i].velocity
      ensures forall r :: 0 <= r < numVoices && r != i ==> RowsUnchanged(swap, r, old(Row(swap.amplitudes, r)),
                old(Row(swap.frequencies, r)), old(Row(swap.orders, r)))
      ensures forall r :: 0 <= r < numVoices && r != i ==>
        swap.pitches[r] == old(swap.pitches[r]) && swap.velocities[r] == old(swap.velocities[r])
    {
      swap.Store(i, e);
      swap.pitches[i] := sounds[i].pitch;
      swap.velocities[i] := sounds[i].velocity;
    }

    /** Publishes every registered voice in index order. */
    method PublishVoices(emits: seq<Option<Frame>>)
      requires Valid() && |emits| == numSounds
      requires forall i :: 0 <= i < |emits| && emits[i].Some? ==> FrameFits(emits[i].value, n)
      modifies swap.amplitudes, swap.frequencies, swap.orders, swap.pitches, swap.velocities
      ensures Valid()
      ensures forall i :: 0 <= i < numSounds ==> RowHolds(swap, i, emits[i])
      ensures forall i :: 0 <= i < numSounds ==>
        swap.pitches[i] == sounds[i].pitch && swap.velocities[i] == sounds[i].velocity
      ensures forall i :: numSounds <= i < numVoices ==> RowsUnchanged(swap, i, old(Row(swap.amplitudes, i)),
                old(Row(swap.frequencies, i)), old(Row(swap.orders, i)))
      ensures forall i :: numSounds <= i < numVoices ==>
        swap.pitches[i] == old(swap.pitches[i]) && swap.velocities[i] == old(swap.velocities[i])
    {
      var i := 0;
      while i < numSounds
        invariant 0 <= i <= numSounds && Valid()
        invariant forall r :: 0 <= r < i ==> RowHolds(swap, r, emits[r])
        invariant forall r :: 0 <= r < i ==>
          swap.pitches[r] == sounds[r].pitch && swap.velocities[r] == sounds[r].velocity
        invariant forall r :: i <= r < numVoices ==> RowsUnchanged(swap, r, old(Row(swap.amplitudes, r)),
                    old(Row(swap.frequencies, r)), old(Row(swap.orders, r)))
        invariant forall r :: i <= r < numVoices ==>
          swap.pitches[r] == old(swap.pitches[r]) && swap.velocities[r] == old(swap.velocities[r])
      {
        PublishVoice(i, emits[i]);
        i := i + 1;
      }
    }

    /**
      The publication half of go(): the gain is voice 0's output gain (1 when voice 0 does not
      emit through an output unit); each registered voice's frame, pitch and velocity are copied
      into the buffer being filled; the buffer counts one more publication and is offered to the
      output side. With no registered sound, reading voice 0 fails before anything is written:
      `ok` is false and nothing changes.
    */
    method Publish(emits: seq<Option<Frame>>, outGain: Option<real>) returns (ok: bool)
      requires Valid() && !emitsReady && |emits| == numSounds
      requires forall i :: 0 <= i < |emits| && emits[i].Some? ==> FrameFits(emits[i].value, n)
      modifies swap.amplitudes, swap.frequencies, swap.orders, swap.pitches, swap.velocities
      modifies swap`gain, swap`count, this`emitsReady
      ensures Valid()
      ensures ok <==> 1 <= numSounds
      ensures !ok ==> !emitsReady && swap.gain == old(swap.gain) && swap.count == old(swap.count)
      ensures !ok ==> unchanged(swap.amplitudes, swap.frequencies, swap.orders, swap.pitches, swap.velocities)
      ensures ok ==> emitsReady
      ensures ok ==> forall i :: 0 <= i < numSounds ==> RowHolds(swap, i, emits[i])
      ensures ok ==> forall i :: 0 <= i < numSounds ==>
        swap.pitches[i] == sounds[i].pitch && swap.velocities[i] == sounds[i].velocity
      ensures forall i :: numSounds <= i < numVoices ==> RowsUnchanged(swap, i, old(Row(swap.amplitudes, i)),
                old(Row(swap.frequencies, i)), old(Row(swap.orders, i)))
      ensures forall i :: numSounds <= i < numVoices ==>
        swap.pitches[i] == old(swap.pitches[i]) && swap.velocities[i] == old(swap.velocities[i])
      ensures ok ==> swap.gain == outGain.GetOr(1.0)
      ensures ok ==> swap.count == Wrap32(old(swap.count) + 1)
    {
      if numSounds == 0 {
        return false;
      }
      ok := true;
      PublishVoices(emits);
      swap.gain := if outGain.Some? then outGain.value else 1.0;
      swap.count := Wrap32(swap.count + 1);
      emitsReady := true;
    }

    /**
      Renders voice s for one sample from the buffer being played: every slot is smoothed toward
      its target in the slot's order, and audible slots below Nyquist advance their phase and
      sound; the first audible slot above Nyquist ends the voice's sample. The voice's new smoothed
      amplitudes, phases and contribution are those of VoiceRun over all n slots; no other voice's
      rows change.
    */
    method RenderVoice(s: int, sin: real -> real, ghost inp: VoiceInput) returns (contrib: real)
      requires RowsValid() && ApartFrom(with) && with.Valid() && with.n == n && with.numVoices == numVoices
      requires 0 <= s < numVoices && inp == Input(with, s)
      requires forall k :: 0 <= k < n ==> 0.0 <= positions[s, k] < TWO_PI
      modifies currentAmplitudes, positions
      ensures var r := Render(inp, old(Row(currentAmplitudes, s)), old(Row(positions, s)), sin);
        contrib == r.sample && Mirrors(s, r)
      ensures forall r, k :: 0 <= r < numVoices && r != s && 0 <= k < n ==>
        currentAmplitudes[r, k] == old(currentAmplitudes[r, k]) && positions[r, k] == old(positions[r, k])
      ensures forall r, st :: r != s && old(Mirrors(r, st)) ==> Mirrors(r, st)
    {
      ghost var init := VoiceState(Row(currentAmplitudes, s), Row(positions, s), 0.0, false);
      var v := with.velocities[s] * with.gain;
      var pitch := with.pitches[s];
      contrib := RenderSlots(s, pitch, v, sin, init);
    }

    /**
      One output sample: every registered voice is rendered (so all of them keep smoothing and
      advancing), and the contributions of the voices in the solo window are summed. The solo
      voice is the last played sound's index, or voice 0 when none was played.
    */
    method BuildSample(lastPlayed: Option<int>, sin: real -> real) returns (sample: real, ghost contribs: seq<real>)
      requires Valid()
      modifies currentAmplitudes, positions
      ensures Valid() && |contribs| == numSounds
      ensures var w := SoloWindow(onlyPlayFirstSound, lastPlayed, numSounds); sample == WindowSum(contribs, w.0, w.1)
      ensures forall s :: 0 <= s < numSounds ==>
        var r := Render(old(Input(with, s)), old(Row(currentAmplitudes, s)), old(Row(positions, s)), sin);
        contribs[s] == r.sample && Mirrors(s, r)
      ensures forall s, k :: numSounds <= s < numVoices && 0 <= k < n ==>
        currentAmplitudes[s, k] == old(currentAmplitudes[s, k]) && positions[s, k] == old(positions[s, k])
    {
      var start := 0;
      var end := numSounds;
      if onlyPlayFirstSound {
        if lastPlayed.Some? {
          start := lastPlayed.value;
          end := start + 1;
        } else {
          start := 0;
          end := 1;
        }
      }
      sample, contribs := RenderVoices(start, end, sin);
    }

    /**
      The voice loop of BuildSample: voices 0 .. numSounds - 1 are rendered in index order and
      the contributions of voices lo .. hi - 1 are summed.
    */
    method RenderVoices(lo: int, hi: int, sin: real -> real) returns (sample: real, ghost contribs: seq<real>)
      requires RowsValid() && ApartFrom(with) && with.Valid() && with.n == n && with.numVoices == numVoices
      requires numSounds <= numVoices && PhasesInRange()
      modifies currentAmplitudes, positions
      ensures PhasesInRange() && |contribs| == numSounds && sample == WindowSum(contribs, lo, hi)
      ensures forall s :: 0 <= s < numSounds ==>
        var r := Render(old(Input(with, s)), old(Row(currentAmplitudes, s)), old(Row(positions, s)), sin);
        contribs[s] == r.sample && Mirrors(s, r)
      ensures forall s, k :: numSounds <= s < numVoices && 0 <= k < n ==>
        currentAmplitudes[s, k] == old(currentAmplitudes[s, k]) && positions[s, k] == old(positions[s, k])
    {
      sample := 0.0;
      contribs := [];
      var s := 0;
      while s < numSounds
        invariant 0 <= s <= numSounds && |contribs| == s
        invariant sample == WindowSum(contribs, lo, hi)
        invariant forall r :: 0 <= r < s ==>
          var t := Render(old(Input(with, r)), old(Row(currentAmplitudes, r)), old(Row(positions, r)), sin);
          contribs[r] == t.sample && Mirrors(r, t)
        invariant forall r, k :: s <= r < numVoices && 0 <= k < n ==>
          currentAmplitudes[r, k] == old(currentAmplitudes[r, k]) && positions[r, k] == old(positions[r, k])
      {
        assert Row(currentAmplitudes, s) == old(Row(currentAmplitudes, s));
        assert Row(positions, s) == old(Row(positions, s));
        sample, contribs := RenderNext(s, lo, hi, sin, sample, contribs, Input(with, s));
        s := s + 1;
      }
      forall r, k | 0 <= r < numVoices && 0 <= k < n
        ensures 0.0 <= positions[r, k] < TWO_PI
      {
        if r < numSounds {
          var t := Render(old(Input(with, r)), old(Row(currentAmplitudes, r)), old(Row(positions, r)), sin);
          assert positions[r, k] == t.pos[k];
        }
      }
    }

    /**
      One turn of the voice loop: voice s is rendered, and its contribution is appended to the
      contributions so far and added to the sample when s is inside the window.
    */
    method RenderNext(s: int, lo: int, hi: int, sin: real -> real, sample0: real, ghost contribs0: seq<real>,
                      ghost inp: VoiceInput) returns (sample: real, ghost contribs: seq<real>)
      requires RowsValid() && ApartFrom(with) && with.Valid() && with.n == n && with.numVoices == numVoices
      requires 0 <= s < numVoices && inp == Input(with, s)
      requires forall k :: 0 <= k < n ==> 0.0 <= positions[s, k] < TWO_PI
      requires |contribs0| == s && sample0 == WindowSum(contribs0, lo, hi)
      modifies currentAmplitudes, positions
      ensures var r := Render(inp, old(Row(currentAmplitudes, s)), old(Row(positions, s)), sin);
        contribs == contribs0 + [r.sample] && Mirrors(s, r)
      ensures sample == WindowSum(contribs, lo, hi)
      ensures forall r, k :: 0 <= r < numVoices && r != s && 0 <= k < n ==>
        currentAmplitudes[r, k] == old(currentAmplitudes[r, k]) && positions[r, k] == old(positions[r, k])
      ensures forall r, st :: r != s && old(Mirrors(r, st)) ==> Mirrors(r, st)
    {
      var c := RenderVoice(s, sin, inp);
      sample := sample0;
      if lo <= s < hi {
        sample := sample + c;
      }
      contribs := contribs0 + [c];
      assert contribs[..s] == contribs0;
    }

    /**
      One block of the output thread: the buffers are checked and swapped, then SKIP samples are
      built from the buffer being played and emitted into the audio buffer, two bytes each (which
      decode back to the emitted values by EncodeDecode). lastPlayed gives the last played sound's
      index as seen at each sample.
    */
    method RenderBlock(lastPlayed: seq<Option<int>>, sin: real -> real) returns (ghost samples: seq<real>)
      requires Valid() && |lastPlayed| == SKIP
      modifies this`swap, this`with, this`emitsReady, this`totalOutputTicks, this`totalOutputWaits, with`readCount
      modifies currentAmplitudes, positions, audioBuffer, this`clipped, this`tick
      ensures Valid() && |samples| == SKIP
      ensures old(emitsReady) ==> swap == old(with) && with == old(swap)
      ensures !old(emitsReady) ==> swap == old(swap) && with == old(with)
      ensures !emitsReady
      ensures Encoded(audioBuffer[..], samples)
      ensures clipped == (old(clipped) || ClipsIn(samples))
      ensures tick == Ticked(old(tick), SKIP)
    {
      CheckAndSwap();
      samples := EmitBlock(lastPlayed, sin);
    }

    /** The sample loop of RenderBlock, over the buffer being played. */
    method EmitBlock(lastPlayed: seq<Option<int>>, sin: real -> real) returns (ghost samples: seq<real>)
      requires Valid() && |lastPlayed| == SKIP
      modifies currentAmplitudes, positions, audioBuffer, this`clipped, this`tick
      ensures Valid() && |samples| == SKIP
      ensures Encoded(audioBuffer[..], samples)
      ensures clipped == (old(clipped) || ClipsIn(samples))
      ensures tick == Ticked(old(tick), SKIP)
    {
      samples := [];
      var skipPos := 0;
      while skipPos < SKIP
        invariant 0 <= skipPos <= SKIP && |samples| == skipPos && Valid()
        invariant Encoded(audioBuffer[..], samples)
        invariant clipped == (old(clipped) || ClipsIn(samples))
        invariant tick == Ticked(old(tick), skipPos)
      {
        var sample := EmitNext(skipPos, lastPlayed[skipPos], sin, samples);
        ghost var next := samples + [sample];
        assert next[..skipPos] == samples;
        samples := next;
        skipPos := skipPos + 1;
      }
    }

    /** One turn of the sample loop: a sample is built and emitted at position skipPos. */
    method EmitNext(skipPos: int, lastPlayed: Option<int>, sin: real -> real, ghost done: seq<real>) returns (sample: real)
      requires Valid() && 0 <= skipPos < SKIP
      requires |done| == skipPos && Encoded(audioBuffer[..], done)
      modifies currentAmplitudes, positions, audioBuffer, this`clipped, this`tick
      ensures Valid()
      ensures Encoded(audioBuffer[..], done + [sample])
      ensures clipped == (old(clipped) || Clips(sample))
      ensures tick == Inc32(old(tick))
    {
      ghost var contribs;
      sample, contribs := BuildSample(lastPlayed, sin);
      EmitSample(skipPos, sample, done);
    }

    /**
      Emits one built sample at position skipPos of the block: it is scaled and clamped to 16
      bits (a clamp sets the clipped flag), truncated, and stored as two bytes, low byte first;
      the tick advances. By EncodeDecode the two bytes decode back to the emitted value, so a
      buffer that encoded the samples before it encodes them and this one after it.
    */
    method EmitSample(skipPos: int, sample: real, ghost done: seq<real>)
      requires Valid() && 0 <= skipPos < SKIP
      requires |done| == skipPos && Encoded(audioBuffer[..], done)
      modifies audioBuffer, this`clipped, this`tick
      ensures Valid()
      ensures audioBuffer[2 * skipPos] == LowByte(Emitted(sample)) && audioBuffer[2 * skipPos + 1] == HighByte(Emitted(sample))
      ensures forall q :: 0 <= q < audioBuffer.Length && q != 2 * skipPos && q != 2 * skipPos + 1 ==>
        audioBuffer[q] == old(audioBuffer[q])
      ensures Encoded(audioBuffer[..], done + [sample])
      ensures clipped == (old(clipped) || Clips(sample))
      ensures tick == Inc32(old(tick))
    {
      ghost var before := audioBuffer[..];
      var d := ClampSample(sample * DEFAULT_VOLUME_MULTIPLIER);
      if d.1 {
        clipped := true;
      }
      var val := Trunc(d.0);
      audioBuffer[skipPos * 2 + 1] := HighByte(val);
      audioBuffer[skipPos * 2] := LowByte(val);
      tick := Inc32(tick);
      EncodedExtend(before, audioBuffer[..], done, sample);
    }

    /** Row s of the smoothed amplitudes and of the phases hold the state's values. */
    ghost predicate Mirrors(s: int, st: VoiceState)
      reads currentAmplitudes, positions
    {
      HoldsAmplitudes(s, st.ca) && HoldsPhases(s, st.pos)
    }

    /** Row s of the smoothed amplitudes holds c. */
    ghost predicate HoldsAmplitudes(s: int, c: seq<real>)
      reads currentAmplitudes
    {
      |c| == n && 0 <= s < currentAmplitudes.Length0 && currentAmplitudes.Length1 == n &&
      forall k :: 0 <= k < n ==> currentAmplitudes[s, k] == c[k]
    }

    /** Row s of the phases holds pos. */
    ghost predicate HoldsPhases(s: int, pos: seq<real>)
      reads positions
    {
      |pos| == n && 0 <= s < positions.Length0 && positions.Length1 == n &&
      forall k :: 0 <= k < n ==> positions[s, k] == pos[k]
    }

    /** The slot loop of RenderVoice for voice s, whose pitch and scaled velocity are given. */
    method RenderSlots(s: int, pitch: real, v: real, sin: real -> real, ghost init: VoiceState)
      returns (contrib: real)
      requires RowsValid() && ApartFrom(with) && with.Valid() && with.n == n && with.numVoices == numVoices
      requires 0 <= s < numVoices && WellFormed(init, n) && Mirrors(s, init) && init.sample == 0.0 && !init.stopped
      modifies currentAmplitudes, positions
      ensures var r := VoiceRun(init, Row(with.amplitudes, s), Row(with.frequencies, s), Row(with.orders, s),
                                pitch, v, sin, n);
        contrib == r.sample && Mirrors(s, r)
      ensures forall r, k :: 0 <= r < numVoices && r != s && 0 <= k < n ==>
        currentAmplitudes[r, k] == old(currentAmplitudes[r, k]) && positions[r, k] == old(positions[r, k])
    {
      ghost var amps, freqs, ords := Row(with.amplitudes, s), Row(with.frequencies, s), Row(with.orders, s);
      contrib := 0.0;
      ghost var st := init;
      var i := 0;
      var stop := false;
      // a slot beyond Nyquist stops the voice: the loop's break is its second exit condition
      while i < n && !stop
        invariant 0 <= i <= n
        invariant st == VoiceRun(init, amps, freqs, ords, pitch, v, sin, i) && stop == st.stopped
        invariant Mirrors(s, st) && contrib == st.sample
        invariant forall r, k :: 0 <= r < numVoices && r != s && 0 <= k < n ==>
          currentAmplitudes[r, k] == old(currentAmplitudes[r, k]) && positions[r, k] == old(positions[r, k])
      {
        contrib, stop, st := VisitSlot(s, i, pitch, v, sin, contrib, init, st);
        i := i + 1;
      }
      if stop {
        // the rest of the voice is skipped for this sample
        BreakIsFinal(init, amps, freqs, ords, pitch, v, sin, i, n);
      }
      assert amps == Row(with.amplitudes, s) && freqs == Row(with.frequencies, s) && ords == Row(with.orders, s);
    }

    /** Slot i of voice s, read from the buffer being played: the state after it is VoiceRun's over i + 1 slots. */
    method VisitSlot(s: int, i: int, pitch: real, v: real, sin: real -> real, contrib0: real,
                     ghost init: VoiceState, ghost st: VoiceState) returns (contrib: real, stop: bool, ghost next: VoiceState)
      requires RowsValid() && ApartFrom(with) && with.Valid() && with.n == n && with.numVoices == numVoices
      requires 0 <= s < numVoices && 0 <= i < n && WellFormed(init, n)
      requires st == VoiceRun(init, Row(with.amplitudes, s), Row(with.frequencies, s), Row(with.orders, s), pitch, v, sin, i)
      requires !st.stopped && Mirrors(s, st) && contrib0 == st.sample
      modifies currentAmplitudes, positions
      ensures next == VoiceRun(init, Row(with.amplitudes, s), Row(with.frequencies, s), Row(with.orders, s), pitch, v, sin, i + 1)
      ensures Mirrors(s, next) && contrib == next.sample && stop == next.stopped
      ensures forall r, k :: 0 <= r < numVoices && r != s && 0 <= k < n ==>
        currentAmplitudes[r, k] == old(currentAmplitudes[r, k]) && positions[r, k] == old(positions[r, k])
    {
      var amplitude, frequency, oi := with.amplitudes[s, i], with.frequencies[s, i], with.orders[s, i];
      contrib, stop := RenderSlot(s, amplitude, frequency, oi, pitch, v, sin, contrib0, st);
      next := SlotStep(st, amplitude, frequency, oi, pitch, v, sin);
    }

    /**
      One slot of voice s, with target amplitude amp, frequency freq and order oi: the target is
      smoothed into the ordered entry, and when that is audible the voice either stops (above
      Nyquist) or, for a positive frequency, advances the phase and adds the slot's sine to the
      running contribution; the state becomes SlotStep's.
    */
    method RenderSlot(s: int, amp: real, freq: real, oi: int, pitch: real, v: real,
                      sin: real -> real, contrib0: real, ghost st: VoiceState) returns (contrib: real, stop: bool)
      requires RowsValid() && 0 <= s < numVoices && 0 <= oi < n
      requires WellFormed(st, n) && Mirrors(s, st) && !st.stopped && contrib0 == st.sample
      modifies currentAmplitudes, positions
      ensures var next := SlotStep(st, amp, freq, oi, pitch, v, sin);
        Mirrors(s, next) && contrib == next.sample && stop == next.stopped
      ensures forall r, k :: 0 <= r < numVoices && r != s && 0 <= k < n ==>
        currentAmplitudes[r, k] == old(currentAmplitudes[r, k]) && positions[r, k] == old(positions[r, k])
    {
      contrib, stop := contrib0, false;
      var amplitude := SmoothSlot(s, oi, amp, st.ca);
      if Audible(amplitude) {
        var absoluteFrequency := freq * pitch;
        if absoluteFrequency > NYQUIST {
          SlotStops(st, amp, freq, oi, pitch, v, sin);
          stop := true;
          return;
        }
        if absoluteFrequency > 0.0 {
          var p := AdvancePhase(s, oi, PhaseStep(freq, pitch), st.pos);
          var smp := sin(p) * amplitude * v;
          contrib := contrib + smp;
          SlotSounds(st, amp, freq, oi, pitch, v, sin);
        } else {
          SlotQuiet(st, amp, freq, oi, pitch, v, sin);
        }
      } else {
        SlotQuiet(st, amp, freq, oi, pitch, v, sin);
      }
    }

    /**
      The smoothing of entry oi of voice s's smoothed amplitudes toward a target amplitude,
      snapping to zero when both are far below the subnormal range.
    */
    method SmoothSlot(s: int, oi: int, amplitude: real, ghost c0: seq<real>) returns (c: real)
      requires HoldsAmplitudes(s, c0) && 0 <= oi < n
      modifies currentAmplitudes
      ensures c == Smooth(c0[oi], amplitude)
      ensures HoldsAmplitudes(s, c0[oi := c])
      ensures forall r, k :: 0 <= r < currentAmplitudes.Length0 && 0 <= k < n && r != s ==>
        currentAmplitudes[r, k] == old(currentAmplitudes[r, k])
    {
      if currentAmplitudes[s, oi] > WELL_ABOVE_SUBNORMALS || amplitude * PARTIALS_INTERPOLATION_ALPHA > WELL_ABOVE_SUBNORMALS {
        currentAmplitudes[s, oi] := currentAmplitudes[s, oi] * (1.0 - PARTIALS_INTERPOLATION_ALPHA) +
          amplitude * PARTIALS_INTERPOLATION_ALPHA;
      } else {
        currentAmplitudes[s, oi] := 0.0;
      }
      c := currentAmplitudes[s, oi];
    }

    /**
      Advances phase oi of voice s by a positive step and pulls it back below 2*pi: one turn is
      subtracted, and the remainder taken only when that is not enough.
    */
    method AdvancePhase(s: int, oi: int, step: real, ghost pos: seq<real>) returns (p: real)
      requires HoldsPhases(s, pos) && 0 <= oi < n && 0.0 <= pos[oi] && step > 0.0
      modifies positions
      ensures p == WrapPhase(pos[oi] + step)
      ensures HoldsPhases(s, pos[oi := p])
      ensures forall r, k :: 0 <= r < positions.Length0 && 0 <= k < n && r != s ==> positions[r, k] == old(positions[r, k])
    {
      positions[s, oi] := positions[s, oi] + step;
      if positions[s, oi] >= TWO_PI {
        positions[s, oi] := positions[s, oi] - TWO_PI;
        if positions[s, oi] >= TWO_PI {
          positions[s, oi] := FMod(positions[s, oi], TWO_PI);
        }
      }
      p := positions[s, oi];
    }
  }

  /** What buffer sw holds for voice s: its row of partials, its pitch and its velocity scaled by the gain. */
  ghost function Input(sw: Swap, s: int): (r: VoiceInput)
    reads sw, sw.amplitudes, sw.frequencies, sw.orders, sw.pitches, sw.velocities
    requires sw.Valid() && 0 <= s < sw.numVoices
    ensures InputFits(r, sw.n)
  {
    VoiceInput(Row(sw.amplitudes, s), Row(sw.frequencies, s), Row(sw.orders, s), sw.pitches[s],
               sw.velocities[s] * sw.gain)
  }

  /** The frame published for a voice: its emitted frame, or silence with the standard orders 0 .. n-1. */
  function Published(e: Option<Frame>, n: nat): Frame
  {
    match e
    case Some(f) => f
    case None => Frame(seq(n, _ => 0.0), seq(n, _ => 0.0), seq(n, k => k))
  }

  /** Row i of the buffer holds the voice's published frame. */
  ghost predicate RowHolds(sw: Swap, i: int, e: Option<Frame>)
    reads sw.amplitudes, sw.frequencies, sw.orders
    requires 0 <= i < sw.amplitudes.Length0 && 0 <= i < sw.frequencies.Length0 && 0 <= i < sw.orders.Length0
  {
    var f := Published(e, sw.n);
    Row(sw.amplitudes, i) == f.amplitudes && Row(sw.frequencies, i) == f.frequencies && Row(sw.orders, i) == f.orders
  }

  /** Row i of the buffer still holds the given partials. */
  ghost predicate RowsUnchanged(sw: Swap, i: int, amps: seq<real>, freqs: seq<real>, orders: seq<int>)
    reads sw.amplitudes, sw.frequencies, sw.orders
    requires 0 <= i < sw.amplitudes.Length0 && 0 <= i < sw.frequencies.Length0 && 0 <= i < sw.orders.Length0
  {
    Row(sw.amplitudes, i) == amps && Row(sw.frequencies, i) == freqs && Row(sw.orders, i) == orders
  }

  /** The evaluations of two consecutive ranges of voices make up the evaluations of their union. */
  lemma {:induction false} GoRangeAppend(a: int, b: int, c: int)
    requires a <= b <= c
    ensures GoRange(a, b) + GoRange(b, c) == GoRange(a, c)
    decreases c - b
  {
    if b < c {
      GoRangeAppend(a, b, c - 1);
      calc {
        GoRange(a, b) + GoRange(b, c);
        GoRange(a, b) + (GoRange(b, c - 1) + [GoVoice(c - 1)]);
        (GoRange(a, b) + GoRange(b, c - 1)) + [GoVoice(c - 1)];
        GoRange(a, c);
      }
    }
  }

  /** Evaluating voices lo .. hi-1 one after the other is evaluating the range lo .. hi-1. */
  lemma {:induction false} GoRangeIsGoes(lo: int, hi: int)
    requires lo <= hi
    ensures GoRange(lo, hi) == Goes(Range(lo, hi))
    decreases hi - lo
  {
    if lo < hi {
      GoRangeIsGoes(lo, hi - 1);
      RangeAppend(lo, hi - 1, hi);
      assert Range(hi - 1, hi) == [hi - 1];
    }
  }

  /** Following the corrected schedule evaluates the registered voices one after the other. */
  lemma ScheduleGoes(numSounds: nat, nvpt: nat)
    requires nvpt >= 1
    ensures Goes(Schedule(numSounds, nvpt)) == GoRange(0, numSounds)
  {
    ScheduleCoversAll(numSounds, nvpt);
    GoRangeIsGoes(0, numSounds);
  }

  /**
    Worker w of k starts inside the registered voices, and the voices done after it are those
    below min((w + 1) * nvpt, numSounds).
  */
  lemma WorkerStep(w: nat, k: nat, nvpt: nat, numSounds: nat) returns (next: int)
    requires w < k && nvpt >= 1 && (k - 1) * nvpt < numSounds <= k * nvpt
    ensures w * nvpt < numSounds && next == Min(w * nvpt + nvpt, numSounds)
    ensures next == Min((w + 1) * nvpt, numSounds) && w * nvpt <= next
  {
    MulMonotonic(w, k - 1, nvpt);
    assert (w + 1) * nvpt == w * nvpt + nvpt;
    next := Min(w * nvpt + nvpt, numSounds);
  }

  lemma MulMonotonic(a: int, b: int, c: int)
    requires a <= b && c >= 0
    ensures a * c <= b * c
  {
    MulNonneg(b - a, c);
    assert b * c - a * c == (b - a) * c;
  }
}
