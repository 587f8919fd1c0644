/**
  The Noise unit: fills a block of partials with sorted random frequencies between a low and a
  high frequency, with amplitudes that ramp across the block and vary randomly. The random
  source and the logarithm are parameters: `incs` are the increments -log(d) of the sorted
  generator and `draws` the amplitude draws, one per employed partial.
*/
module NoiseUnit {
  import opened Base

  const OPTION_TOP: int := 0

  /** Every increment is positive, as -log(d) is for a draw d in (0, 1). */
  predicate Positive(incs: seq<real>)
  {
    forall k :: 0 <= k < |incs| ==> incs[k] > 0.0
  }

  /** The running sum of the increments. */
  function Sum(s: seq<real>): (r: real)
    ensures Positive(s) && |s| > 0 ==> r > 0.0
  {
    if |s| == 0 then 0.0 else Sum(s[..|s| - 1]) + s[|s| - 1]
  }

  /** With positive increments, a longer prefix has a strictly larger sum. */
  lemma {:induction false} SumPrefixIncreasing(s: seq<real>, i: int, j: int)
    requires Positive(s) && 0 <= i < j <= |s|
    ensures Sum(s[..i]) < Sum(s[..j])
    decreases j
  {
    assert s[..j][..j - 1] == s[..j - 1];
    if i < j - 1 {
      SumPrefixIncreasing(s, i, j - 1);
    }
  }

  /**
    The k-th value the sorted generator writes: the k+1-th running sum divided by the sum of all
    increments, one more than the values written.
  */
  function RandomVal(incs: seq<real>, k: int): real
    requires Positive(incs) && 0 <= k < |incs|
  {
    Sum(incs[..k + 1]) / Sum(incs)
  }

  /** Every generated value lies strictly between 0 and 1. */
  lemma RandomValInUnit(incs: seq<real>, a: int)
    requires Positive(incs) && 0 <= a < |incs| - 1
    ensures 0.0 < RandomVal(incs, a) < 1.0
  {
    assert incs[..|incs|] == incs;
    SumPrefixIncreasing(incs, 0, a + 1);
    SumPrefixIncreasing(incs, a + 1, |incs|);
    QuotientBounds(Sum(incs[..a + 1]), Sum(incs), 1.0, 0.0);
  }

  /** The generated values are strictly increasing: a sorted list. */
  lemma RandomValsIncreasing(incs: seq<real>, a: int, b: int)
    requires Positive(incs) && 0 <= a < b < |incs|
    ensures RandomVal(incs, a) < RandomVal(incs, b)
  {
    SumPrefixIncreasing(incs, a + 1, b + 1);
    var x := Sum(incs[..a + 1]);
    var y := Sum(incs[..b + 1]);
    var t := Sum(incs);
    QuotientBounds(y, t, 0.0, x / t);
    assert x / t * t == x;
  }

  /** The frequency an employed partial gets: its position mapped into [lo, hi], relative to the pitch. */
  function NoiseFreq(pos: real, lo: real, hi: real, pitch: real): real
    requires pitch != 0.0
  {
    (pos * (hi - lo) + lo) * (1.0 / pitch)
  }

  /** An employed partial's absolute frequency lies between the low and the high frequency. */
  lemma NoiseFreqInRange(pos: real, lo: real, hi: real, pitch: real)
    requires pitch != 0.0 && 0.0 <= pos <= 1.0 && lo <= hi
    ensures lo <= NoiseFreq(pos, lo, hi, pitch) * pitch <= hi
  {
    var x := pos * (hi - lo) + lo;
    assert NoiseFreq(pos, lo, hi, pitch) * pitch == x;
    MulNonnegReal(pos, hi - lo);
    MulNonnegReal(1.0 - pos, hi - lo);
  }

  /**
    The ramp weight of a partial at position pos: from Ramp 0.5 upward it mixes 1 with pos (the
    amplitude rising with frequency), below 0.5 it mixes 1 with 1 - pos (falling).
  */
  function Ramping(ramp: real, pos: real): (r: real)
    ensures 0.0 <= ramp <= 1.0 && 0.0 <= pos <= 1.0 ==> 0.0 <= r <= 1.0
    ensures ramp == 0.5 ==> r == 1.0
  {
    if ramp >= 0.5 then
      var t := (ramp - 0.5) * 2.0;
      RampBetween(t, pos);
      (1.0 - t) * 1.0 + t * pos
    else
      var t := ramp * 2.0;
      RampBetween(1.0 - t, 1.0 - pos);
      t * 1.0 + (1.0 - t) * (1.0 - pos)
  }

  /** A convex mix of 1 and a value in [0, 1] stays in [0, 1]. */
  lemma RampBetween(t: real, x: real)
    ensures 0.0 <= t <= 1.0 && 0.0 <= x <= 1.0 ==> 0.0 <= (1.0 - t) * 1.0 + t * x <= 1.0
  {
    if 0.0 <= t <= 1.0 && 0.0 <= x <= 1.0 {
      ConvexBetween(1.0, x, t);
    }
  }

  /** The amplitude of an employed partial: its ramp weight blended with a random draw, then scaled by the gain. */
  function NoiseAmplitude(ampVar: real, ramp: real, pos: real, d: real, gain: real): (r: real)
  {
    (if ampVar == 0.0 then Ramping(ramp, pos) else (1.0 - ampVar) * Ramping(ramp, pos) + ampVar * d) * gain
  }

  /** With every modulation in [0, 1] and a draw in [0, 1], an amplitude lies in [0, gain]. */
  lemma NoiseAmplitudeBounds(ampVar: real, ramp: real, pos: real, d: real, gain: real)
    requires 0.0 <= ampVar <= 1.0 && 0.0 <= ramp <= 1.0 && 0.0 <= pos <= 1.0
    requires 0.0 <= d <= 1.0 && 0.0 <= gain
    ensures 0.0 <= NoiseAmplitude(ampVar, ramp, pos, d, gain) <= gain
  {
    var r := Ramping(ramp, pos);
    var m := if ampVar == 0.0 then r else (1.0 - ampVar) * r + ampVar * d;
    if ampVar != 0.0 {
      ConvexBetween(r, d, ampVar);
    }
    assert 0.0 <= m <= 1.0;
    MulNonnegReal(m, gain);
    MulNonnegReal(1.0 - m, gain);
  }

  /** How many partials a Partials modulation value employs. */
  function NumEmployed(partialsMod: real, n: nat): (k: int)
    requires 0.0 <= partialsMod <= 1.0
    ensures 0 <= k <= n
  {
    ScaledAtMost(partialsMod, n as real);
    Trunc(partialsMod * n as real)
  }

  /** A fraction in [0, 1] of a non-negative value lies between 0 and that value. */
  lemma ScaledAtMost(p: real, x: real)
    requires 0.0 <= p <= 1.0 && 0.0 <= x
    ensures 0.0 <= p * x <= x
  {
    MulNonnegReal(p, x);
    MulNonnegReal(1.0 - p, x);
  }

  /** The first employed slot: the top of the partials, or the bottom. */
  function FirstEmployed(top: bool, n: nat, partials: int): int
  {
    if top then n - partials else 0
  }

  /** The frequency every slot is reset to before the employed ones are filled. */
  function ResetFreq(top: bool, hi: real, pitch: real): real
    requires pitch != 0.0
  {
    if top then 0.0 else hi * 1.1 * (1.0 / pitch)
  }

  /**
    Writes the sorted generator's values into freq[start .. start + count): the running sums of
    the first count increments, divided by the sum of all count + 1 of them.
  */
  method GenerateRandomVals(freq: array<real>, start: int, count: int, incs: seq<real>)
    requires 0 <= start && 0 <= count && start + count <= freq.Length
    requires |incs| == count + 1 && Positive(incs)
    modifies freq
    ensures forall i :: 0 <= i < freq.Length ==>
      freq[i] == if start <= i < start + count then RandomVal(incs, i - start) else old(freq[i])
  {
    var sum := AccumulateIncrements(freq, start, count, incs);
    assert incs[..count + 1][..count] == incs[..count];
    assert incs[..count + 1] == incs;
    sum := sum + incs[count];
    var invsum := 1.0 / sum;
    ScaleBlock(freq, start, count, invsum);
    forall i | start <= i < start + count
      ensures freq[i] == RandomVal(incs, i - start)
    {
      ScaledByInverse(Sum(incs[..i - start + 1]), sum);
    }
  }

  /** Multiplying by the precomputed inverse is dividing. */
  lemma ScaledByInverse(x: real, d: real)
    requires d != 0.0
    ensures x * (1.0 / d) == x / d
  {
  }

  /**
    The first loop of the sorted generator: freq[start + k] becomes the running sum of the first
    k + 1 increments; the result is the sum of the first count increments.
  */
  method AccumulateIncrements(freq: array<real>, start: int, count: int, incs: seq<real>) returns (sum: real)
    requires 0 <= start && 0 <= count && start + count <= freq.Length && count <= |incs|
    modifies freq
    ensures sum == Sum(incs[..count])
    ensures forall i :: 0 <= i < freq.Length ==>
      freq[i] == if start <= i < start + count then Sum(incs[..i - start + 1]) else old(freq[i])
  {
    sum := 0.0;
    var i := start;
    while i < start + count
      invariant start <= i <= start + count
      invariant sum == Sum(incs[..i - start])
      invariant forall j :: 0 <= j < freq.Length ==>
        freq[j] == if start <= j < i then Sum(incs[..j - start + 1]) else old(freq[j])
    {
      assert incs[..i - start + 1][..i - start] == incs[..i - start];
      sum := sum + incs[i - start];
      freq[i] := sum;
      i := i + 1;
    }
  }

  /** The second loop of the sorted generator: freq[start .. start + count) is multiplied by factor. */
  method ScaleBlock(freq: array<real>, start: int, count: int, factor: real)
    requires 0 <= start && 0 <= count && start + count <= freq.Length
    modifies freq
    ensures forall i :: 0 <= i < freq.Length ==>
      freq[i] == if start <= i < start + count then old(freq[i]) * factor else old(freq[i])
  {
    var i := start;
    while i < start + count
      invariant start <= i <= start + count
      invariant forall j :: 0 <= j < freq.Length ==>
        freq[j] == if start <= j < i then old(freq[j]) * factor else old(freq[j])
    {
      freq[i] := freq[i] * factor;
      i := i + 1;
    }
  }

  class Noise {
    /** Number of partials. */
    const n: nat
    /** This unit's output amplitudes and frequencies. */
    const amplitudes: array<real>
    const frequencies: array<real>
    /** Whether the noise occupies the topmost partials (rather than the bottom ones). */
    var top: bool

    ghost predicate Valid()
      reads this
    {
      amplitudes.Length == n && frequencies.Length == n && amplitudes != frequencies
    }

    constructor (n: nat)
      ensures Valid() && this.n == n && top && fresh(amplitudes) && fresh(frequencies)
    {
      this.n := n;
      amplitudes := new real[n](_ => 0.0);
      frequencies := new real[n](_ => 0.0);
      top := true;
    }

    /** The value of an option; Java throws for an option index that does not exist. */
    function GetOptionValue(option: int): (r: Option<int>)
      reads this
      ensures r.Some? <==> option == OPTION_TOP
      ensures r.Some? ==> r.value == (if top then 1 else 0)
    {
      if option == OPTION_TOP then Some(if top then 1 else 0) else None
    }

    /** Sets an option; reading it back gives 1 for a non-zero value and 0 otherwise. */
    method SetOptionValue(option: int, value: int) returns (ok: bool)
      modifies this`top
      ensures ok <==> option == OPTION_TOP
      ensures ok ==> GetOptionValue(option) == Some(if value != 0 then 1 else 0)
      ensures !ok ==> top == old(top)
    {
      ok := option == OPTION_TOP;
      if ok {
        top := value != 0;
      }
    }

    /**
      One tick. The low and high frequencies are put in order; every slot is silenced and given
      the reset frequency; then, unless no partial is employed, the employed block receives the
      sorted random positions mapped into [lo, hi] and their amplitudes.
    */
    method Go(partialsMod: real, ampVar: real, ramp: real, gain: real, low: real, high: real,
              pitch: real, incs: seq<real>, draws: seq<real>)
      requires Valid() && 0.0 <= partialsMod <= 1.0 && pitch != 0.0
      requires |incs| == NumEmployed(partialsMod, n) + 1 && Positive(incs)
      requires |draws| == NumEmployed(partialsMod, n)
      modifies amplitudes, frequencies
      ensures Valid()
      ensures forall i :: 0 <= i < n ==>
        var partials := NumEmployed(partialsMod, n);
        var start := FirstEmployed(top, n, partials);
        var lo := MinReal(low, high);
        var hi := MaxReal(low, high);
        if start <= i < start + partials then
          && frequencies[i] == NoiseFreq(RandomVal(incs, i - start), lo, hi, pitch)
          && amplitudes[i] == NoiseAmplitude(ampVar, ramp, RandomVal(incs, i - start), draws[i - start], gain)
        else
          amplitudes[i] == 0.0 && frequencies[i] == ResetFreq(top, hi, pitch)
    {
      var partials := NumEmployed(partialsMod, n);
      var lo := low;
      var hi := high;
      if hi < lo {
        var temp := hi;
        hi := lo;
        lo := temp;
      }
      var i := 0;
      while i < amplitudes.Length
        invariant 0 <= i <= n
        invariant forall j :: 0 <= j < i ==> amplitudes[j] == 0.0 && frequencies[j] == ResetFreq(top, hi, pitch)
      {
        amplitudes[i] := 0.0;
        frequencies[i] := if top then 0.0 else hi * 1.1 * (1.0 / pitch);
        i := i + 1;
      }
      if partials == 0 {
        return;
      }
      var start := if top then n - partials else 0;
      var end := if top then n else partials;
      GenerateRandomVals(frequencies, start, partials, incs);
      Employ(start, end, lo, hi, pitch, ampVar, ramp, draws);
      Normalize(start, end, gain);
    }

    /**
      The first loop over the employed block: each generated position becomes a frequency in
      [lo, hi] and the amplitude its ramp weight blended with a draw; other slots are untouched.
    */
    method Employ(start: int, end: int, lo: real, hi: real, pitch: real, ampVar: real, ramp: real,
                  draws: seq<real>)
      requires Valid() && 0 <= start <= end <= n && pitch != 0.0 && |draws| == end - start
      modifies amplitudes, frequencies
      ensures forall k :: 0 <= k < n ==>
        if start <= k < end then
          && frequencies[k] == NoiseFreq(old(frequencies[k]), lo, hi, pitch)
          && amplitudes[k] == RawAmplitude(ampVar, ramp, old(frequencies[k]), draws[k - start])
        else
          amplitudes[k] == old(amplitudes[k]) && frequencies[k] == old(frequencies[k])
    {
      var j := start;
      while j < end
        invariant start <= j <= end
        invariant forall k :: 0 <= k < n ==>
          if start <= k < j then
            && frequencies[k] == NoiseFreq(old(frequencies[k]), lo, hi, pitch)
            && amplitudes[k] == RawAmplitude(ampVar, ramp, old(frequencies[k]), draws[k - start])
          else
            amplitudes[k] == old(amplitudes[k]) && frequencies[k] == old(frequencies[k])
      {
        var pos := frequencies[j];
        frequencies[j] := (pos * (hi - lo) + lo) * (1.0 / pitch);
        var ramping := Ramping(ramp, pos);
        if ampVar == 0.0 {
          amplitudes[j] := ramping;
        } else {
          var d := draws[j - start];
          amplitudes[j] := (1.0 - ampVar) * ramping + ampVar * d;
        }
        j := j + 1;
      }
    }

    /** The second loop over the employed block: every employed amplitude is scaled by the gain. */
    method Normalize(start: int, end: int, gain: real)
      requires Valid() && 0 <= start <= end <= n
      modifies amplitudes
      ensures forall k :: 0 <= k < n ==>
        amplitudes[k] == if start <= k < end then Gained(old(amplitudes[k]), gain) else old(amplitudes[k])
    {
      var j := start;
      while j < end
        invariant start <= j <= end
        invariant forall k :: 0 <= k < n ==>
          amplitudes[k] == if start <= k < j then Gained(old(amplitudes[k]), gain) else old(amplitudes[k])
      {
        amplitudes[j] := amplitudes[j] * gain;
        j := j + 1;
      }
    }
  }

  /** An amplitude scaled by the gain. */
  function Gained(x: real, gain: real): real { x * gain }

  /** The amplitude of an employed partial before the gain is applied. */
  function RawAmplitude(ampVar: real, ramp: real, pos: real, d: real): (r: real)
    ensures forall gain :: NoiseAmplitude(ampVar, ramp, pos, d, gain) == Gained(r, gain)
  {
    if ampVar == 0.0 then Ramping(ramp, pos) else (1.0 - ampVar) * Ramping(ramp, pos) + ampVar * d
  }
}
