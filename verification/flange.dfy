/**
  The FlangeFilter unit: a rough comb filter. Each partial's frequency is placed within a
  repeating lobe; the lobe position, reflected and shaped by a style curve, gives a gain in
  [0, 1], which the wet amount turns into a multiplier in [0, 2] centred on 1.
*/
module FlangeUnit {
  import opened Base

  const STYLE_LINEAR: int := 0
  const STYLE_SPIKE_UP: int := 1
  const STYLE_SPIKE_DOWN: int := 2
  const STYLE_CURVY: int := 3
  const STYLE_SPIKEY: int := 4

  const OPTION_STYLE: int := 0
  const OPTION_FIXED: int := 1
  const OPTION_INCLUDE_FUNDAMENTAL: int := 2

  /** The lobe width: a base width of 1 Hz plus two stretch contributions of up to 22049 Hz. */
  function FilterStretch(sens: real, stretchMod: real): (s: real)
    ensures sens >= 0.0 && stretchMod >= 0.0 ==> s >= 1.0
  {
    sens * 22049.0 + 1.0 + 22049.0 * stretchMod
  }

  /** The lobe origin: the offset frequency, plus the pitch unless fixed, shifted by up to two lobes either way. */
  function FilterFreq(offsetFreq: real, fixed: bool, pitch: real, stretch: real, offsetMod: real): real
  {
    offsetFreq + (if fixed then 0.0 else pitch) + stretch * (offsetMod - 0.5) * 4.0
  }

  /**
    Where frequency `a` falls within its lobe, for lobes of width `s` starting at `f`: 0 at the
    start of a lobe, approaching 1 at its end.
  */
  function LobePosition(a: real, f: real, s: real): (pos: real)
    requires s > 0.0
    ensures 0.0 <= pos < 1.0
  {
    var r2 := FMod(FMod(a - f, s) + s, s);
    QuotientBounds(r2, s, 1.0, 0.0);
    r2 / s
  }

  /** The lobe position is the fractional part of (a - f) / s: it differs from it by whole lobes. */
  lemma LobePositionIsFraction(a: real, f: real, s: real)
    requires s > 0.0
    ensures ((a - f) / s - LobePosition(a, f, s)).Floor as real == (a - f) / s - LobePosition(a, f, s)
  {
    var x1 := a - f;
    var r1 := FMod(x1, s);
    var r2 := FMod(r1 + s, s);
    WholeLobes(x1, r1, r2, s);
  }

  /** Two whole numbers of lobes removed, less the one added back, leave a whole number. */
  lemma WholeLobes(x1: real, r1: real, r2: real, s: real)
    requires s > 0.0
    requires ((x1 - r1) / s).Floor as real == (x1 - r1) / s
    requires ((r1 + s - r2) / s).Floor as real == (r1 + s - r2) / s
    ensures (x1 / s - r2 / s).Floor as real == x1 / s - r2 / s
  {
    var k1 := (x1 - r1) / s;
    var k2 := (r1 + s - r2) / s;
    assert k1 * s == x1 - r1;
    assert k2 * s == r1 + s - r2;
    assert (k1 + k2 - 1.0) * s == x1 - r2;
    assert (x1 - r2) / s == x1 / s - r2 / s;
    DivCancel(k1 + k2 - 1.0, s);
    var whole := k1.Floor + k2.Floor - 1;
    assert x1 / s - r2 / s == whole as real;
    assert (k1 + k2 - 1.0).Floor == k1.Floor + k2.Floor - 1;
  }

  lemma DivCancel(m: real, s: real)
    requires s != 0.0
    ensures (m * s) / s == m
  {
    var q := (m * s) / s;
    assert q * s == m * s;
    assert (q - m) * s == 0.0;
  }

  /** The position folded about the lobe's middle: 0 at either edge, 1 in the middle. */
  function Reflect(pos: real): (p: real)
    requires 0.0 <= pos < 1.0
    ensures 0.0 <= p <= 1.0
    ensures p == 0.0 <==> pos == 0.0
  {
    (if pos < 0.5 then pos else 1.0 - pos) * 2.0
  }

  function Cube(x: real): real { x * x * x }

  /** Cubing is monotone on non-negative numbers. */
  lemma CubeBounds(x: real, b: real)
    requires 0.0 <= x <= b
    ensures 0.0 <= Cube(x) <= Cube(b)
  {
    MulNonnegReal(x, x);
    MulNonnegReal(x * x, x);
    MulNonnegReal(b - x, x);
    MulNonnegReal(b - x, b);
    assert x * x <= b * x <= b * b;
    MulNonnegReal(b * b - x * x, x);
    MulNonnegReal(b * b, b - x);
    assert x * x * x <= b * b * x <= b * b * b;
  }

  /**
    The gain of a style at reflected position p; an unknown style leaves the gain at 0.
    Every style keeps the gain within [0, 1].
  */
  function StyleGain(style: int, p: real): (g: real)
    requires 0.0 <= p <= 1.0
    ensures 0.0 <= g <= 1.0
    ensures !(STYLE_LINEAR <= style <= STYLE_SPIKEY) ==> g == 0.0
  {
    if style == STYLE_LINEAR then 1.0 - p
    else if style == STYLE_SPIKE_UP then
      CubeBounds(1.0 - p, 1.0);
      (1.0 - p) * (1.0 - p) * (1.0 - p)
    else if style == STYLE_SPIKE_DOWN then
      CubeBounds(p, 1.0);
      1.0 - p * p * p
    else if style == STYLE_CURVY then
      if p < 0.5 then
        CubeBounds(p, 0.5);
        1.0 - 4.0 * p * p * p
      else
        CubeBounds(1.0 - p, 0.5);
        assert -4.0 * (p - 1.0) * (p - 1.0) * (p - 1.0) == 4.0 * Cube(1.0 - p);
        -4.0 * (p - 1.0) * (p - 1.0) * (p - 1.0)
    else if style == STYLE_SPIKEY then
      if p < 0.5 then
        CubeBounds(1.0 - p * 2.0, 1.0);
        (1.0 + (1.0 - p * 2.0) * (1.0 - p * 2.0) * (1.0 - p * 2.0)) / 2.0
      else
        CubeBounds(2.0 * p - 1.0, 1.0);
        (1.0 - (2.0 * p - 1.0) * (2.0 * p - 1.0) * (2.0 * p - 1.0)) / 2.0
    else 0.0
  }

  /**
    The amplitude multiplier for gain g and wet amount gainMod: g moved from [0, 1] to [-1, 1],
    scaled by the wet amount and re-centred on 1.
  */
  function Multiplier(g: real, gainMod: real): (m: real)
    ensures 0.0 <= g <= 1.0 && 0.0 <= gainMod <= 1.0 ==> 0.0 <= m <= 2.0
    ensures gainMod == 0.0 ==> m == 1.0
    ensures g == 0.0 ==> m == 1.0 - gainMod
    ensures g == 1.0 ==> m == 1.0 + gainMod
  {
    ScaledSwingBounds((g - 0.5) * 2.0, gainMod);
    (g - 0.5) * 2.0 * gainMod + 1.0
  }

  /** A swing in [-1, 1] scaled by an amount in [0, 1] stays in [-1, 1]. */
  lemma ScaledSwingBounds(x: real, amount: real)
    ensures -1.0 <= x <= 1.0 && 0.0 <= amount <= 1.0 ==> -1.0 <= x * amount <= 1.0
  {
    if -1.0 <= x <= 1.0 && 0.0 <= amount <= 1.0 {
      MulNonnegReal(1.0 - x, amount);
      MulNonnegReal(x + 1.0, amount);
    }
  }

  /** The multiplier a partial at absolute frequency `a` receives. */
  function SlotMultiplier(style: int, a: real, f: real, s: real, gainMod: real): (m: real)
    requires s > 0.0
    ensures 0.0 <= gainMod <= 1.0 ==> 0.0 <= m <= 2.0
    ensures gainMod == 0.0 ==> m == 1.0
  {
    Multiplier(StyleGain(style, Reflect(LobePosition(a, f, s))), gainMod)
  }

  /**
    The output amplitude of one partial with lobe multiplier m: passed through when it is a
    skipped fundamental, otherwise scaled by m; never above twice the input for m in [0, 2].
  */
  function SlotOutput(skip: bool, amp: real, m: real): (r: real)
    ensures skip || m == 1.0 ==> r == amp
    ensures 0.0 <= amp && 0.0 <= m <= 2.0 ==> 0.0 <= r <= 2.0 * amp
  {
    if skip then amp
    else
      ScaledBelow(amp, m);
      amp * m
  }

  /** A non-negative amount scaled by a multiplier in [0, 2] lies between 0 and twice the amount. */
  lemma ScaledBelow(x: real, m: real)
    ensures 0.0 <= x && 0.0 <= m <= 2.0 ==> 0.0 <= x * m <= 2.0 * x
    ensures m == 1.0 ==> x * m == x
  {
    if 0.0 <= x && 0.0 <= m <= 2.0 {
      MulNonnegReal(x, m);
      MulNonnegReal(x, 2.0 - m);
      assert x * (2.0 - m) == 2.0 * x - x * m;
    }
  }

  /** A partial's absolute frequency from its frequency relative to the pitch. */
  function Absolute(rel: real, pitch: real): real { rel * pitch }

  class FlangeFilter {
    /** Number of partials. */
    const n: nat
    /** This unit's output amplitudes. */
    const amplitudes: array<real>
    var style: int
    var fixed: bool
    var includeFundamental: bool

    ghost predicate Valid()
      reads this
    {
      amplitudes.Length == n
    }

    constructor (n: nat)
      ensures Valid() && this.n == n && fresh(amplitudes)
      ensures style == STYLE_SPIKE_DOWN && !fixed && includeFundamental
    {
      this.n := n;
      amplitudes := new real[n](_ => 0.0);
      style := STYLE_SPIKE_DOWN;
      fixed := false;
      includeFundamental := true;
    }

    /** The value of an option; Java throws for an option index that does not exist. */
    function GetOptionValue(option: int): (r: Option<int>)
      reads this
      ensures r.Some? <==> OPTION_STYLE <= option <= OPTION_INCLUDE_FUNDAMENTAL
      ensures option == OPTION_FIXED ==> r == Some(if fixed then 1 else 0)
      ensures option == OPTION_INCLUDE_FUNDAMENTAL ==> r == Some(if includeFundamental then 1 else 0)
    {
      if option == OPTION_STYLE then Some(style)
      else if option == OPTION_FIXED then Some(if fixed then 1 else 0)
      else if option == OPTION_INCLUDE_FUNDAMENTAL then Some(if includeFundamental then 1 else 0)
      else None
    }

    /** Sets an option; reading it back gives the value stored (a flag reads back as 0 or 1). */
    method SetOptionValue(option: int, value: int) returns (ok: bool)
      modifies this`style, this`fixed, this`includeFundamental
      ensures ok <==> OPTION_STYLE <= option <= OPTION_INCLUDE_FUNDAMENTAL
      ensures option == OPTION_STYLE ==> GetOptionValue(option) == Some(value)
      ensures option == OPTION_FIXED || option == OPTION_INCLUDE_FUNDAMENTAL ==>
        GetOptionValue(option) == Some(if value != 0 then 1 else 0)
      ensures forall o :: o != option ==> GetOptionValue(o) == old(GetOptionValue(o))
    {
      ok := true;
      if option == OPTION_STYLE {
        style := value;
      } else if option == OPTION_FIXED {
        fixed := value != 0;
      } else if option == OPTION_INCLUDE_FUNDAMENTAL {
        includeFundamental := value != 0;
      } else {
        ok := false;
      }
    }

    /**
      One tick: each partial's amplitude is multiplied by the multiplier of its lobe position,
      except the fundamental, which passes through unchanged when it is not included.
      With no wet amount the output equals the input.
    */
    method Go(ampsIn: seq<real>, freqs: seq<real>, pitch: real, stretchSens: real, stretchMod: real,
              offsetFreq: real, offsetMod: real, gainMod: real)
      requires Valid() && |ampsIn| == n && |freqs| == n
      requires stretchSens >= 0.0 && stretchMod >= 0.0
      modifies amplitudes
      ensures Valid()
      ensures forall i :: 0 <= i < n ==>
        var s := FilterStretch(stretchSens, stretchMod);
        amplitudes[i] == SlotOutput(i == 0 && !includeFundamental, ampsIn[i],
          SlotMultiplier(style, Absolute(freqs[i], pitch), FilterFreq(offsetFreq, fixed, pitch, s, offsetMod), s, gainMod))
      ensures n > 0 && !includeFundamental ==> amplitudes[0] == ampsIn[0]
      ensures gainMod == 0.0 ==> amplitudes[..] == ampsIn
      ensures 0.0 <= gainMod <= 1.0 ==>
        forall i :: 0 <= i < n && 0.0 <= ampsIn[i] ==> 0.0 <= amplitudes[i] <= 2.0 * ampsIn[i]
    {
      var s := FilterStretch(stretchSens, stretchMod);
      var f := FilterFreq(offsetFreq, fixed, pitch, s, offsetMod);
      var i := 0;
      while i < n
        invariant 0 <= i <= n
        invariant forall j :: 0 <= j < i ==>
          amplitudes[j] == SlotOutput(j == 0 && !includeFundamental, ampsIn[j],
                                      SlotMultiplier(style, Absolute(freqs[j], pitch), f, s, gainMod))
      {
        var m := SlotMultiplier(style, Absolute(freqs[i], pitch), f, s, gainMod);
        amplitudes[i] := SlotOutput(i == 0 && !includeFundamental, ampsIn[i], m);
        i := i + 1;
      }
    }
  }
}
