/**
  The VCA unit: an amplifier multiplying every input amplitude by a linear "Mod" value and a
  "Scale" value mapped from [0, 1] onto [0, MAX_SCALE] with 1 at the midpoint.
*/
module VcaUnit {
  import opened Base

  const MAX_SCALE: real := 8.0

  /** The multiplier for a Scale modulation value, as computed in `go()`. */
  function Scale(s: real): (r: real)
    ensures s == 0.5 ==> r == 1.0
    ensures s == 0.0 ==> r == 0.0
    ensures s == 1.0 ==> r == MAX_SCALE
    ensures 0.0 <= s <= 1.0 ==> 0.0 <= r <= MAX_SCALE
    ensures s < 0.5 ==> r < 1.0
    ensures s > 0.5 ==> r > 1.0
  {
    if s == 0.5 then 1.0
    else if s > 0.5 then (s - 0.5) * 2.0 * (MAX_SCALE - 1.0) + 1.0
    else s * 2.0
  }

  /** The multiplier shown to the user for a constant Scale value. */
  function DescribedScale(value: real): (r: real)
    ensures r == Scale(value)
  {
    if value >= 0.5 then (value - 0.5) * 2.0 * (MAX_SCALE - 1.0) + 1.0
    else value * 2.0
  }

  /** Turning the Scale knob up never lowers the multiplier. */
  lemma ScaleMonotonic(s1: real, s2: real)
    requires s1 <= s2
    ensures Scale(s1) <= Scale(s2)
  {
  }

  class VCA {
    /** Number of partials. */
    const n: nat
    /** This unit's output amplitudes. */
    const amplitudes: array<real>

    ghost predicate Valid()
      reads this
    {
      amplitudes.Length == n
    }

    constructor (n: nat)
      ensures Valid() && this.n == n && fresh(amplitudes)
    {
      this.n := n;
      amplitudes := new real[n](_ => 0.0);
    }

    /** One tick: the input amplitudes are copied and every slot multiplied by mod * Scale(scale). */
    method Go(ampsIn: seq<real>, mod: real, scale: real)
      requires Valid() && |ampsIn| == n
      modifies amplitudes
      ensures Valid()
      ensures forall i :: 0 <= i < n ==> amplitudes[i] == ampsIn[i] * mod * Scale(scale)
    {
      var i := 0;
      while i < n
        invariant 0 <= i <= n
        invariant forall j :: 0 <= j < i ==> amplitudes[j] == ampsIn[j]
      {
        amplitudes[i] := ampsIn[i];
        i := i + 1;
      }
      var sc := scale;
      if sc == 0.5 {
        sc := 1.0;
      } else if sc > 0.5 {
        sc := (sc - 0.5) * 2.0 * (MAX_SCALE - 1.0) + 1.0;
      } else {
        sc := sc * 2.0;
      }
      i := 0;
      while i < n
        invariant 0 <= i <= n
        invariant forall j :: 0 <= j < i ==> amplitudes[j] == ampsIn[j] * mod * sc
        invariant forall j :: i <= j < n ==> amplitudes[j] == ampsIn[j]
      {
        amplitudes[i] := amplitudes[i] * mod * sc;
        i := i + 1;
      }
    }
  }
}
