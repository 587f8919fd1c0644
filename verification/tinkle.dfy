/**
  The Tinkle unit: on a trigger it (probably) sets a few randomly chosen partials to a volume,
  then lets every partial decay a little each tick. The random choices are parameters: `draw` is
  the probability draw and `picks` the indices drawn into the list of constrained partials.
*/
module TinkleUnit {
  import opened Base

  /** The most partials one trigger can set. */
  const MAX_NUMBER: int := 16
  /** The output follows the internal amplitudes completely. */
  const INTERPOLATION_ALPHA: real := 1.0

  /** How many picks a trigger makes for a Number modulation value. */
  function NumberOfPicks(numberMod: real): (k: int)
    ensures 0.0 <= numberMod ==> 0 <= k && k as real <= numberMod * 16.0 < k as real + 1.0
    ensures 0.0 <= numberMod <= 1.0 ==> k <= MAX_NUMBER
  {
    Trunc(numberMod * MAX_NUMBER as real)
  }

  /** How many partials a passing trigger draws: none when no partial is allowed. */
  function Draws(numberMod: real, constrained: seq<int>): (k: nat)
    ensures constrained == [] ==> k == 0
    ensures constrained != [] && 0.0 <= numberMod <= 1.0 ==> k == NumberOfPicks(numberMod) <= MAX_NUMBER
  {
    if constrained == [] then 0 else Max(NumberOfPicks(numberMod), 0)
  }

  /** Whether the probability test passes; a probability of exactly 1 needs no draw. */
  predicate Fires(probability: real, draw: real)
  {
    probability == 1.0 || draw < probability
  }

  /** The partials named by the picks. */
  function Picked(constrained: seq<int>, picks: seq<int>): (s: set<int>)
    requires forall k :: 0 <= k < |picks| ==> 0 <= picks[k] < |constrained|
    ensures forall i :: i in s ==> i in constrained
    ensures forall k :: 0 <= k < |picks| ==> constrained[picks[k]] in s
  {
    set k | 0 <= k < |picks| :: constrained[picks[k]]
  }

  /** The decay factor of one tick. */
  function DecayFactor(decayMod: real): (f: real)
    ensures 0.0 <= decayMod <= 1.0 ==> 0.99 <= f <= 1.0
  {
    decayMod * 0.01 + 0.99
  }

  /** With a Decay modulation in [0, 1], a non-negative amplitude never grows and stays non-negative. */
  lemma DecayNeverGrows(x: real, decayMod: real)
    requires 0.0 <= x && 0.0 <= decayMod <= 1.0
    ensures 0.0 <= x * DecayFactor(decayMod) <= x
  {
    var f := DecayFactor(decayMod);
    MulNonnegReal(x, f);
    MulNonnegReal(x, 1.0 - f);
  }

  class Tinkle {
    /** Number of partials. */
    const n: nat
    /** The amplitudes the unit maintains between ticks. */
    const currentAmplitudes: array<real>
    /** This unit's output amplitudes. */
    const amplitudes: array<real>

    ghost predicate Valid()
      reads this
    {
      currentAmplitudes.Length == n && amplitudes.Length == n && currentAmplitudes != amplitudes
    }

    constructor (n: nat)
      ensures Valid() && this.n == n && fresh(currentAmplitudes) && fresh(amplitudes)
      ensures forall i :: 0 <= i < n ==> currentAmplitudes[i] == 0.0 && amplitudes[i] == 0.0
    {
      this.n := n;
      currentAmplitudes := new real[n](_ => 0.0);
      amplitudes := new real[n](_ => 0.0);
    }

    /** Silences every internal amplitude. */
    method Clear()
      requires Valid()
      modifies currentAmplitudes
      ensures forall i :: 0 <= i < n ==> currentAmplitudes[i] == 0.0
    {
      var i := 0;
      while i < currentAmplitudes.Length
        invariant 0 <= i <= currentAmplitudes.Length
        invariant forall j :: 0 <= j < i ==> currentAmplitudes[j] == 0.0
      {
        currentAmplitudes[i] := 0.0;
        i := i + 1;
      }
    }

    /**
      One trigger: when the probability test passes and some partials are allowed, every picked
      constrained partial is set to the volume; no other partial changes.
    */
    method DoTinkle(numberMod: real, probability: real, draw: real, constrained: seq<int>,
                    volume: real, picks: seq<int>)
      requires Valid()
      requires forall q :: 0 <= q < |constrained| ==> 0 <= constrained[q] < n
      requires |picks| == Draws(numberMod, constrained)
      requires forall k :: 0 <= k < |picks| ==> 0 <= picks[k] < |constrained|
      modifies currentAmplitudes
      ensures forall i :: 0 <= i < n ==>
        currentAmplitudes[i] ==
          if Fires(probability, draw) && i in Picked(constrained, picks) then volume
          else old(currentAmplitudes[i])
      ensures forall i :: 0 <= i < n && currentAmplitudes[i] != old(currentAmplitudes[i]) ==> i in constrained
    {
      var number := NumberOfPicks(numberMod);
      if probability == 1.0 || draw < probability {
        if |constrained| > 0 {
          var k := 0;
          while k < number
            invariant 0 <= k <= |picks|
            invariant forall i :: 0 <= i < n ==>
              currentAmplitudes[i] ==
                if i in Picked(constrained, picks[..k]) then volume else old(currentAmplitudes[i])
          {
            var harm := constrained[picks[k]];
            currentAmplitudes[harm] := volume;
            assert Picked(constrained, picks[..k + 1]) == Picked(constrained, picks[..k]) + {harm} by {
              assert forall q :: 0 <= q < k ==> picks[..k + 1][q] == picks[..k][q];
            }
            k := k + 1;
          }
          assert picks[..k] == picks;
        } else {
          assert Picked(constrained, picks) == {};
        }
      }
    }

    /** Every internal amplitude is scaled by the decay factor. */
    method Reduce(decayMod: real)
      requires Valid()
      modifies currentAmplitudes
      ensures forall i :: 0 <= i < n ==> currentAmplitudes[i] == old(currentAmplitudes[i]) * DecayFactor(decayMod)
    {
      var alpha := decayMod * 0.01 + 0.99;
      var i := 0;
      while i < currentAmplitudes.Length
        invariant 0 <= i <= currentAmplitudes.Length
        invariant forall j :: 0 <= j < i ==> currentAmplitudes[j] == old(currentAmplitudes[j]) * alpha
        invariant forall j :: i <= j < currentAmplitudes.Length ==> currentAmplitudes[j] == old(currentAmplitudes[j])
      {
        currentAmplitudes[i] := currentAmplitudes[i] * alpha;
        i := i + 1;
      }
    }

    /** The output moves all the way to the internal amplitudes, since the interpolation weight is 1. */
    method Interpolate()
      requires Valid()
      modifies amplitudes
      ensures amplitudes[..] == currentAmplitudes[..]
    {
      var i := 0;
      while i < currentAmplitudes.Length
        invariant 0 <= i <= currentAmplitudes.Length
        invariant forall j :: 0 <= j < i ==> amplitudes[j] == currentAmplitudes[j]
      {
        amplitudes[i] := (1.0 - INTERPOLATION_ALPHA) * amplitudes[i] + INTERPOLATION_ALPHA * currentAmplitudes[i];
        i := i + 1;
      }
    }

    /**
      A gate: every internal amplitude is silenced and then a trigger happens, so exactly the
      picked partials sound (when the test passes). Reseeding the random source is not modelled.
    */
    method Gate(numberMod: real, probability: real, draw: real, constrained: seq<int>,
                volume: real, picks: seq<int>)
      requires Valid()
      requires forall q :: 0 <= q < |constrained| ==> 0 <= constrained[q] < n
      requires |picks| == Draws(numberMod, constrained)
      requires forall k :: 0 <= k < |picks| ==> 0 <= picks[k] < |constrained|
      modifies currentAmplitudes
      ensures forall i :: 0 <= i < n ==>
        currentAmplitudes[i] == if Fires(probability, draw) && i in Picked(constrained, picks) then volume else 0.0
    {
      Clear();
      DoTinkle(numberMod, probability, draw, constrained, volume, picks);
    }

    /** A reset does the same to the internal amplitudes as a gate. */
    method Reset(numberMod: real, probability: real, draw: real, constrained: seq<int>,
                 volume: real, picks: seq<int>)
      requires Valid()
      requires forall q :: 0 <= q < |constrained| ==> 0 <= constrained[q] < n
      requires |picks| == Draws(numberMod, constrained)
      requires forall k :: 0 <= k < |picks| ==> 0 <= picks[k] < |constrained|
      modifies currentAmplitudes
      ensures forall i :: 0 <= i < n ==>
        currentAmplitudes[i] == if Fires(probability, draw) && i in Picked(constrained, picks) then volume else 0.0
    {
      Gate(numberMod, probability, draw, constrained, volume, picks);
    }

    /**
      One tick: a trigger tinkles, then every partial decays and the output takes the result.
      Without a trigger the output is the old amplitudes decayed.
    */
    method Go(triggered: bool, decayMod: real, numberMod: real, probability: real, draw: real,
              constrained: seq<int>, volume: real, picks: seq<int>)
      requires Valid()
      requires forall q :: 0 <= q < |constrained| ==> 0 <= constrained[q] < n
      requires |picks| == Draws(numberMod, constrained)
      requires forall k :: 0 <= k < |picks| ==> 0 <= picks[k] < |constrained|
      modifies currentAmplitudes, amplitudes
      ensures forall i :: 0 <= i < n ==>
        currentAmplitudes[i] ==
          (if triggered && Fires(probability, draw) && i in Picked(constrained, picks) then volume
           else old(currentAmplitudes[i])) * DecayFactor(decayMod)
      ensures amplitudes[..] == currentAmplitudes[..]
      ensures 0.0 <= decayMod <= 1.0 && !triggered ==>
        forall i :: 0 <= i < n && 0.0 <= old(currentAmplitudes[i]) ==> 0.0 <= amplitudes[i] <= old(currentAmplitudes[i])
    {
      if triggered {
        DoTinkle(numberMod, probability, draw, constrained, volume, picks);
      }
      Reduce(decayMod);
      Interpolate();
      if 0.0 <= decayMod <= 1.0 && !triggered {
        forall i | 0 <= i < n && 0.0 <= old(currentAmplitudes[i])
          ensures 0.0 <= amplitudes[i] <= old(currentAmplitudes[i])
        {
          assert amplitudes[i] == amplitudes[..][i] == currentAmplitudes[..][i];
          assert currentAmplitudes[i] == old(currentAmplitudes[i]) * DecayFactor(decayMod);
          DecayNeverGrows(old(currentAmplitudes[i]), decayMod);
          assert old(currentAmplitudes[i]) * DecayFactor(decayMod) <= old(currentAmplitudes[i]);
          assert amplitudes[i] <= old(currentAmplitudes[i]);
        }
      }
    }
  }
}
