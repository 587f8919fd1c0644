/**
  The AmpMath unit: combines the amplitudes of two inputs A and B partial by partial, using one
  of a fixed set of operations, some of them steered by a modulation value `mod`.
*/
module AmpMathUnit {
  import opened Base

  const ADD: int := 0
  const SUBTRACT: int := 1
  const MULTIPLY: int := 2
  const INV_MULTIPLY: int := 3
  const COMPRESS: int := 4
  const MEAN: int := 5
  const MIN: int := 6
  const MAX: int := 7
  const FILTER: int := 8
  const FILTERNOT: int := 9
  const FILL: int := 10
  const THRESHOLD: int := 11
  const SCALEDOWN: int := 12
  const SCALEUP: int := 13
  /** Declared, but the operation switch has no case for it. */
  const EXPAND: int := 14

  const OPTION_OPERATION: int := 0
  const OPTION_NORMALIZE: int := 1

  /** The operation codes the switch has a case for. */
  predicate HasCase(op: int) { ADD <= op <= SCALEUP }

  /** What the loop of case `op` writes into one output slot, given A, B and the modulation. */
  function Formula(op: int, a: real, b: real, mod: real): (r: real)
    requires HasCase(op)
    ensures op == SUBTRACT ==> r >= 0.0 && (a >= b ==> r == a - b) && (a < b ==> r == 0.0)
    ensures op == MIN ==> (r == a || r == b) && r <= a && r <= b
    ensures op == MAX ==> (r == a || r == b) && r >= a && r >= b
    ensures op == FILTER || op == FILTERNOT ==> r == a || r == 0.0
    ensures op == FILL ==> (r == a || r == b) && (r == a <== a > mod)
    ensures op == THRESHOLD ==> (r == 1.0 <==> a >= mod) && (r == 0.0 <==> a < mod)
  {
    if op == ADD then a + b
    else if op == SUBTRACT then (if a - b < 0.0 then 0.0 else a - b)
    else if op == MULTIPLY then a * b
    else if op == INV_MULTIPLY then a * (1.0 - b)
    else if op == COMPRESS then 1.0 - (1.0 - a) * (1.0 - b)
    else if op == MEAN then mod * a + (1.0 - mod) * b
    else if op == MIN then (if a <= b then a else b)
    else if op == MAX then (if a >= b then a else b)
    else if op == FILTER then (if b < mod then 0.0 else a)
    else if op == FILTERNOT then (if b >= mod then 0.0 else a)
    else if op == FILL then (if a > mod then a else b)
    else if op == THRESHOLD then (if a >= mod then 1.0 else 0.0)
    else if op == SCALEDOWN then a * mod
    else a * (mod + 1.0)
  }

  /** MEAN with a modulation in [0, 1] is a weighted average: it lies between A and B. */
  lemma MeanBetween(a: real, b: real, mod: real)
    requires 0.0 <= mod <= 1.0
    ensures MinReal(a, b) <= Formula(MEAN, a, b, mod) <= MaxReal(a, b)
  {
    ConvexBetween(b, a, mod);
  }

  /**
    Whether the case for `op` ends with a `break`. The COMPRESS case has none, so the switch runs
    on into the case written after it.
  */
  predicate EndsWithBreak(op: int) { op != COMPRESS }

  /**
    The case loops the switch in `go()` runs for `op` as written: op's own case and, while a case
    has no `break`, the case written after it (the codes follow the order the cases are written in).
  */
  function CasesRun(op: int): (cs: seq<int>)
    requires HasCase(op)
    ensures |cs| >= 1 && cs[0] == op
    ensures forall k :: 0 <= k < |cs| ==> HasCase(cs[k])
    decreases SCALEUP - op
  {
    if EndsWithBreak(op) || op == SCALEUP then [op] else [op] + CasesRun(op + 1)
  }

  /**
    The net value one output slot receives from `go()` as written: each case loop rewrites every
    slot, so the last loop the switch runs decides it. For COMPRESS that is the MEAN loop.
  */
  function Outcome(op: int, a: real, b: real, mod: real): (r: real)
    requires HasCase(op)
    ensures op == COMPRESS ==> r == mod * a + (1.0 - mod) * b
    ensures op != COMPRESS ==> r == Formula(op, a, b, mod)
  {
    var cs := CasesRun(op);
    Formula(cs[|cs| - 1], a, b, mod)
  }

  /**
    As written, COMPRESS of a full A with a silent B at mod 0 is silent, where the formula its case
    documents (and `Formula`, each case closed by its `break`) gives full amplitude.
  */
  lemma CompressFallsThrough()
    ensures Outcome(COMPRESS, 1.0, 0.0, 0.0) == 0.0
    ensures Formula(COMPRESS, 1.0, 0.0, 0.0) == 1.0
  {
  }

  /**
    COMPRESS closed by its `break` keeps amplitudes in [0, 1] and is at least as loud as either
    input: it is the "probabilistic or" of the two amplitudes.
  */
  lemma IntendedCompressBounds(a: real, b: real, mod: real)
    requires 0.0 <= a <= 1.0 && 0.0 <= b <= 1.0
    ensures var r := Formula(COMPRESS, a, b, mod); MaxReal(a, b) <= r <= 1.0
  {
    var r := Formula(COMPRESS, a, b, mod);
    var p := (1.0 - a) * (1.0 - b);
    assert p >= 0.0 by { MulNonnegReal(1.0 - a, 1.0 - b); }
    assert r == 1.0 - p;
    assert a + (1.0 - a) * b == r;
    assert b + (1.0 - b) * a == r;
    MulNonnegReal(1.0 - a, b);
    MulNonnegReal(1.0 - b, a);
  }

  /** FILTER and FILTERNOT split A between them: every slot of A goes to exactly one of the two. */
  lemma FilterSplitsInput(a: real, b: real, mod: real)
    ensures Formula(FILTER, a, b, mod) + Formula(FILTERNOT, a, b, mod) == a
    ensures Formula(FILTER, a, b, mod) == 0.0 || Formula(FILTERNOT, a, b, mod) == 0.0
  {
  }

  class AmpMath {
    /** Number of partials. */
    const n: nat
    /** This unit's output amplitudes. */
    const amplitudes: array<real>
    var operation: int
    var normalize: bool

    ghost predicate Valid()
      reads this
    {
      amplitudes.Length == n
    }

    constructor (n: nat)
      ensures Valid() && this.n == n && fresh(amplitudes)
      ensures operation == ADD && !normalize
    {
      this.n := n;
      amplitudes := new real[n](_ => 0.0);
      operation := ADD;
      normalize := false;
    }

    /** The value of an option; Java throws for an option index that does not exist. */
    function GetOptionValue(option: int): (r: Option<int>)
      reads this
      ensures r.Some? <==> option == OPTION_OPERATION || option == OPTION_NORMALIZE
      ensures option == OPTION_NORMALIZE ==> r == Some(if normalize then 1 else 0)
    {
      if option == OPTION_OPERATION then Some(operation)
      else if option == OPTION_NORMALIZE then Some(if normalize then 1 else 0)
      else None
    }

    /** Sets an option; reading it back gives the value stored (a flag reads back as 0 or 1). */
    method SetOptionValue(option: int, value: int) returns (ok: bool)
      modifies this`operation, this`normalize
      ensures ok <==> option == OPTION_OPERATION || option == OPTION_NORMALIZE
      ensures option == OPTION_OPERATION ==> GetOptionValue(option) == Some(value) && normalize == old(normalize)
      ensures option == OPTION_NORMALIZE ==>
        GetOptionValue(option) == Some(if value != 0 then 1 else 0) && operation == old(operation)
      ensures !ok ==> operation == old(operation) && normalize == old(normalize)
    {
      ok := true;
      if option == OPTION_OPERATION {
        operation := value;
      } else if option == OPTION_NORMALIZE {
        normalize := value != 0;
      } else {
        ok := false;
      }
    }

    /**
      One tick with every case closed by a `break`: every output slot i receives the operation's
      value on A[i] and B[i]; an operation code without a case leaves the outputs as they were.
    */
    method Go(inA: seq<real>, inB: seq<real>, mod: real)
      requires Valid() && |inA| == n && |inB| == n
      modifies amplitudes
      ensures Valid()
      ensures HasCase(operation) ==>
        forall i :: 0 <= i < n ==> amplitudes[i] == Formula(operation, inA[i], inB[i], mod)
      ensures !HasCase(operation) ==> amplitudes[..] == old(amplitudes[..])
    {
      if HasCase(operation) {
        Apply(operation, inA, inB, mod);
      }
    }

    /**
      One tick as the switch is written: the case loop of the operation runs, and while the case
      just run has no `break`, so does the loop of the case after it.
    */
    method GoAsWritten(inA: seq<real>, inB: seq<real>, mod: real)
      requires Valid() && |inA| == n && |inB| == n
      modifies amplitudes
      ensures Valid()
      ensures HasCase(operation) ==>
        forall i :: 0 <= i < n ==> amplitudes[i] == Outcome(operation, inA[i], inB[i], mod)
      ensures !HasCase(operation) ==> amplitudes[..] == old(amplitudes[..])
    {
      if HasCase(operation) {
        var c := operation;
        Apply(c, inA, inB, mod);
        while !EndsWithBreak(c) && c < SCALEUP
          invariant HasCase(c)
          invariant var cs := CasesRun(c); var all := CasesRun(operation);
            cs[|cs| - 1] == all[|all| - 1]
          invariant forall i :: 0 <= i < n ==> amplitudes[i] == Formula(c, inA[i], inB[i], mod)
          decreases SCALEUP - c
        {
          c := c + 1;
          Apply(c, inA, inB, mod);
        }
      }
    }

    /** The loop of case `op`: writes the formula into every output slot. */
    method Apply(op: int, inA: seq<real>, inB: seq<real>, mod: real)
      requires Valid() && HasCase(op) && |inA| == n && |inB| == n
      modifies amplitudes
      ensures forall i :: 0 <= i < n ==> amplitudes[i] == Formula(op, inA[i], inB[i], mod)
    {
      var i := 0;
      while i < amplitudes.Length
        invariant 0 <= i <= amplitudes.Length
        invariant forall j :: 0 <= j < i ==> amplitudes[j] == Formula(op, inA[j], inB[j], mod)
      {
        amplitudes[i] := Formula(op, inA[i], inB[i], mod);
        i := i + 1;
      }
    }
  }
}
