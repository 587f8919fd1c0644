/**
  The Delay unit: an initial one-time delay line feeding a recirculating later delay line.
  Each line is a ring buffer of partial-amplitude vectors with its own wrapping position.
*/
module DelayUnit {
  import opened Base

  /** Sampling rate / 16, truncated: the longest delay of either line, in ticks. */
  const MAX_DELAY: int := 2756

  /**
    The length of a delay line for a sensitivity-mapped modulation value: at least one tick (so a
    line is never empty) and capped at MAX_DELAY.
  */
  function DelayLength(sens: real): (d: int)
    requires sens >= 0.0
    ensures 1 <= d <= MAX_DELAY
    ensures sens * MAX_DELAY as real < d as real || d == MAX_DELAY
    ensures d as real <= sens * MAX_DELAY as real + 1.0
  {
    var t := Trunc(sens * MAX_DELAY as real) + 1;
    if t > MAX_DELAY then MAX_DELAY else t
  }

  /** The slot written this tick: the one just behind `pos`, wrapping to the last slot of the line. */
  function LoadSlot(pos: int, len: int): (r: int)
    requires 0 <= pos < MAX_DELAY && 1 <= len <= MAX_DELAY
    ensures 0 <= r < MAX_DELAY
    ensures pos < len ==> 0 <= r < len && Advance(r, len) == pos
  {
    if pos - 1 < 0 then pos - 1 + len else pos - 1
  }

  /**
    The position after one tick: one step forward, pulled back into the (possibly shortened) line.
    Whatever the old position, the result is its successor modulo the line length.
  */
  function Advance(pos: int, len: int): (r: int)
    requires 0 <= pos && 1 <= len
    ensures 0 <= r < len
    ensures r == (pos + 1) % len
  {
    var p := pos + 1;
    if p < len then
      ModUnique(p, len, 0, p);
      p
    else if p - len < len then
      ModUnique(p, len, 1, p - len);
      p - len
    else
      var p1 := p - len;
      assert p1 == (p1 / len) * len + p1 % len;
      ModUnique(p, len, p1 / len + 1, p1 % len);
      p1 % len
  }

  /** The position after `k` ticks of a line whose length stays `len`. */
  function AdvanceN(pos: int, len: int, k: nat): (r: int)
    requires 0 <= pos && 1 <= len
    ensures 0 <= r
    ensures k > 0 ==> r < len
  {
    if k == 0 then pos else Advance(AdvanceN(pos, len, k - 1), len)
  }

  /** While the length is unchanged, k ticks move a position k slots forward around the ring. */
  lemma {:induction false} AdvanceNIsRotation(pos: int, len: int, k: nat)
    requires 0 <= pos < len
    ensures AdvanceN(pos, len, k) == (pos + k) % len
  {
    if k > 0 {
      AdvanceNIsRotation(pos, len, k - 1);
      var prev := AdvanceN(pos, len, k - 1);
      assert AdvanceN(pos, len, k) == (prev + 1) % len;
      ModSucc(pos + k - 1, len);
    }
  }

  /**
    The ring-buffer property: the slot loaded at a tick is the slot read as "current" len - 1
    ticks later, so a vector entering a line of length len leaves it after len - 1 further ticks.
  */
  lemma LoadedSlotIsReadAfter(pos: int, len: int)
    requires 0 <= pos < len <= MAX_DELAY
    ensures AdvanceN(pos, len, len - 1) == LoadSlot(pos, len)
  {
    AdvanceNIsRotation(pos, len, len - 1);
    if pos == 0 {
      ModUnique(len - 1, len, 0, len - 1);
    } else {
      ModUnique(pos + len - 1, len, 1, pos - 1);
    }
  }

  class Delay {
    /** Number of partials per vector. */
    const n: nat
    const initialBuf: array2<real>
    const laterBuf: array2<real>
    /** This unit's output amplitudes. */
    const amplitudes: array<real>
    var initialPos: int
    var laterPos: int

    ghost predicate Valid()
      reads this
    {
      && initialBuf.Length0 == MAX_DELAY && initialBuf.Length1 == n
      && laterBuf.Length0 == MAX_DELAY && laterBuf.Length1 == n
      && initialBuf != laterBuf
      && amplitudes.Length == n
      && 0 <= initialPos < MAX_DELAY
      && 0 <= laterPos < MAX_DELAY
    }

    constructor (n: nat)
      ensures Valid() && this.n == n
      ensures fresh(initialBuf) && fresh(laterBuf) && fresh(amplitudes)
      ensures initialPos == 0 && laterPos == 0
      ensures forall r, i :: 0 <= r < MAX_DELAY && 0 <= i < n ==> initialBuf[r, i] == 0.0 && laterBuf[r, i] == 0.0
      ensures forall i :: 0 <= i < n ==> amplitudes[i] == 0.0
    {
      this.n := n;
      initialBuf := new real[MAX_DELAY, n]((_, _) => 0.0);
      laterBuf := new real[MAX_DELAY, n]((_, _) => 0.0);
      amplitudes := new real[n](_ => 0.0);
      initialPos := 0;
      laterPos := 0;
    }

    /** Zeroes every cell of both lines; the positions are left where they are. */
    method Reset()
      requires Valid()
      modifies initialBuf, laterBuf
      ensures Valid()
      ensures forall r, i :: 0 <= r < MAX_DELAY && 0 <= i < n ==> initialBuf[r, i] == 0.0
      ensures forall r, i :: 0 <= r < MAX_DELAY && 0 <= i < n ==> laterBuf[r, i] == 0.0
    {
      Zero(initialBuf);
      Zero(laterBuf);
    }

    /**
      One tick. The input vector is loaded into the initial line just behind its position; the
      slot just behind the later position becomes the initial line's current vector cut down plus
      its own old content cut down; the output mixes the later line's current vector (wet) with the
      input (dry); then both positions move one slot forward within their (new) lengths.
      The reads happen after the loads, so a line of length one passes its input straight on.
    */
    method Go(ampsIn: seq<real>, wet: real, sensInitial: real, sensLater: real,
              initialCut: real, laterCut: real)
      requires Valid()
      requires |ampsIn| == n && sensInitial >= 0.0 && sensLater >= 0.0
      modifies this`initialPos, this`laterPos, initialBuf, laterBuf, amplitudes
      ensures Valid()
      ensures initialPos == Advance(old(initialPos), DelayLength(sensInitial))
      ensures laterPos == Advance(old(laterPos), DelayLength(sensLater))
      ensures forall r, i :: 0 <= r < MAX_DELAY && 0 <= i < n ==>
        initialBuf[r, i] == if r == LoadSlot(old(initialPos), DelayLength(sensInitial))
                            then ampsIn[i] else old(initialBuf[r, i])
      ensures forall r, i :: 0 <= r < MAX_DELAY && 0 <= i < n ==>
        laterBuf[r, i] == if r == LoadSlot(old(laterPos), DelayLength(sensLater))
                          then initialBuf[old(initialPos), i] * initialCut + old(laterBuf[r, i]) * laterCut
                          else old(laterBuf[r, i])
      ensures forall i :: 0 <= i < n ==>
        amplitudes[i] == laterBuf[old(laterPos), i] * wet + ampsIn[i] * (1.0 - wet)
    {
      var initialDelay := DelayLength(sensInitial);
      var laterDelay := DelayLength(sensLater);
      Feed(ampsIn, initialDelay, laterDelay, initialCut, laterCut);
      RollOut(ampsIn, wet);
      initialPos := Advance(initialPos, initialDelay);
      laterPos := Advance(laterPos, laterDelay);
    }

    /**
      The loads of one tick: the input goes into the initial line just behind its position, then the
      slot just behind the later position takes the initial line's current vector cut down plus its
      own old content cut down.
    */
    method Feed(ampsIn: seq<real>, initialDelay: int, laterDelay: int, initialCut: real, laterCut: real)
      requires Valid() && |ampsIn| == n && 1 <= initialDelay <= MAX_DELAY && 1 <= laterDelay <= MAX_DELAY
      modifies initialBuf, laterBuf
      ensures forall r, i :: 0 <= r < MAX_DELAY && 0 <= i < n ==>
        initialBuf[r, i] == if r == LoadSlot(initialPos, initialDelay) then ampsIn[i] else old(initialBuf[r, i])
      ensures forall r, i :: 0 <= r < MAX_DELAY && 0 <= i < n ==>
        laterBuf[r, i] == if r == LoadSlot(laterPos, laterDelay)
                          then initialBuf[initialPos, i] * initialCut + old(laterBuf[r, i]) * laterCut
                          else old(laterBuf[r, i])
    {
      LoadRow(initialBuf, LoadSlot(initialPos, initialDelay), ampsIn);
      MixRow(laterBuf, LoadSlot(laterPos, laterDelay), Row(initialBuf, initialPos), initialCut, laterCut);
    }

    /** The output of one tick, before the positions move: wet later line plus dry input. */
    method RollOut(ampsIn: seq<real>, wet: real)
      requires Valid() && |ampsIn| == n
      modifies amplitudes
      ensures forall i :: 0 <= i < n ==> amplitudes[i] == laterBuf[laterPos, i] * wet + ampsIn[i] * (1.0 - wet)
    {
      MixOut(Row(laterBuf, laterPos), ampsIn, wet);
    }

    /** The output: the wet share of the later line's current vector plus the dry share of the input. */
    method MixOut(out: seq<real>, ampsIn: seq<real>, wet: real)
      requires Valid() && |out| == n && |ampsIn| == n
      modifies amplitudes
      ensures forall i :: 0 <= i < n ==> amplitudes[i] == out[i] * wet + ampsIn[i] * (1.0 - wet)
    {
      var i := 0;
      while i < n
        invariant 0 <= i <= n
        invariant forall j :: 0 <= j < i ==> amplitudes[j] == out[j] * wet + ampsIn[j] * (1.0 - wet)
      {
        amplitudes[i] := out[i] * wet + ampsIn[i] * (1.0 - wet);
        i := i + 1;
      }
    }
  }

  /** Row `r` of `buf` as a vector. */
  function Row(buf: array2<real>, r: int): (v: seq<real>)
    requires 0 <= r < buf.Length0
    reads buf
    ensures |v| == buf.Length1
    ensures forall i :: 0 <= i < buf.Length1 ==> v[i] == buf[r, i]
  {
    seq(buf.Length1, i requires 0 <= i < buf.Length1 reads buf => buf[r, i])
  }

  /** Copies `v` into row `row` of `buf`; every other row is untouched. */
  method LoadRow(buf: array2<real>, row: int, v: seq<real>)
    requires 0 <= row < buf.Length0 && |v| == buf.Length1
    modifies buf
    ensures forall r, i :: 0 <= r < buf.Length0 && 0 <= i < buf.Length1 ==>
      buf[r, i] == if r == row then v[i] else old(buf[r, i])
  {
    var i := 0;
    while i < buf.Length1
      invariant 0 <= i <= buf.Length1
      invariant forall r, j :: 0 <= r < buf.Length0 && 0 <= j < buf.Length1 ==>
        buf[r, j] == if r == row && j < i then v[j] else old(buf[r, j])
    {
      buf[row, i] := v[i];
      i := i + 1;
    }
  }

  /** Row `row` of `buf` becomes `src * cut + itself * keep`, element-wise; every other row is untouched. */
  method MixRow(buf: array2<real>, row: int, src: seq<real>, cut: real, keep: real)
    requires 0 <= row < buf.Length0 && |src| == buf.Length1
    modifies buf
    ensures forall r, i :: 0 <= r < buf.Length0 && 0 <= i < buf.Length1 ==>
      buf[r, i] == if r == row then src[i] * cut + old(buf[r, i]) * keep else old(buf[r, i])
  {
    var i := 0;
    while i < buf.Length1
      invariant 0 <= i <= buf.Length1
      invariant forall r, j :: 0 <= r < buf.Length0 && 0 <= j < buf.Length1 ==>
        buf[r, j] == if r == row && j < i then src[j] * cut + old(buf[r, j]) * keep else old(buf[r, j])
    {
      buf[row, i] := src[i] * cut + buf[row, i] * keep;
      i := i + 1;
    }
  }

  /** Sets every cell of `buf` to zero, row by row. */
  method Zero(buf: array2<real>)
    modifies buf
    ensures forall r, i :: 0 <= r < buf.Length0 && 0 <= i < buf.Length1 ==> buf[r, i] == 0.0
  {
    var r := 0;
    while r < buf.Length0
      invariant 0 <= r <= buf.Length0
      invariant forall r', i :: 0 <= r' < r && 0 <= i < buf.Length1 ==> buf[r', i] == 0.0
    {
      var i := 0;
      while i < buf.Length1
        invariant 0 <= i <= buf.Length1
        invariant forall r', i' :: 0 <= r' < r && 0 <= i' < buf.Length1 ==> buf[r', i'] == 0.0
        invariant forall i' :: 0 <= i' < i ==> buf[r, i'] == 0.0
      {
        buf[r, i] := 0.0;
        i := i + 1;
      }
      r := r + 1;
    }
  }
}
