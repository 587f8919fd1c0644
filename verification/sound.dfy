/** A voice: its ordered registry of modules, its pitch state and its control-change bytes. */
module Voice {
  import opened Base

  /** A Modulation or Unit registered with a Sound. Only its identity matters here. */
  class Modulation {
    constructor () {}
  }

  /** The lifecycle hooks a Sound forwards to its modules. */
  datatype Hook = OnGo | OnGate | OnRelease | OnReset | OnRestart

  /** One call of `hook` on `target`. */
  datatype HookCall = HookCall(hook: Hook, target: Modulation)

  const NOT_FOUND: int := -1
  const DEFAULT_NOTE: real := 220.0
  const DEFAULT_BEND: real := 1.0
  const DEFAULT_VELOCITY: real := 1.0
  const DEFAULT_RELEASE_VELOCITY: real := 0.5
  const NUM_CC: int := 128

  /** The calls made by forwarding `h` over `elems`: one per element, in registration order. */
  function Forwarded(h: Hook, elems: seq<Modulation>): seq<HookCall>
  {
    if elems == [] then [] else [HookCall(h, elems[0])] + Forwarded(h, elems[1..])
  }

  /** Forwarding makes exactly one call per module: the i-th call is hook h on the i-th module. */
  lemma {:induction false} ForwardedCalls(h: Hook, elems: seq<Modulation>)
    ensures |Forwarded(h, elems)| == |elems|
    ensures forall i :: 0 <= i < |elems| ==> Forwarded(h, elems)[i] == HookCall(h, elems[i])
  {
    if elems != [] {
      ForwardedCalls(h, elems[1..]);
    }
  }

  /** Forwarding over a registry split in two is forwarding over each part in turn. */
  lemma {:induction false} ForwardedAppend(h: Hook, a: seq<Modulation>, b: seq<Modulation>)
    ensures Forwarded(h, a + b) == Forwarded(h, a) + Forwarded(h, b)
  {
    if a == [] {
      assert a + b == b;
    } else {
      assert (a + b)[1..] == a[1..] + b;
      ForwardedAppend(h, a[1..], b);
    }
  }

  /** Forwarding over one more module ends with the call on that module. */
  lemma ForwardedSnoc(h: Hook, a: seq<Modulation>, e: Modulation)
    ensures Forwarded(h, a + [e]) == Forwarded(h, a) + [HookCall(h, e)]
  {
    ForwardedAppend(h, a, [e]);
    assert Forwarded(h, [e]) == [HookCall(h, e)];
  }

  class Sound {
    /** The registered modules, in registration order. */
    var elements: seq<Modulation>
    /** This Sound's position in the Output's voice table. */
    var index: int
    var note: real
    var bend: real
    var pitch: real
    var velocity: real
    var releaseVelocity: real
    var aftertouch: real
    /** Control-change values, stored as Java bytes. */
    const cc: array<int>
    /** Every hook call this Sound has made on its modules, oldest first. */
    ghost var trace: seq<HookCall>

    ghost predicate Valid()
      reads this, cc
    {
      && cc.Length == NUM_CC
      && pitch == note * bend
      && forall i :: 0 <= i < cc.Length ==> -128 <= cc[i] <= 127
    }

    constructor ()
      ensures Valid() && fresh(cc)
      ensures elements == [] && trace == []
      ensures note == DEFAULT_NOTE && bend == DEFAULT_BEND && pitch == DEFAULT_NOTE * DEFAULT_BEND
      ensures velocity == DEFAULT_VELOCITY && releaseVelocity == DEFAULT_RELEASE_VELOCITY
      ensures forall i :: 0 <= i < NUM_CC ==> cc[i] == 0
    {
      elements := [];
      index := 0;
      note := DEFAULT_NOTE;
      bend := DEFAULT_BEND;
      pitch := DEFAULT_NOTE * DEFAULT_BEND;
      velocity := DEFAULT_VELOCITY;
      releaseVelocity := DEFAULT_RELEASE_VELOCITY;
      aftertouch := 0.0;
      cc := new int[NUM_CC](_ => 0);
      trace := [];
    }

    /** Appends `m` to the registry. */
    method Register(m: Modulation)
      modifies this`elements
      ensures elements == old(elements) + [m]
      ensures |elements| == |old(elements)| + 1 && elements[|elements| - 1] == m
    {
      elements := elements + [m];
    }

    /** The module at position `i`; Java's list access throws for any other `i`. */
    function GetRegistered(i: int): (r: Option<Modulation>)
      reads this
      ensures r.Some? <==> 0 <= i < |elements|
      ensures r.Some? ==> r.value == elements[i]
    {
      if 0 <= i < |elements| then Some(elements[i]) else None
    }

    /** Inserts `m` at position `i`, shifting later modules right; fails unless 0 <= i <= size. */
    method AddRegistered(i: int, m: Modulation) returns (ok: bool)
      modifies this`elements
      ensures ok <==> 0 <= i <= |old(elements)|
      ensures ok ==> elements == old(elements)[..i] + [m] + old(elements)[i..]
      ensures !ok ==> elements == old(elements)
    {
      ok := 0 <= i <= |elements|;
      if ok {
        elements := elements[..i] + [m] + elements[i..];
      }
    }

    /** Removes and returns the module at `i`, shifting later modules left; fails unless i < size. */
    method RemoveRegistered(i: int) returns (r: Option<Modulation>)
      modifies this`elements
      ensures r.Some? <==> 0 <= i < |old(elements)|
      ensures r.Some? ==> r.value == old(elements)[i] && elements == old(elements)[..i] + old(elements)[i + 1..]
      ensures r.None? ==> elements == old(elements)
    {
      if 0 <= i < |elements| {
        r := Some(elements[i]);
        elements := elements[..i] + elements[i + 1..];
      } else {
        r := None;
      }
    }

    /** The first position holding `m` (by reference), or NOT_FOUND. */
    method FindRegistered(m: Modulation) returns (r: int)
      ensures r == NOT_FOUND <==> m !in elements
      ensures r != NOT_FOUND ==> 0 <= r < |elements| && elements[r] == m && m !in elements[..r]
    {
      var i := 0;
      while i < |elements|
        invariant 0 <= i <= |elements|
        invariant m !in elements[..i]
      {
        if elements[i] == m {
          return i;
        }
        i := i + 1;
      }
      assert elements[..i] == elements;
      return NOT_FOUND;
    }

    method SetBend(b: real)
      requires Valid()
      modifies this`bend, this`pitch
      ensures Valid()
      ensures bend == b && pitch == note * b
    {
      bend := b;
      pitch := note * b;
    }

    method SetNote(nt: real)
      requires Valid()
      modifies this`note, this`pitch
      ensures Valid()
      ensures note == nt && pitch == nt * bend
    {
      note := nt;
      pitch := nt * bend;
    }

    /** Stores `val` narrowed to a signed byte; the array store throws unless 0 <= num < 128. */
    method SetCC(num: int, val: int) returns (ok: bool)
      requires Valid()
      modifies cc
      ensures Valid()
      ensures ok <==> 0 <= num < NUM_CC
      ensures ok ==> GetCC(num) == Some(ToByte(val))
      ensures forall k :: 0 <= k < NUM_CC && k != num ==> cc[k] == old(cc[k])
    {
      ok := 0 <= num < cc.Length;
      if ok {
        cc[num] := ToByte(val);
      }
    }

    /** The stored value of controller `num`, a signed byte; Java throws for num outside the table. */
    function GetCC(num: int): (r: Option<int>)
      requires Valid()
      reads this, cc
      ensures r.Some? <==> 0 <= num < NUM_CC
      ensures r.Some? ==> -128 <= r.value <= 127
    {
      if 0 <= num < cc.Length then Some(cc[num]) else None
    }

    /** Calls hook `h` on every registered module exactly once, in registration order. */
    method Forward(h: Hook)
      modifies this`trace
      ensures trace == old(trace) + Forwarded(h, elements)
    {
      var len := |elements|;
      var i := 0;
      while i < len
        invariant 0 <= i <= len
        invariant trace == old(trace) + Forwarded(h, elements[..i])
      {
        var e := elements[i];
        ForwardedSnoc(h, elements[..i], e);
        assert elements[..i + 1] == elements[..i] + [e];
        trace := trace + [HookCall(h, e)];
        i := i + 1;
      }
      assert elements[..len] == elements;
    }

    method Go()
      modifies this`trace
      ensures trace == old(trace) + Forwarded(OnGo, elements)
    {
      Forward(OnGo);
    }

    method Gate()
      modifies this`trace
      ensures trace == old(trace) + Forwarded(OnGate, elements)
    {
      Forward(OnGate);
    }

    method Release()
      modifies this`trace
      ensures trace == old(trace) + Forwarded(OnRelease, elements)
    {
      Forward(OnRelease);
    }

    method Reset()
      modifies this`trace
      ensures trace == old(trace) + Forwarded(OnReset, elements)
    {
      Forward(OnReset);
    }

    method Restart()
      modifies this`trace
      ensures trace == old(trace) + Forwarded(OnRestart, elements)
    {
      Forward(OnRestart);
    }
  }
}
