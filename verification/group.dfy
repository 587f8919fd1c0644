/** A patch group: the MIDI channel, note range, voice request, name and gain shared by its Sounds. */
module Patch {
  import opened Base

  const DEFAULT_GAIN: real := 1.0
  /** The MIDI 1.0 note-number range is 0 ..= MAX_NOTE. */
  const MAX_NOTE: int := 127

  class Group {
    /** The "no channel" code and the number of MIDI channels, both defined by the MIDI input. */
    const channelNone: int
    const numMidiChannels: int

    var channel: int
    var minNote: int
    var maxNote: int
    var numRequestedSounds: int
    /** None stands for Java's null (the name before any setPatchName). */
    var patchName: Option<string>
    var gain: real

    ghost predicate Valid()
      reads this
    {
      && 0 <= minNote <= maxNote <= MAX_NOTE
      && numRequestedSounds >= 0
      && gain >= 0.0
    }

    constructor (channelNone: int, numMidiChannels: int)
      ensures Valid()
      ensures this.channelNone == channelNone && this.numMidiChannels == numMidiChannels
      ensures channel == channelNone && minNote == 0 && maxNote == MAX_NOTE
      ensures numRequestedSounds == 0 && patchName == None && gain == DEFAULT_GAIN
    {
      this.channelNone := channelNone;
      this.numMidiChannels := numMidiChannels;
      channel := channelNone;
      minNote := 0;
      maxNote := MAX_NOTE;
      numRequestedSounds := 0;
      patchName := None;
      gain := DEFAULT_GAIN;
    }

    /** Keeps `c` when it names "no channel" or a real channel; anything else becomes "no channel". */
    method SetChannel(c: int)
      modifies this`channel
      ensures channelNone <= c < numMidiChannels ==> channel == c
      ensures !(channelNone <= c < numMidiChannels) ==> channel == channelNone
    {
      var v := c;
      if v < channelNone {
        v := channelNone;
      } else if v >= numMidiChannels {
        v := channelNone;
      }
      channel := v;
    }

    /** Clamps `n` into the MIDI range, then lowers it to the maximum note if it would pass it. */
    method SetMinNote(n: int)
      requires Valid()
      modifies this`minNote
      ensures Valid()
      ensures minNote == Min(Clamp(n, 0, MAX_NOTE), maxNote)
      ensures 0 <= n <= maxNote ==> minNote == n
      ensures n > maxNote ==> minNote == maxNote
    {
      minNote := n;
      if minNote > MAX_NOTE { minNote := MAX_NOTE; }
      if minNote < 0 { minNote := 0; }
      if minNote > maxNote {
        minNote := maxNote;
      }
    }

    /** Clamps `n` into the MIDI range, then raises it to the minimum note if it would fall below it. */
    method SetMaxNote(n: int)
      requires Valid()
      modifies this`maxNote
      ensures Valid()
      ensures maxNote == Max(Clamp(n, 0, MAX_NOTE), minNote)
      ensures minNote <= n <= MAX_NOTE ==> maxNote == n
      ensures n < minNote ==> maxNote == minNote
    {
      maxNote := n;
      if maxNote > MAX_NOTE { maxNote := MAX_NOTE; }
      if maxNote < 0 { maxNote := 0; }
      if minNote > maxNote {
        maxNote := minNote;
      }
    }

    /** Whether the group's Sounds respond to `note`; in a valid group, only MIDI notes do. */
    predicate IsNoteInRange(note: int): (r: bool)
      reads this
      ensures Valid() && r ==> 0 <= note <= MAX_NOTE
      ensures Valid() && (note == minNote || note == maxNote) ==> r
    {
      note >= minNote && note <= maxNote
    }

    method SetNumRequestedSounds(n: int)
      requires Valid()
      modifies this`numRequestedSounds
      ensures Valid()
      ensures numRequestedSounds == Max(n, 0)
    {
      var v := n;
      if v < 0 { v := 0; }
      numRequestedSounds := v;
    }

    method SetGain(g: real)
      requires Valid()
      modifies this`gain
      ensures Valid()
      ensures g >= 0.0 ==> gain == g
      ensures g < 0.0 ==> gain == 0.0
    {
      var v := g;
      if v < 0.0 { v := 0.0; }
      gain := v;
    }

    /** Stores the name; a null name (None) is stored as the empty string. */
    method SetPatchName(p: Option<string>)
      modifies this`patchName
      ensures p.Some? ==> patchName == p
      ensures p.None? ==> patchName == Some("")
    {
      var v := p;
      if v.None? {
        v := Some("");
      }
      patchName := v;
    }
  }

  /** Setting the minimum then the maximum to a legal pair (lo <= hi) yields exactly that range. */
  method SetRange(g: Group, lo: int, hi: int)
    requires g.Valid()
    requires 0 <= lo <= hi <= MAX_NOTE
    modifies g
    ensures g.Valid()
    ensures forall x :: g.IsNoteInRange(x) <==> lo <= x <= hi
  {
    g.SetMaxNote(MAX_NOTE);
    g.SetMinNote(lo);
    g.SetMaxNote(hi);
  }
}
