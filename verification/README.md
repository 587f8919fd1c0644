# flow: a verified model of the synthesizer engine and its modules

`flow` is a modular additive synthesizer. Every voice (a `Sound`) holds an ordered registry of
modules. At each control tick those modules turn arrays of partials (amplitude, frequency
relative to the pitch, and order) into new arrays.

The engine (`Output`) handles the voices end to end:
- it registers the voices;
- it evaluates them each tick, inline or in worker groups;
- it publishes each voice's final partials into one side of a double buffer;
- its output side swaps the buffers and renders the other side as additive sine synthesis, 32
  samples per swap, into a 16-bit little-endian audio buffer.

This project models that engine and the modules it names:
- the voice container;
- the patch group;
- the Delay, AmpMath, AHR, VCA, FlangeFilter, Tinkle and Noise modules.

The model follows the program's own structure, one module per Java file:

| module | Java file |
|---|---|
| `Engine` | `Output.java` |
| `Voice` | `Sound.java` |
| `Patch` | `Group.java` |
| `DelayUnit` | `Delay.java` |
| `AmpMathUnit` | `AmpMath.java` |
| `AhrEnvelope` | `AHR.java` |
| `VcaUnit` | `VCA.java` |
| `FlangeUnit` | `FlangeFilter.java` |
| `TinkleUnit` | `Tinkle.java` |
| `NoiseUnit` | `Noise.java` |

`Base` collects the Java numeric conversions:
- the `(int)` cast (`Trunc`);
- `%` on doubles (`FMod`);
- 32-bit `int` wrap-around (`Wrap32`);
- the `(byte)` narrowing (`ToByte`);
- clamping.

Objects whose fields the source updates become classes with `modifies` frames. The per-slot
formulas become functions, and the loops that write arrays become methods with loop
invariants, proved against those functions. Doubles are modelled as `real`.

The following become parameters:
- values supplied by unseen base-class helpers (`modulate`, `makeSensitive`, `modToFrequency`,
  `getSyncTick`, `toTicks`, `getConstrainedPartials`, `Unit.NUM_PARTIALS` as `n`);
- random draws;
- the logarithm;
- the sine.

Hook calls and voice evaluations are recorded in ghost logs (`Voice.Sound.trace`,
`Engine.Output.voiceSteps`), so "each module once, in order" is a statement about a sequence.

## Model

| member | source | states |
|---|---|---|
| Base.Trunc | flow/Output.java:644 | Java's `(int)` cast rounds toward zero: the result is the integer next to x on the side of 0 |
| Base.FMod | flow/modules/FlangeFilter.java:131 | Java's double `%` for a positive divisor: the remainder has the dividend's sign, is smaller than the divisor in size, and differs from the dividend by a whole number of divisors |
| Base.Wrap32 | flow/Output.java:455 | Java int arithmetic: the result lies in the 32-bit range and equals the mathematical value when that fits |
| Base.Wrap32Congruent | flow/Output.java:455 | the wrapped value differs from the mathematical one by a multiple of 2^32 |
| Base.ToByte | flow/Sound.java:144 | the `(byte)` narrowing lies in [-128, 127] and is the identity on that range |
| Base.ToByteCongruent | flow/Sound.java:144 | the narrowed value differs from the original by a multiple of 256 |
| Base.Clamp | flow/Group.java:52-59 | the clamped value lies in [lo, hi], is n when n is inside, lo below and hi above |
| Base.Range | flow/Output.java:827-830 | the indices lo .. hi-1 in increasing order |
| Engine.ClampSample | flow/Output.java:623-632 | the scaled sample is forced into [-32768, 32767]; the clip flag is set exactly when the value was outside; an in-range value is unchanged |
| Engine.LowByte | flow/Output.java:646 | `(byte)(val & 255)` is a signed byte |
| Engine.HighByte | flow/Output.java:645 | `(byte)((val >> 8) & 255)` is a signed byte |
| Engine.EncodeDecode | flow/Output.java:644-646 | every 16-bit value is recovered from its two little-endian bytes read back as a signed 16-bit number |
| Engine.Emitted | flow/Output.java:622-644 | the emitted value lies in the 16-bit range, is the scaled sample truncated toward zero when it does not clip, and is the bound it crosses when it does |
| Engine.EncodedExtend | flow/Output.java:645-646 | writing the next sample's two bytes behind an encoded prefix extends the encoding by that sample |
| Engine.ClipsIn | flow/Output.java:623-632 | a block is reported as clipped exactly when one of its samples clips |
| Engine.Smooth | flow/Output.java:531-535 | the smoothed amplitude snaps to exactly 0 when the current value and alpha times the target are both at most 1e-100; otherwise it lies between the current value and the target; it is non-negative for non-negative inputs |
| Engine.SmoothClosesGap | flow/Output.java:532 | each smoothing step leaves 95% of the gap to the target |
| Engine.PhaseStep | flow/Output.java:550 | the phase step is positive for a positive absolute frequency |
| Engine.WrapPhase | flow/Output.java:551-559 | the wrapped phase lies in [0, 2 pi) and is unchanged when already below 2 pi |
| Engine.WrapPhaseWholeTurns | flow/Output.java:551-559 | the wrapped phase differs from the advanced phase by a whole number of turns, so it is the advanced phase modulo 2 pi |
| Engine.SlotStep | flow/Output.java:521-572 | visiting a slot smooths its ordered entry and keeps every phase in [0, 2 pi) |
| Engine.VoiceRun | flow/Output.java:521-573 | rendering any prefix of a voice's slots keeps the phases in [0, 2 pi) |
| Engine.BreakIsFinal | flow/Output.java:543-546 | after the Nyquist break no later slot is smoothed or advanced in that sample |
| Engine.VoiceRunNonnegative | flow/Output.java:531-535 | with non-negative targets the smoothed amplitudes stay non-negative |
| Engine.SoloWindow | flow/Output.java:491-507 | without solo every voice is summed; with solo exactly one voice is summed, voice 0 when no sound was played |
| Engine.SoloSum | flow/Output.java:571 | a one-voice window sums exactly that voice's contribution |
| Engine.SilentOutside | flow/Output.java:571 | voices outside the window add nothing |
| Engine.ScheduleAsWrittenCovers | flow/Output.java:825-853 | as written, go() evaluates voices 0 .. numSounds-1 inline, or, when fanning out, only voices below (numSounds / nvpt) * nvpt, each once and in order |
| Engine.ScheduleSkipsVoice | flow/Output.java:835 | as written, with 3 sounds and 2 voices per thread, voice 2 is never evaluated |
| Engine.WorkerRunsShare | flow/Output.java:700-709 | as written, a worker whose share lies inside the registered voices runs exactly its share, in order |
| Engine.WorkersRunPrefix | flow/Output.java:846-853 | as written, workers 0 .. k-1 with full shares run voices 0 .. k*nvpt-1 in order |
| Engine.NumThreads | flow/Output.java:835 | the corrected worker count, rounded up, is the least k with numSounds <= k * nvpt |
| Engine.WorkerIntendedRunsShare | flow/Output.java:700-709 | a corrected worker runs its share up to the last registered voice |
| Engine.WorkersIntendedRunPrefix | flow/Output.java:846-853 | corrected workers 0 .. k-1 run the voices below min(k*nvpt, numSounds) in order |
| Engine.ScheduleCoversAll | flow/Output.java:825-853 | with the correction, every registered voice is evaluated exactly once, in index order |
| Engine.ScheduleGoes | flow/Output.java:825-853 | following the corrected schedule evaluates voices 0 .. numSounds-1 one after the other |
| Engine.GoRangeAppend | flow/Output.java:846-853 | the evaluations of consecutive voice ranges concatenate |
| Engine.GoRangeIsGoes | flow/Output.java:827-830 | evaluating a range one voice after the other is evaluating its indices in order |
| Engine.WorkerStep | flow/Output.java:835-853 | when the corrected worker count is k, every worker w < k starts inside the registered voices and its share ends at min((w+1)*nvpt, numSounds) |
| Engine.Inc32Wraps | flow/Output.java:647 | `tick++` on a Java int is the addition of one, wrapped into 32 bits |
| Engine.TickedWraps | flow/Output.java:619-647 | k increments of the tick are one addition of k, wrapped once into 32 bits |
| Engine.Row | flow/Output.java:511-515 | a voice's row holds that row's entries |
| Engine.Input | flow/Output.java:511-518 | a voice's input from a buffer has n partials whose orders name slots 0 .. n-1 |
| Engine.EmptyTable | flow/Output.java:127 | the voice table starts with every slot empty |
| Engine.ZeroMatrix | flow/Output.java:603 | the phase and smoothed amplitude matrices start at zero |
| Engine.ZeroBuffer | flow/Output.java:108 | the audio buffer holds 2 * SKIP zero bytes |
| Engine.Swap.constructor | flow/Output.java:428-438 | a new buffer has count 1, reads 1, gain 1, and arrays sized numVoices by n |
| Engine.Swap.Store | flow/Output.java:885-896 | row i receives the emitter's amplitudes, frequencies and orders, or zeros with orders 0 .. n-1 when there is no emitter; other rows are unchanged |
| Engine.Output.constructor | flow/Output.java:114-145 | a new engine has no sounds, tick 0, the clip and ready flags clear, voices not started, and two fresh buffers whose count and reads are 1 |
| Engine.Output.CheckAndSwap | flow/Output.java:452-469 | with the flag set the buffers exchange references, the new filling buffer counts a read and the flag clears; with it clear nothing but the wait counter changes; the tick counter always advances |
| Engine.Output.Register | flow/Output.java:324-331 | the sound receives the old count as its index and is stored there; the count grows by one; other slots are unchanged |
| Engine.Output.GetSound | flow/Output.java:334-340 | the sound at index i, and an error for an index outside the table |
| Engine.Output.GetNumSounds | flow/Output.java:352-358 | every index below the count names a registered sound |
| Engine.Output.SyncTick | flow/Output.java:243-252 | after the synchronisation the reported tick is the current tick |
| Engine.Output.GetAndResetClipped | flow/Output.java:582 | returns the clip flag and clears it |
| Engine.Output.RunVoices | flow/Output.java:811-854 | corrected schedule: the tick is synchronised; unless started, every voice is reset first; then every registered voice is evaluated exactly once in index order (the code as written skips voices, see Findings) |
| Engine.Output.MarkStarted | flow/Output.java:831 | the voices are marked as started |
| Engine.Output.RunInline | flow/Output.java:825-832 | the inline case evaluates voices 0 .. numSounds-1 in order |
| Engine.Output.ResetVoices | flow/Output.java:819-823 | every registered voice is reset, in index order |
| Engine.Output.RunWorkers | flow/Output.java:835-853 | corrected schedule (worker count rounded up): the workers together evaluate voices 0 .. numSounds-1 in order |
| Engine.Output.RunWorker | flow/Output.java:700-709 | corrected guard (`>=`): worker w evaluates its consecutive share, stopping at the first unregistered index |
| Engine.Output.PublishVoice | flow/Output.java:884-899 | voice i's frame, pitch and velocity are copied into the filling buffer; other voices are unchanged |
| Engine.Output.PublishVoices | flow/Output.java:882-900 | every registered voice is published; rows above the count are unchanged |
| Engine.Output.Publish | flow/Output.java:873-908 | with a registered sound: the gain is voice 0's output gain or 1, every voice is published, count grows by one and the flag is raised; with none, reading voice 0 fails and nothing changes |
| Engine.Output.RenderVoice | flow/Output.java:511-573 | a voice's new smoothed amplitudes, phases and contribution are VoiceRun's over all its slots; no other voice changes |
| Engine.Output.BuildSample | flow/Output.java:484-576 | every registered voice is rendered, and the sample is the sum of the contributions in the solo window |
| Engine.Output.RenderVoices | flow/Output.java:509-575 | the voice loop renders voices in order, sums the window, and keeps every phase in [0, 2 pi) |
| Engine.Output.RenderNext | flow/Output.java:509-574 | one voice is rendered and its contribution appended and summed when inside the window |
| Engine.Output.RenderBlock | flow/Output.java:617-659 | after the swap, 32 samples are built and encoded in the audio buffer; clipped records any clip; the tick advances 32 times with wrap-around |
| Engine.Output.EmitBlock | flow/Output.java:619-659 | the sample loop encodes each built sample at its position, in order |
| Engine.Output.EmitNext | flow/Output.java:622-647 | one sample is built and its encoding appended |
| Engine.Output.EmitSample | flow/Output.java:622-647 | the sample is clamped, truncated and written low byte first at 2k and high byte at 2k+1; other bytes are unchanged; clipped additionally records whether it clips; the tick advances by one with wrap-around |
| Engine.Output.RenderSlots | flow/Output.java:521-573 | the slot loop, with the Nyquist break as a second exit, leaves VoiceRun's state over all slots |
| Engine.Output.VisitSlot | flow/Output.java:523-572 | visiting slot i advances the state to VoiceRun over i + 1 slots |
| Engine.Output.RenderSlot | flow/Output.java:531-572 | one slot's update matches SlotStep: smooth, then stop, skip or sound |
| Engine.Output.SmoothSlot | flow/Output.java:531-535 | the ordered entry becomes its smoothed value; other voices are unchanged |
| Engine.Output.AdvancePhase | flow/Output.java:550-559 | the phase becomes its wrapped advance; other voices are unchanged |
| Voice.ForwardedCalls | flow/Sound.java:161-169 | forwarding a hook makes one call per module, the i-th on the i-th module |
| Voice.ForwardedAppend | flow/Sound.java:161-169 | forwarding over a split registry is forwarding over each part in turn |
| Voice.ForwardedSnoc | flow/Sound.java:161-169 | forwarding over one more module ends with the call on that module |
| Voice.Sound.constructor | flow/Sound.java:42-61 | a new sound has no modules, note 220, bend 1, pitch note * bend, default velocities and all controllers 0 |
| Voice.Sound.Register | flow/Sound.java:88 | the module is appended; earlier positions are unchanged |
| Voice.Sound.GetRegistered | flow/Sound.java:95 | the module at position i, and an error for any other i |
| Voice.Sound.AddRegistered | flow/Sound.java:104 | the module is inserted at i and later modules shift right; an index outside 0 .. size fails |
| Voice.Sound.RemoveRegistered | flow/Sound.java:101 | the module at i is returned and later modules shift left; an index outside the list fails |
| Voice.Sound.FindRegistered | flow/Sound.java:107-116 | the smallest position holding the module (by reference), or -1 when absent |
| Voice.Sound.SetBend | flow/Sound.java:119 | stores the bend and keeps pitch == note * bend |
| Voice.Sound.SetNote | flow/Sound.java:139 | stores the note and keeps pitch == note * bend |
| Voice.Sound.SetCC | flow/Sound.java:144 | reading the controller back gives the value narrowed to a signed byte; other controllers are unchanged; an index outside the table fails |
| Voice.Sound.GetCC | flow/Sound.java:146 | a stored controller value is a signed byte; an index outside the table fails |
| Voice.Sound.Forward | flow/Sound.java:161-203 | the hook is called on every registered module exactly once, in registration order |
| Voice.Sound.Go | flow/Sound.java:162-169 | go() is forwarded to every module once, in order |
| Voice.Sound.Gate | flow/Sound.java:173-178 | gate() is forwarded to every module once, in order |
| Voice.Sound.Release | flow/Sound.java:182-187 | release() is forwarded to every module once, in order |
| Voice.Sound.Reset | flow/Sound.java:190-195 | reset() is forwarded to every module once, in order |
| Voice.Sound.Restart | flow/Sound.java:198-203 | restart() is forwarded to every module once, in order |
| Patch.Group.constructor | flow/Group.java:15-24 | a new group has no channel, the full note range 0 .. 127, no requested sounds, no name and gain 1 |
| Patch.Group.SetChannel | flow/Group.java:36-43 | a channel from "none" up to the last MIDI channel is kept; anything else becomes "none" |
| Patch.Group.SetMinNote | flow/Group.java:52-59 | the minimum becomes min(clamp(n, 0, 127), maxNote), keeping 0 <= minNote <= maxNote <= 127 |
| Patch.Group.SetMaxNote | flow/Group.java:68-75 | the maximum becomes max(clamp(n, 0, 127), minNote), keeping 0 <= minNote <= maxNote <= 127 |
| Patch.Group.IsNoteInRange | flow/Group.java:78 | only MIDI notes are in range, and both ends of the range are |
| Patch.SetRange | flow/Group.java:52-78 | setting a legal minimum then maximum makes isNoteInRange(x) hold exactly for lo <= x <= hi |
| Patch.Group.SetNumRequestedSounds | flow/Group.java:84 | a negative request becomes 0, so the field is never negative |
| Patch.Group.SetGain | flow/Group.java:112 | a negative gain becomes 0; a non-negative one is stored |
| Patch.Group.SetPatchName | flow/Group.java:101-106 | a null name is stored as the empty string; any other name unchanged |
| DelayUnit.DelayLength | flow/modules/Delay.java:66-71 | a non-negative sensitivity gives a delay in [1, 2756], the scaled value rounded up (or the maximum) |
| DelayUnit.LoadSlot | flow/modules/Delay.java:78-84 | the slot written is the one just behind the position, wrapping to the line's last slot; one step from it is the position |
| DelayUnit.Advance | flow/modules/Delay.java:100-110 | the next position is (pos + 1) mod length, so it stays below the current length |
| DelayUnit.AdvanceN | flow/modules/Delay.java:100-110 | after at least one tick the position lies below the length |
| DelayUnit.AdvanceNIsRotation | flow/modules/Delay.java:100-104 | while the length is unchanged, k ticks move the position k slots around the ring |
| DelayUnit.LoadedSlotIsReadAfter | flow/modules/Delay.java:77-98 | the vector written this tick is the one read length - 1 ticks later |
| DelayUnit.Delay.constructor | flow/modules/Delay.java:23-39 | both lines have 2756 rows of n partials, every cell and every output starts at zero, and their positions start at 0 |
| DelayUnit.Delay.Reset | flow/modules/Delay.java:42-56 | every cell of both lines is zero; the positions are unchanged |
| DelayUnit.Delay.Go | flow/modules/Delay.java:58-113 | the input is loaded into the initial line behind its position; the later line's slot behind its position mixes in the initial line's current vector; the output is wet later plus dry input; both positions advance |
| DelayUnit.Delay.Feed | flow/modules/Delay.java:77-91 | the two line writes of one tick, every other row unchanged |
| DelayUnit.Delay.RollOut | flow/modules/Delay.java:93-98 | the output is the later line's current vector times wet plus the input times 1 - wet |
| DelayUnit.Delay.MixOut | flow/modules/Delay.java:93-98 | the element-wise wet/dry mix |
| DelayUnit.Row | flow/modules/Delay.java:80-88 | a line's row as a vector |
| DelayUnit.LoadRow | flow/modules/Delay.java:80 | one row receives the vector; every other row is unchanged |
| DelayUnit.MixRow | flow/modules/Delay.java:86-91 | one row becomes src * cut + itself * keep element-wise; every other row is unchanged |
| DelayUnit.Zero | flow/modules/Delay.java:44-55 | every cell becomes zero |
| AmpMathUnit.Formula | flow/modules/AmpMath.java:119-233 | SUBTRACT is never negative, MIN/MAX pick the smaller/larger input, FILTER/FILTERNOT give A or 0, FILL gives A above mod else B, THRESHOLD is 1 exactly when A >= mod |
| AmpMathUnit.MeanBetween | flow/modules/AmpMath.java:161-167 | MEAN with mod in [0, 1] lies between A and B |
| AmpMathUnit.Outcome | flow/modules/AmpMath.java:154-168 | as written, the last case loop the switch runs decides a slot; since COMPRESS has no `break`, its net result is MEAN's mod * A + (1 - mod) * B, while every other case keeps its own formula |
| AmpMathUnit.CasesRun | flow/modules/AmpMath.java:119-233 | the switch runs the operation's own case loop first, and every loop it runs is one of the written cases |
| AmpMathUnit.AmpMath.GoAsWritten | flow/modules/AmpMath.java:119-233 | as written: the operation's loop runs, then the next case's loop while the case just run has no `break`; every slot ends with Outcome's value |
| AmpMathUnit.CompressFallsThrough | flow/modules/AmpMath.java:154-168 | as written, COMPRESS of A = 1, B = 0, mod = 0 gives 0 where the documented formula gives 1 |
| AmpMathUnit.IntendedCompressBounds | flow/modules/AmpMath.java:154-160 | corrected COMPRESS keeps amplitudes in [0, 1] and is at least as loud as either input |
| AmpMathUnit.FilterSplitsInput | flow/modules/AmpMath.java:185-200 | FILTER and FILTERNOT split A: their sum is A and one of them is 0 |
| AmpMathUnit.AmpMath.constructor | flow/modules/AmpMath.java:96-104 | a new unit uses ADD without normalisation |
| AmpMathUnit.AmpMath.GetOptionValue | flow/modules/AmpMath.java:75-83 | the operation, or the normalise flag as 0/1; any other option is an error |
| AmpMathUnit.AmpMath.SetOptionValue | flow/modules/AmpMath.java:85-93 | reading an option back gives the stored value (a flag as 0/1); other options are unchanged; any other option index fails |
| AmpMathUnit.AmpMath.Go | flow/modules/AmpMath.java:106-239 | corrected (every case closed by its `break`): every slot receives Formula's value for the operation on A and B; an operation without a case leaves the outputs unchanged |
| AmpMathUnit.AmpMath.Apply | flow/modules/AmpMath.java:119-233 | the loop of one case writes its formula into every slot |
| AhrEnvelope.Settle | flow/modules/AHR.java:235-250 | the transitions at a tick only move forward, end in DONE or in a stage that has not run out, never start after the tick, and leave DONE untouched |
| AhrEnvelope.Shape | flow/modules/AHR.java:268-305 | every curve keeps [0, 1] within [0, 1] and maps 1 to 1; all but JUMP map 0 to 0 and negative progress to a negative value; JUMP always gives 1 |
| AhrEnvelope.Sample | flow/modules/AHR.java:253-307 | the output is DONE's level in DONE; while a stage runs it lies between the stage's first level and its own; in HOLD it is the attack level; it starts at the first level; with the tick still behind the stage's start it lies beyond both levels (any curve but JUMP) |
| AhrEnvelope.Progress | flow/modules/AHR.java:259 | the progress through a running stage lies in [0, 1) and is 0 at its start; it is negative while the tick is behind the start |
| AhrEnvelope.Mix | flow/modules/AHR.java:306 | for a fraction in [0, 1] the mix lies between the first and the last level; it is the first level at 0; a negative fraction moves it past the first level, away from the last |
| AhrEnvelope.AHR.constructor | flow/modules/AHR.java:148-159 | a new envelope is in ATTACK with output 0, linear curves, and one-shot and sync off |
| AhrEnvelope.AHR.GetOptionValue | flow/modules/AHR.java:124-134 | the curve options, or one-shot and sync as 0/1; any other option is an error |
| AhrEnvelope.AHR.SetOptionValue | flow/modules/AHR.java:136-146 | reading an option back gives the stored value (a flag as 0/1); other options are unchanged; any other index fails |
| AhrEnvelope.AHR.DoGate | flow/modules/AHR.java:168-183 | the times and levels are loaded (attack level held through HOLD, zero for RELEASE and DONE); the envelope enters ATTACK at the sync tick for the attack's ticks |
| AhrEnvelope.AHR.DoRelease | flow/modules/AHR.java:192-200 | a one-shot envelope is unchanged; otherwise it enters RELEASE at the sync tick, falling from the current output |
| AhrEnvelope.AHR.Go | flow/modules/AHR.java:207-308 | a gate restarts, else a release releases; the phase is then the settled phase at the tick and the output is the envelope's sample there; without a trigger, a tick behind the running stage's start leaves the phase as it was |
| AhrEnvelope.AHR.NextStage | flow/modules/AHR.java:237-249 | one transition: the next stage starts where the last ended and lasts its own time; after RELEASE the envelope is DONE |
| AhrEnvelope.AHR.Step | flow/modules/AHR.java:223-308 | for any sync tick, also one behind the stage's start, the transition loop reaches the settled phase (DONE is absorbing) and the output is that phase's sample |
| VcaUnit.Scale | flow/modules/VCA.java:45-51 | 0 maps to 0, 0.5 to 1 and 1 to 8; [0, 1] maps into [0, 8]; below 0.5 attenuates, above amplifies |
| VcaUnit.ScaleMonotonic | flow/modules/VCA.java:45-51 | the mapping is non-decreasing |
| VcaUnit.DescribedScale | flow/modules/VCA.java:84-99 | the multiplier shown for a constant Scale equals the one go() applies |
| VcaUnit.VCA.constructor | flow/modules/VCA.java:28-33 | a new unit has n output slots |
| VcaUnit.VCA.Go | flow/modules/VCA.java:35-82 | every output slot is the input amplitude times mod times the scale mapping |
| FlangeUnit.FilterStretch | flow/modules/FlangeFilter.java:106 | with non-negative modulations the lobe width is at least 1 Hz |
| FlangeUnit.LobePosition | flow/modules/FlangeFilter.java:131 | the lobe position lies in [0, 1) |
| FlangeUnit.LobePositionIsFraction | flow/modules/FlangeFilter.java:126-131 | the lobe position is the fractional part of (a - f) / s |
| FlangeUnit.Reflect | flow/modules/FlangeFilter.java:134 | the reflected position lies in [0, 1] and is 0 only at a lobe edge |
| FlangeUnit.StyleGain | flow/modules/FlangeFilter.java:137-170 | every style's gain lies in [0, 1]; an unknown style gives 0 |
| FlangeUnit.Multiplier | flow/modules/FlangeFilter.java:173-178 | the multiplier lies in [0, 2] for a wet amount in [0, 1], is 1 with no wet amount, 1 - wet at gain 0 and 1 + wet at gain 1 |
| FlangeUnit.SlotMultiplier | flow/modules/FlangeFilter.java:128-178 | a partial's multiplier lies in [0, 2] and is 1 with no wet amount |
| FlangeUnit.SlotOutput | flow/modules/FlangeFilter.java:181 | a skipped fundamental passes through; otherwise the output lies between 0 and twice the input |
| FlangeUnit.FlangeFilter.constructor | flow/modules/FlangeFilter.java:82-89 | a new filter is SPIKE DOWN, not fixed, and includes the fundamental |
| FlangeUnit.FlangeFilter.GetOptionValue | flow/modules/FlangeFilter.java:54-63 | the style, or the flags as 0/1; any other option is an error |
| FlangeUnit.FlangeFilter.SetOptionValue | flow/modules/FlangeFilter.java:65-74 | reading an option back gives the stored value (a flag as 0/1); other options are unchanged; any other index fails |
| FlangeUnit.FlangeFilter.Go | flow/modules/FlangeFilter.java:91-185 | each partial is scaled by its lobe multiplier; an excluded fundamental passes through; no wet amount leaves the input unchanged; outputs lie in [0, 2 * input] |
| TinkleUnit.NumberOfPicks | flow/modules/Tinkle.java:101 | the number of picks is floor(Number * 16), at most 16 |
| TinkleUnit.Draws | flow/modules/Tinkle.java:101-116 | no picks are drawn when no partial is allowed, otherwise the number of picks |
| TinkleUnit.Picked | flow/modules/Tinkle.java:110-115 | the picked partials are allowed partials, and every pick is among them |
| TinkleUnit.DecayFactor | flow/modules/Tinkle.java:122 | the decay factor lies in [0.99, 1] |
| TinkleUnit.DecayNeverGrows | flow/modules/Tinkle.java:120-127 | decay never raises a non-negative amplitude nor makes it negative |
| TinkleUnit.Tinkle.constructor | flow/modules/Tinkle.java:35-40 | a new unit has n silent internal and output amplitudes |
| TinkleUnit.Tinkle.Clear | flow/modules/Tinkle.java:44-55 | every internal amplitude becomes 0 |
| TinkleUnit.Tinkle.DoTinkle | flow/modules/Tinkle.java:99-118 | when the probability test passes and a partial is allowed, the picked partials get the volume; nothing else changes; only allowed partials ever change |
| TinkleUnit.Tinkle.Reduce | flow/modules/Tinkle.java:120-127 | every internal amplitude is multiplied by the decay factor |
| TinkleUnit.Tinkle.Interpolate | flow/modules/Tinkle.java:129-138 | the output equals the internal amplitudes |
| TinkleUnit.Tinkle.Gate | flow/modules/Tinkle.java:44-55 | every internal amplitude is zeroed, then the picked ones get the volume |
| TinkleUnit.Tinkle.Reset | flow/modules/Tinkle.java:57-68 | a reset does to the internal amplitudes what a gate does |
| TinkleUnit.Tinkle.Go | flow/modules/Tinkle.java:85-97 | tinkles only when triggered, then decays and copies to the output; untriggered, no amplitude grows |
| NoiseUnit.Sum | flow/modules/Noise.java:126-134 | the running sum of positive increments is positive |
| NoiseUnit.SumPrefixIncreasing | flow/modules/Noise.java:126-134 | longer prefixes of positive increments have strictly larger sums |
| NoiseUnit.RandomValInUnit | flow/modules/Noise.java:126-137 | every generated value lies strictly between 0 and 1 |
| NoiseUnit.RandomValsIncreasing | flow/modules/Noise.java:126-137 | the generated values are strictly increasing |
| NoiseUnit.GenerateRandomVals | flow/modules/Noise.java:113-138 | freq[start .. start+count) receives the sorted generator's values; other slots are unchanged |
| NoiseUnit.AccumulateIncrements | flow/modules/Noise.java:126-132 | the first loop stores the running sums and returns their total |
| NoiseUnit.ScaleBlock | flow/modules/Noise.java:135-137 | the second loop multiplies the block by the inverse sum |
| NoiseUnit.NoiseFreqInRange | flow/modules/Noise.java:176 | an employed partial's absolute frequency lies in [lo, hi] |
| NoiseUnit.Ramping | flow/modules/Noise.java:177-185 | the ramp weight lies in [0, 1] and is 1 at Ramp 0.5 |
| NoiseUnit.NoiseAmplitudeBounds | flow/modules/Noise.java:186-201 | every employed amplitude lies in [0, gain] |
| NoiseUnit.NumEmployed | flow/modules/Noise.java:142 | the number of employed partials lies in [0, n] |
| NoiseUnit.RawAmplitude | flow/modules/Noise.java:186-200 | applying the gain to the raw amplitude gives the employed amplitude |
| NoiseUnit.Noise.constructor | flow/modules/Noise.java:105-111 | a new unit occupies the top partials |
| NoiseUnit.Noise.GetOptionValue | flow/modules/Noise.java:86-93 | TOP as 0/1; any other option is an error |
| NoiseUnit.Noise.SetOptionValue | flow/modules/Noise.java:95-102 | reading TOP back gives 1 for a non-zero value, else 0; any other index fails |
| NoiseUnit.Noise.Go | flow/modules/Noise.java:140-202 | the bounds are put in order; the employed block (top or bottom) receives sorted frequencies in [lo, hi] and ramped amplitudes; every other slot is silent at the reset frequency |
| NoiseUnit.Noise.Employ | flow/modules/Noise.java:173-195 | the employed block's positions become frequencies and raw amplitudes; other slots are unchanged |
| NoiseUnit.Noise.Normalize | flow/modules/Noise.java:198-201 | the employed amplitudes are scaled by the gain; other slots are unchanged |

## Left out

- Threads and locks are left out: the output thread, the primary and per-voice threads,
  `blockVoiceUntil`/`signalVoice`, the `ReentrantLock` and the `while (emitsReady) yield`
  spin-wait. The voice and output halves are sequential steps, and publication requires
  `!emitsReady` in place of the spin-wait.
- Audio device I/O is left out: the mixer selection, `sdl.available`/`sdl.write`, glitch
  detection (`getAndResetGlitched`) and the diagnostic statistics and printing in `go()`.
- Utility.fastSin is a parameter `sin`, and `Math.log` and all random draws are parameters:
  Noise increments and draws, the Tinkle picks and probability draw. Seeding and `reseed`/
  `initializeRandom` are left out.
- MIDI input is left out. `input.go()`, the MIDI clock and `getLastPlayedSound` become the
  parameter `lastPlayed`; `input.addSound` is not part of this model.
- The Sound constructor's registration with the Output (`output.register(this)`) and its random
  generator are not part of `Voice.Sound.constructor`; registration is `Engine.Output.Register`.
  Trivial accessors (`getIndex`, `getChannel`, velocity and aftertouch setters) are omitted.
- Engine.Output.RunVoices follows the corrected schedule (`Engine.Schedule`), not the rounded-down
  worker count of Output.java line 835; the code as written is `Engine.ScheduleAsWritten`.
- Engine.Output.RunWorkers starts as many workers as the corrected, rounded-up count
  `Engine.NumThreads`, not `numSounds / numVoicesPerThread`.
- Engine.Output.RunWorker stops at `voice >= numSounds`, the corrected form of the `voice > numSounds`
  guard; the code as written is `Engine.WorkerVoices`.
- AmpMathUnit.AmpMath.Go closes COMPRESS with the `break` its case lacks; the code as written is
  `AmpMathUnit.AmpMath.GoAsWritten`.
- Engine.Output.Publish requires `!emitsReady`: the source spins until the output side has taken
  the previous buffer, which a sequential model states as a precondition.
- Engine.Output.Register does not model the `sounds` array overflowing: it requires a free
  slot (Java would throw).
- Engine.Output.BuildSample: summation is over reals in voice order. The floating-point
  rounding of doubles (and subnormals) is not modelled; the snap-to-zero branch is modelled
  exactly.
- Engine.Output.constructor: the number of partials `n` is at most 128, because orders are
  Java bytes. Preferences loading and the mixer choice are left out.
- The `Unit` base-class helpers `constrain()`, `normalizeAmplitudes()`, `pushFrequencies()`,
  `copyFrequencies()` and `super.go()` are not part of this model, since they are not visible.
  In particular the output frequencies of AmpMath and Delay, which `copyFrequencies(0)` makes a
  copy of input 0's frequencies (AmpMath.java:116, Delay.java:74), are not modelled: those two
  units are modelled by their amplitudes only. The values that
  `modulate`, `makeSensitive`, `modToFrequency`, `modToInsensitiveFrequency`, `toTicks` and
  `getSyncTick` return are parameters.
- Group's JSON patch (`getPatch`/`setPatch`) and `EMPTY_JSON` are left out: they belong to an
  external library.
- Engine.Output.RunVoices records voice resets and evaluations in a ghost log rather than
  running `Sound.go()`. The effect of a voice's evaluation is modelled by `Voice.Sound.Go`.
- AhrEnvelope.AHR.Go takes the sync tick as an unbounded integer parameter. Whether it can fall
  behind a stage's start is not known here: `getSyncTick` is not part of this model. The 32-bit
  tick rolls over (Output.java:245-247), and switching the sync option mid-stage changes the clock.
  Go and Step therefore accept any tick. The tick's `long` width and the
  `isModulationConstant`/`isTriggered`/`resetTrigger`/`updateTrigger` trigger bookkeeping are
  parameters or left out.
- AhrEnvelope.Progress: with the tick behind the start of a stage of zero length, Java divides by
  zero and gets an infinite or NaN double. The model gives 0 there; floating point is not modelled.
- NoiseUnit.Noise.Go requires a non-zero pitch (Java would divide by zero, giving infinities)
  and a Partials modulation in [0, 1].
- FlangeUnit.FlangeFilter.Go requires non-negative stretch modulations, so the lobe width is
  positive. Modulation values lie in [0, 1] in the source.
- DelayUnit.Delay.Go requires non-negative sensitivities. `makeSensitive` of a modulation in
  [0, 1] is not part of this model.
- VCA's `MOD_BOOST` has no effect in the source (its code is commented out) and has no
  parameter here.
- Presentation is left out: `getModulationValueDescription` strings, `AHR.clone`, `AHR.getPanel`,
  and the GUI classes.
- Engine.Output.GetTick, `getSoundUnsafe` and `getOnlyPlayFirstSound`/`setOnlyPlayFirstSound`
  are plain field reads and writes and are not separate members with contracts.

## Findings

| source | as written | input that shows it | evidently intended | confidence | as-written member | corrected member |
|---|---|---|---|---|---|---|
| flow/Output.java:835 | `numThreads = numSounds / numVoicesPerThread` rounds down, and the worker guard is `voice > numSounds` | 3 sounds, 2 voices per thread: one worker runs voices 0 and 1, and voice 2 is never evaluated | as many workers as needed (rounded up), each stopping at `voice >= numSounds`, so every registered voice runs once | high (not executed) | Engine.ScheduleSkipsVoice | Engine.ScheduleCoversAll |
| flow/modules/AmpMath.java:154-168 | the COMPRESS case has no `break` and falls through into the MEAN loop, which overwrites every slot | A = 1, B = 0, mod = 0: COMPRESS yields 0 | COMPRESS yields 1 - (1 - A) * (1 - B), as the class comment documents (here 1) | high (not executed) | AmpMathUnit.CompressFallsThrough | AmpMathUnit.IntendedCompressBounds |

Both corrected definitions are the ones the rest of the model uses: `Engine.Output.RunVoices`
follows `Engine.Schedule`, and `AmpMathUnit.AmpMath.Go` writes `AmpMathUnit.Formula`, each case
closed by its `break`. `AmpMathUnit.AmpMath.GoAsWritten` runs the switch as written.

The class comment of AmpMath also describes ADD as min(1, A + B), MEAN as (A + B) / 2 and SCALEUP
as clamped. The code computes A + B, mod * A + (1 - mod) * B and A * (mod + 1) without clamping;
the model follows the code.
